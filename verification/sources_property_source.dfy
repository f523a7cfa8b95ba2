/**
  The property source that exposes an ordered sequence of configuration
  property sources to a property resolver: a raw name is parsed leniently,
  the sources are asked in order, and the first one that answers decides.
 */
module ConfigurationPropertySourcesPropertySource {
  import opened Wrappers
  import opened PropertyTypes

  /** Every source before position `k` returns `null` for `name`. */
  ghost predicate NullBefore<V>(sources: seq<Source<V>>, name: Name, k: int)
  {
    forall j :: 0 <= j < k && j < |sources| ==> sources[j](name).ReturnsNull?
  }

  /** No source in `sources` has anything to say about `name`: all return `null`. */
  ghost predicate AllNull<V>(sources: seq<Source<V>>, name: Name)
  {
    NullBefore(sources, name, |sources|)
  }

  /**
    Source `k` is the first one whose lookup of `name` does not return `null`:
    it either returns a property or throws, and every earlier source returned `null`.
   */
  ghost predicate IsFirstAnswer<V>(sources: seq<Source<V>>, name: Name, k: int)
  {
    && 0 <= k < |sources|
    && !sources[k](name).ReturnsNull?
    && NullBefore(sources, name, k)
  }

  /** Source `k` is the first answer and it answers with a property: its property wins. */
  ghost predicate IsWinner<V>(sources: seq<Source<V>>, name: Name, k: int)
  {
    IsFirstAnswer(sources, name, k) && sources[k](name).Returns?
  }

  /**
    The for-loop over the sources: the first non-null lookup result is returned
    and no later source is asked; an exception leaves the loop with that exception.
   */
  function FirstMatch<V>(sources: seq<Source<V>>, name: Name): Outcome<ConfigurationProperty<V>>
    decreases |sources|
  {
    if |sources| == 0 then
      ReturnsNull
    else
      match sources[0](name)
      case Returns(p) => Returns(p)
      case Throws => Throws
      case ReturnsNull => FirstMatch(sources[1..], name)
  }

  /**
    The search is `null` exactly when every source returns `null`; otherwise it
    is the answer of the first source whose lookup is not `null`.
   */
  lemma {:induction false} FirstMatchIsFirstAnswer<V>(sources: seq<Source<V>>, name: Name)
    ensures FirstMatch(sources, name).ReturnsNull? <==> AllNull(sources, name)
    ensures forall k :: IsFirstAnswer(sources, name, k) ==> FirstMatch(sources, name) == sources[k](name)
    ensures FirstMatch(sources, name).ReturnsNull? ||
      exists k :: IsFirstAnswer(sources, name, k) && FirstMatch(sources, name) == sources[k](name)
    decreases |sources|
  {
    if |sources| > 0 && sources[0](name).ReturnsNull? {
      var rest := sources[1..];
      FirstMatchIsFirstAnswer(rest, name);
      forall k | IsFirstAnswer(sources, name, k)
        ensures k >= 1 && IsFirstAnswer(rest, name, k - 1)
      {
        forall j | 0 <= j < k - 1
          ensures rest[j](name).ReturnsNull?
        {
          assert rest[j] == sources[j + 1];
        }
      }
      if FirstMatch(rest, name).ReturnsNull? {
        forall j | 0 < j < |sources|
          ensures sources[j](name).ReturnsNull?
        {
          assert sources[j] == rest[j - 1];
        }
      } else {
        var k :| IsFirstAnswer(rest, name, k) && FirstMatch(rest, name) == rest[k](name);
        forall j | 0 < j < k + 1
          ensures sources[j](name).ReturnsNull?
        {
          assert sources[j] == rest[j - 1];
        }
        assert IsFirstAnswer(sources, name, k + 1);
      }
    }
  }

  /**
    The overload taking a parsed name (which may be `null`): a `null` name is
    answered with `null` before any source is asked; otherwise the first source
    whose lookup is not `null` decides.
   */
  function FindByName<V>(sources: seq<Source<V>>, name: Option<Name>): (r: Outcome<ConfigurationProperty<V>>)
    ensures name.None? ==> r.ReturnsNull?
    ensures name.Some? ==> (r.ReturnsNull? <==> AllNull(sources, name.value))
    ensures forall k :: name.Some? && IsFirstAnswer(sources, name.value, k) ==> r == sources[k](name.value)
    ensures name.Some? ==>
      (r.ReturnsNull? || exists k :: IsFirstAnswer(sources, name.value, k) && r == sources[k](name.value))
  {
    match name
    case None => ReturnsNull
    case Some(n) =>
      FirstMatchIsFirstAnswer(sources, n);
      FirstMatch(sources, n)
  }

  /** Catching an `Exception` around a call and answering `null` in its place. */
  function CatchAll<T>(call: Outcome<T>): Option<T>
  {
    match call
    case Returns(v) => Some(v)
    case ReturnsNull => None
    case Throws => None
  }

  /**
    The overload taking a raw name: parse it leniently, search, and turn any
    exception from parsing or from the search into absence.
   */
  function Find<V>(sources: seq<Source<V>>, parse: Parser, raw: string): (r: Option<ConfigurationProperty<V>>)
    ensures !parse(raw).Returns? ==> r.None?
    ensures r.Some? <==> parse(raw).Returns? && exists k :: IsWinner(sources, parse(raw).result, k)
    ensures forall k :: parse(raw).Returns? && IsWinner(sources, parse(raw).result, k) ==>
      r == Some(sources[k](parse(raw).result).result)
  {
    var call :=
      match parse(raw)
      case Throws => Throws
      case ReturnsNull => FindByName(sources, None)
      case Returns(n) => FindByName(sources, Some(n));
    assert parse(raw).Returns? ==> (call.Returns? <==> exists k :: IsWinner(sources, parse(raw).result, k)) by {
      if parse(raw).Returns? && call.Returns? {
        var k :| IsFirstAnswer(sources, parse(raw).result, k) && call == sources[k](parse(raw).result);
        assert IsWinner(sources, parse(raw).result, k);
      }
    }
    CatchAll(call)
  }

  /** The value of the property found for `raw`, or `null`. */
  function GetProperty<V>(sources: seq<Source<V>>, parse: Parser, raw: string): (r: Option<V>)
    ensures r.Some? <==> parse(raw).Returns? && exists k :: IsWinner(sources, parse(raw).result, k)
    ensures forall k :: parse(raw).Returns? && IsWinner(sources, parse(raw).result, k) ==>
      r == Some(sources[k](parse(raw).result).result.value)
  {
    match Find(sources, parse, raw)
    case Some(p) => Some(p.value)
    case None => None
  }

  /** The origin of the property found for `raw`, from the same lookup as `GetProperty`. */
  function GetOrigin<V>(sources: seq<Source<V>>, parse: Parser, raw: string): (r: Option<Origin>)
    ensures !(parse(raw).Returns? && exists k :: IsWinner(sources, parse(raw).result, k)) ==> r.None?
    ensures forall k :: parse(raw).Returns? && IsWinner(sources, parse(raw).result, k) ==>
      r == sources[k](parse(raw).result).result.origin
  {
    OriginFrom(Find(sources, parse, raw))
  }

  /**
    The search over the sources written as the loop it is, also reporting how
    many sources were asked: none for a `null` name, and up to and including the
    first source that answers otherwise.
   */
  method FindConfigurationProperty<V>(sources: seq<Source<V>>, name: Option<Name>)
    returns (r: Outcome<ConfigurationProperty<V>>, asked: nat)
    ensures name.None? ==> r.ReturnsNull? && asked == 0
    ensures name.Some? ==> r == FirstMatch(sources, name.value)
    ensures asked <= |sources|
    ensures name.Some? && r.ReturnsNull? ==> asked == |sources|
    ensures name.Some? && !r.ReturnsNull? ==> IsFirstAnswer(sources, name.value, asked - 1)
  {
    if name.None? {
      return ReturnsNull, 0;
    }
    var n := name.value;
    FirstMatchIsFirstAnswer(sources, n);
    asked := 0;
    while asked < |sources|
      invariant asked <= |sources|
      invariant NullBefore(sources, n, asked)
    {
      var answer := sources[asked](n);
      asked := asked + 1;
      if !answer.ReturnsNull? {
        assert IsFirstAnswer(sources, n, asked - 1);
        return answer, asked;
      }
    }
    r := ReturnsNull;
  }
}
