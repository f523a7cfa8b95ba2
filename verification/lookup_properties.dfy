/**
  Properties of the lookup that relate several calls: precedence across
  appended and shared-prefix source sequences, the reach of a fault, and the
  agreement of the value and origin projections.
 */
module LookupProperties {
  import opened Wrappers
  import opened PropertyTypes
  import opened ConfigurationPropertySourcesPropertySource

  /**
    Searching `front + back` is searching `front` first, and `back` only when
    every source of `front` returned `null`.
   */
  lemma {:induction false} FirstMatchAppend<V>(front: seq<Source<V>>, back: seq<Source<V>>, name: Name)
    ensures FirstMatch(front + back, name) ==
      (if FirstMatch(front, name).ReturnsNull? then FirstMatch(back, name) else FirstMatch(front, name))
    decreases |front|
  {
    if |front| == 0 {
      assert front + back == back;
    } else {
      assert (front + back)[0] == front[0];
      assert (front + back)[1..] == front[1..] + back;
      if front[0](name).ReturnsNull? {
        FirstMatchAppend(front[1..], back, name);
      }
    }
  }

  /** Sources appended after the ones that produced a property never change it. */
  lemma FindAppendAfterHit<V>(sources: seq<Source<V>>, more: seq<Source<V>>, parse: Parser, raw: string)
    requires Find(sources, parse, raw).Some?
    ensures Find(sources + more, parse, raw) == Find(sources, parse, raw)
    ensures GetProperty(sources + more, parse, raw) == GetProperty(sources, parse, raw)
    ensures GetOrigin(sources + more, parse, raw) == GetOrigin(sources, parse, raw)
  {
    var n := parse(raw).result;
    FirstMatchAppend(sources, more, n);
  }

  /**
    Only the sources up to and including the first one that answers matter:
    any sequence that shares that prefix gives the same result, whatever its
    later sources hold or do.
   */
  lemma OnlyPrefixMatters<V>(sources: seq<Source<V>>, other: seq<Source<V>>, parse: Parser, raw: string, k: nat)
    requires parse(raw).Returns? && IsFirstAnswer(sources, parse(raw).result, k)
    requires k < |other| && other[..k + 1] == sources[..k + 1]
    ensures Find(other, parse, raw) == Find(sources, parse, raw)
    ensures GetProperty(other, parse, raw) == GetProperty(sources, parse, raw)
    ensures GetOrigin(other, parse, raw) == GetOrigin(sources, parse, raw)
  {
    forall j | 0 <= j <= k
      ensures other[j] == sources[j]
    {
      assert other[j] == other[..k + 1][j];
      assert sources[j] == sources[..k + 1][j];
    }
    assert IsFirstAnswer(other, parse(raw).result, k);
  }

  /**
    A source that throws before any source has produced the property makes the
    whole lookup absent, even when a later source holds the property: the
    exception is caught around the entire search, not per source.
   */
  lemma FaultBeforeHitIsAbsent<V>(sources: seq<Source<V>>, more: seq<Source<V>>, parse: Parser, raw: string, k: nat)
    requires parse(raw).Returns? && IsFirstAnswer(sources, parse(raw).result, k)
    requires sources[k](parse(raw).result).Throws?
    ensures Find(sources + more, parse, raw).None?
    ensures GetProperty(sources + more, parse, raw).None?
    ensures GetOrigin(sources + more, parse, raw).None?
  {
    var n := parse(raw).result;
    FirstMatchAppend(sources, more, n);
    FirstMatchIsFirstAnswer(sources, n);
  }

  /** When every source returns `null` for the parsed name, nothing is found. */
  lemma AllNullIsAbsent<V>(sources: seq<Source<V>>, parse: Parser, raw: string)
    requires parse(raw).Returns? && AllNull(sources, parse(raw).result)
    ensures Find(sources, parse, raw).None?
    ensures GetProperty(sources, parse, raw).None?
    ensures GetOrigin(sources, parse, raw).None?
  {
  }

  /**
    The value and the origin come from one and the same property, produced by
    the winning source.
   */
  lemma ValueAndOriginAgree<V>(sources: seq<Source<V>>, parse: Parser, raw: string, prop: ConfigurationProperty<V>)
    requires Find(sources, parse, raw) == Some(prop)
    ensures GetProperty(sources, parse, raw) == Some(prop.value)
    ensures GetOrigin(sources, parse, raw) == prop.origin
    ensures exists k :: IsWinner(sources, parse(raw).result, k) && sources[k](parse(raw).result) == Returns(prop)
  {
  }

  /**
    Each lookup reads the current sources afresh: the same parse of the raw
    name and the same answers from the sources give the same property, value
    and origin.
   */
  lemma LookupDependsOnlyOnAnswers<V>(s1: seq<Source<V>>, s2: seq<Source<V>>, p1: Parser, p2: Parser, raw: string)
    requires p1(raw) == p2(raw)
    requires |s1| == |s2|
    requires p1(raw).Returns? ==> forall j :: 0 <= j < |s1| ==> s1[j](p1(raw).result) == s2[j](p1(raw).result)
    ensures Find(s1, p1, raw) == Find(s2, p2, raw)
    ensures GetProperty(s1, p1, raw) == GetProperty(s2, p2, raw)
    ensures GetOrigin(s1, p1, raw) == GetOrigin(s2, p2, raw)
  {
  }

  /**
    An example of the fault semantics: a first source that throws for `y` hides
    a second source that holds `y`, while the second source on its own finds it.
   */
  lemma FaultHidesLaterSource()
    ensures
      var y := Name(["y"]);
      var prop := ConfigurationProperty(y, 3, None);
      var parse: Parser := (raw: string) => if raw == "y" then Returns(y) else ReturnsNull;
      var faulty: Source<int> := (n: Name) => Throws;
      var holder: Source<int> := (n: Name) => if n == y then Returns(prop) else ReturnsNull;
      && Find([faulty, holder], parse, "y") == None
      && Find([holder], parse, "y") == Some(prop)
  {
  }
}
