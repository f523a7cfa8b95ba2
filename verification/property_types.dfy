/**
  The values that flow through a configuration property lookup: canonical
  names, origins, the immutable property record, and the three ways a Java
  call can end (a value, `null`, or an `Exception`).
 */
module PropertyTypes {
  import opened Wrappers

  /** A canonical property name: its lower-case elements, already normalised. */
  datatype Name = Name(elements: seq<string>)

  /** Where a value physically came from (file and position, environment entry, ...). */
  datatype Origin = Origin(description: string)

  /** A resolved property: its canonical name, its (non-null) value and an optional origin. */
  datatype ConfigurationProperty<V> = ConfigurationProperty(name: Name, value: V, origin: Option<Origin>)

  /**
    How a call into code outside this model ends: it returns a non-null
    `result`, it returns `null`, or it throws an `Exception`.
   */
  datatype Outcome<+T> = Returns(result: T) | ReturnsNull | Throws

  /**
    A configuration property source, reduced to its lookup by canonical name.
    It may answer with a property, with `null` (no such property), or throw.
   */
  type Source<V> = Name -> Outcome<ConfigurationProperty<V>>

  /**
    Lenient parsing of a raw name into a canonical one: `null` for a name that
    is not valid, and possibly an exception.
   */
  type Parser = string -> Outcome<Name>

  /**
    `Origin.from` for the arguments a lookup passes it: nothing for a missing
    property, and the origin the property itself carries otherwise.
   */
  function OriginFrom<V>(found: Option<ConfigurationProperty<V>>): Option<Origin>
  {
    match found
    case None => None
    case Some(p) => p.origin
  }
}
