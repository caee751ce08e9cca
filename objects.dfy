/** Tiled's Object: the base of maps, layers, tiles and map objects, as far
    as the property commands see it — a class name and a property table,
    both updated in place. */
module Objects {
  import opened PropertyStore

  class Object {
    var className: string
    var properties: Properties

    constructor (className: string, properties: Properties)
      ensures this.className == className && this.properties == properties
    {
      this.className := className;
      this.properties := properties;
    }
  }

  /** The position of the last occurrence of `x` in `s`. An object listed
      twice in a command is written twice, so the later write is the one
      that holds afterwards. */
  function LastIndex<T(==)>(s: seq<T>, x: T): (i: nat)
    requires x in s
    ensures i < |s| && s[i] == x
    ensures forall j :: i < j < |s| ==> s[j] != x
  {
    if s[|s| - 1] == x then |s| - 1 else LastIndex(s[..|s| - 1], x)
  }
}
