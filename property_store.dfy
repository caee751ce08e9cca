/** The property table that Tiled attaches to every Object (map, layer, tile,
    map object): a map from property names to values, where a class-typed
    value has named members of its own, so that a path of names can address
    a member nested inside a property. */
module PropertyStore {

  datatype Option<+T> = None | Some(value: T)

  /** A property value. The scalar cases stand for the many kinds a QVariant
      can hold; Composite is a class-typed value whose members are named. */
  datatype Value =
    | Bool(b: bool)
    | Int(i: int)
    | Text(s: string)
    | Composite(members: map<string, Value>)

  type Properties = map<string, Value>

  /** A path to a property member: the property's name, then member names. */
  type Path = p: seq<string> | |p| > 0 witness [""]

  /** The value stored under `name`, or None when the table has no such key. */
  function Lookup(props: Properties, name: string): Option<Value>
  {
    if name in props then Some(props[name]) else None
  }

  /** The member reached from `v` by following `rest`; None when a name on
      the way is missing or a value on the way is not composite. */
  function MemberAt(v: Value, rest: seq<string>): Option<Value>
    decreases |rest|
  {
    if rest == [] then Some(v)
    else match v
      case Composite(ms) => if rest[0] in ms then MemberAt(ms[rest[0]], rest[1..]) else None
      case _ => None
  }

  /** MemberAt lifted to a value that may be absent. */
  function MemberIn(current: Option<Value>, rest: seq<string>): Option<Value>
  {
    match current
    case None => None
    case Some(v) => MemberAt(v, rest)
  }

  /** The value found at `path` in a property table. */
  function GetAt(props: Properties, path: Path): (r: Option<Value>)
    ensures r.Some? ==> path[0] in props
    ensures |path| == 1 ==> r == Lookup(props, path[0])
  {
    MemberIn(Lookup(props, path[0]), path[1..])
  }

  /** The members of a value seen as a composite (none when it is not one). */
  function MembersOf(current: Option<Value>): map<string, Value>
  {
    if current.Some? && current.value.Composite? then current.value.members else map[]
  }

  /** `current` with the member at `rest` replaced by `x`; a member missing
      on the way, or a value on the way that is not composite, becomes a
      composite holding only what the path needs. */
  function WithMember(current: Option<Value>, rest: seq<string>, x: Value): Value
    decreases |rest|
  {
    if rest == [] then x
    else
      var ms := MembersOf(current);
      Composite(ms[rest[0] := WithMember(Lookup(ms, rest[0]), rest[1..], x)])
  }

  /** The table after setting the member at `path` to `x`: only the
      top-level property `path[0]` is touched, and it is then present. */
  function SetAt(props: Properties, path: Path, x: Value): (r: Properties)
    ensures r.Keys == props.Keys + {path[0]}
    ensures forall k :: k in props && k != path[0] ==> r[k] == props[k]
  {
    props[path[0] := WithMember(Lookup(props, path[0]), path[1..], x)]
  }

  /** The table with the top-level property `name` put back to `previous`:
      set again when it was present, removed when it was absent. */
  function Restore(props: Properties, name: string, previous: Option<Value>): (r: Properties)
    ensures Lookup(r, name) == previous
    ensures forall k :: k != name ==> Lookup(r, k) == Lookup(props, k)
  {
    match previous
    case Some(v) => props[name := v]
    case None => props - {name}
  }

  /** Two paths that part ways: neither is a prefix of the other. */
  predicate Diverge(p: seq<string>, q: seq<string>)
    decreases |p|
  {
    |p| > 0 && |q| > 0 && (p[0] != q[0] || Diverge(p[1..], q[1..]))
  }

  lemma {:induction false} MemberAfterWith(current: Option<Value>, rest: seq<string>, x: Value)
    ensures MemberAt(WithMember(current, rest, x), rest) == Some(x)
    decreases |rest|
  {
    if rest != [] {
      MemberAfterWith(Lookup(MembersOf(current), rest[0]), rest[1..], x);
    }
  }

  /** Reading a path right after setting it yields the value just set. */
  lemma {:induction false} GetAfterSet(props: Properties, path: Path, x: Value)
    ensures GetAt(SetAt(props, path, x), path) == Some(x)
  {
    MemberAfterWith(Lookup(props, path[0]), path[1..], x);
  }

  lemma {:induction false} WithMemberTwice(current: Option<Value>, rest: seq<string>, a: Value, b: Value)
    ensures WithMember(Some(WithMember(current, rest, a)), rest, b) == WithMember(current, rest, b)
    decreases |rest|
  {
    if rest != [] {
      var ms := MembersOf(current);
      var k := rest[0];
      WithMemberTwice(Lookup(ms, k), rest[1..], a, b);
      var inner := ms[k := WithMember(Lookup(ms, k), rest[1..], a)];
      assert MembersOf(Some(WithMember(current, rest, a))) == inner;
      assert Lookup(inner, k) == Some(WithMember(Lookup(ms, k), rest[1..], a));
      assert inner[k := WithMember(Lookup(ms, k), rest[1..], b)] == ms[k := WithMember(Lookup(ms, k), rest[1..], b)];
    }
  }

  /** Setting a path twice is the same as setting it to the later value:
      the earlier write leaves no trace. */
  lemma {:induction false} SetAtOverwrites(props: Properties, path: Path, a: Value, b: Value)
    ensures SetAt(SetAt(props, path, a), path, b) == SetAt(props, path, b)
  {
    WithMemberTwice(Lookup(props, path[0]), path[1..], a, b);
  }

  lemma {:induction false} MemberElsewhere(current: Option<Value>, r: seq<string>, s: seq<string>, x: Value)
    requires Diverge(r, s)
    ensures MemberIn(Some(WithMember(current, r, x)), s) == MemberIn(current, s)
    decreases |r|
  {
    var ms := MembersOf(current);
    var k := r[0];
    if s[0] == k {
      MemberElsewhere(Lookup(ms, k), r[1..], s[1..], x);
    }
  }

  /** Setting one path leaves every path that parts ways with it as it was. */
  lemma {:induction false} GetAtElsewhere(props: Properties, p: Path, q: Path, x: Value)
    requires Diverge(p, q)
    ensures GetAt(SetAt(props, p, x), q) == GetAt(props, q)
  {
    if p[0] == q[0] {
      MemberElsewhere(Lookup(props, p[0]), p[1..], q[1..], x);
    }
  }

  /** Putting back the top-level property captured before a set undoes the
      set exactly, whatever path below that property was written. */
  lemma RestoreAfterSet(props: Properties, path: Path, x: Value)
    ensures Restore(SetAt(props, path, x), path[0], Lookup(props, path[0])) == props
  {
  }

  /** Restoring the same key twice is the same as restoring it once, to the
      later value. */
  lemma RestoreTwice(props: Properties, name: string, a: Option<Value>, b: Option<Value>)
    ensures Restore(Restore(props, name, a), name, b) == Restore(props, name, b)
  {
  }
}
