/** The undo commands of src/tiled/changeproperties.h: each command keeps
    references to the objects it edits (it never owns them) and the values it
    needs to revert itself, and its Redo and Undo update those objects' class
    names or property tables in place. */
module PropertyCommands {
  import opened PropertyStore
  import opened Objects

  /** The merge identifiers returned by id(); a command that keeps
      QUndoCommand's default id never merges. */
  datatype CommandId = CmdChangeClassName | CmdSetProperty | NoMergeId

  /** Any of the commands of this module, as an undo stack holds them. */
  datatype Command =
    | ChangeClassNameCommand(changeClassName: ChangeClassName)
    | ChangePropertiesCommand(changeProperties: ChangeProperties)
    | SetPropertyCommand(setProperty: SetProperty)
    | RemovePropertyCommand(removeProperty: RemoveProperty)
    | RenamePropertyCommand(renameProperty: RenameProperty)

  /** Only a SetProperty carries Cmd_SetProperty, so only another
      SetProperty is a merge candidate for one. */
  function Id(c: Command): (r: CommandId)
    ensures r == CmdSetProperty <==> c.SetPropertyCommand?
    ensures r == CmdChangeClassName <==> c.ChangeClassNameCommand?
  {
    match c
    case ChangeClassNameCommand(_) => CmdChangeClassName
    case SetPropertyCommand(_) => CmdSetProperty
    case _ => NoMergeId
  }

  /** Each object's current class name, in list order. */
  method CaptureClassNames(objects: seq<Object>) returns (names: seq<string>)
    ensures |names| == |objects|
    ensures forall i :: 0 <= i < |objects| ==> names[i] == objects[i].className
  {
    names := [];
    var i := 0;
    while i < |objects|
      invariant 0 <= i <= |objects|
      invariant |names| == i
      invariant forall j :: 0 <= j < i ==> names[j] == objects[j].className
    {
      names := names + [objects[i].className];
      i := i + 1;
    }
  }

  /** Each object's current value of the top-level property `name` (None
      where the object has no such property), in list order. */
  method CaptureValues(objects: seq<Object>, name: string) returns (values: seq<Option<Value>>)
    ensures |values| == |objects|
    ensures forall i :: 0 <= i < |objects| ==> values[i] == Lookup(objects[i].properties, name)
  {
    values := [];
    var i := 0;
    while i < |objects|
      invariant 0 <= i <= |objects|
      invariant |values| == i
      invariant forall j :: 0 <= j < i ==> values[j] == Lookup(objects[j].properties, name)
    {
      values := values + [Lookup(objects[i].properties, name)];
      i := i + 1;
    }
  }

  /** The objects of the list that have the property `name`, in list order
      and as often as they are listed. */
  ghost function HoldersOf(objects: seq<Object>, name: string): seq<Object>
    reads objects
  {
    if objects == [] then []
    else
      var n := |objects| - 1;
      HoldersOf(objects[..n], name) + (if name in objects[n].properties then [objects[n]] else [])
  }

  /** The objects that have the property `name`, in list order, with the
      value each holds there. */
  method Holders(objects: seq<Object>, name: string) returns (holders: seq<Object>, held: seq<Value>)
    ensures holders == HoldersOf(objects, name)
    ensures |held| == |holders|
    ensures forall o :: o in holders <==> o in objects && name in o.properties
    ensures forall i :: 0 <= i < |holders| ==> name in holders[i].properties && held[i] == holders[i].properties[name]
  {
    holders, held := [], [];
    var i := 0;
    while i < |objects|
      invariant 0 <= i <= |objects|
      invariant holders == HoldersOf(objects[..i], name)
      invariant forall o :: o in holders <==> o in objects[..i] && name in o.properties
      invariant |held| == |holders|
      invariant forall j :: 0 <= j < |holders| ==> name in holders[j].properties && held[j] == holders[j].properties[name]
    {
      assert objects[..i + 1][..i] == objects[..i];
      if name in objects[i].properties {
        holders, held := holders + [objects[i]], held + [objects[i].properties[name]];
      }
      i := i + 1;
    }
    assert objects[..i] == objects;
  }

  /** The class name `c` of object `o` after `names[j]` has been assigned
      for every position j of the list that holds `o`, in list order. */
  function ClassNameInOrder(objects: seq<Object>, names: seq<string>, o: Object, c: string): string
    requires |objects| <= |names|
  {
    if objects == [] then c
    else
      var n := |objects| - 1;
      if objects[n] == o then names[n] else ClassNameInOrder(objects[..n], names, o, c)
  }

  /** Assigning in list order leaves each listed object with the name of its
      last position; an object not listed keeps its name. */
  lemma {:induction false} ClassNameInOrderLastWins(objects: seq<Object>, names: seq<string>, o: Object, c: string)
    requires |objects| <= |names|
    ensures o in objects ==> ClassNameInOrder(objects, names, o, c) == names[LastIndex(objects, o)]
    ensures o !in objects ==> ClassNameInOrder(objects, names, o, c) == c
  {
    if objects != [] {
      var n := |objects| - 1;
      assert objects == objects[..n] + [objects[n]];
      ClassNameInOrderLastWins(objects[..n], names, o, c);
    }
  }

  /** The table `t` of object `o` after `values[j]` has been written at
      `path` for every position j of the list that holds `o`, in list order. */
  function SetInOrder(objects: seq<Object>, values: seq<Value>, path: Path, o: Object, t: Properties): Properties
    requires |objects| <= |values|
  {
    if objects == [] then t
    else
      var n := |objects| - 1;
      var before := SetInOrder(objects[..n], values, path, o, t);
      if objects[n] == o then SetAt(before, path, values[n]) else before
  }

  /** Writing in list order leaves each listed object with the value of its
      last position; an object not listed keeps its table. */
  lemma {:induction false} SetInOrderLastWins(objects: seq<Object>, values: seq<Value>, path: Path, o: Object, t: Properties)
    requires |objects| <= |values|
    ensures o in objects ==> SetInOrder(objects, values, path, o, t) == SetAt(t, path, values[LastIndex(objects, o)])
    ensures o !in objects ==> SetInOrder(objects, values, path, o, t) == t
  {
    if objects != [] {
      var n := |objects| - 1;
      assert objects == objects[..n] + [objects[n]];
      SetInOrderLastWins(objects[..n], values, path, o, t);
      if objects[n] == o && o in objects[..n] {
        SetAtOverwrites(t, path, values[LastIndex(objects[..n], o)], values[n]);
      }
    }
  }

  /** The table `t` of object `o` after the top-level property `name` has
      been put back to `previous[j]` for every position j that holds `o`,
      in list order. */
  function RestoreInOrder(objects: seq<Object>, previous: seq<Option<Value>>, name: string, o: Object, t: Properties): Properties
    requires |objects| <= |previous|
  {
    if objects == [] then t
    else
      var n := |objects| - 1;
      var before := RestoreInOrder(objects[..n], previous, name, o, t);
      if objects[n] == o then Restore(before, name, previous[n]) else before
  }

  /** Restoring in list order leaves each listed object with the value
      captured at its last position; an object not listed keeps its table. */
  lemma {:induction false} RestoreInOrderLastWins(objects: seq<Object>, previous: seq<Option<Value>>, name: string, o: Object, t: Properties)
    requires |objects| <= |previous|
    ensures o in objects ==> RestoreInOrder(objects, previous, name, o, t) == Restore(t, name, previous[LastIndex(objects, o)])
    ensures o !in objects ==> RestoreInOrder(objects, previous, name, o, t) == t
  {
    if objects != [] {
      var n := |objects| - 1;
      assert objects == objects[..n] + [objects[n]];
      RestoreInOrderLastWins(objects[..n], previous, name, o, t);
      if objects[n] == o && o in objects[..n] {
        RestoreTwice(t, name, previous[LastIndex(objects[..n], o)], previous[n]);
      }
    }
  }

  /** ChangeClassName: sets the class name of every listed object and puts
      back the names each had when the command was made. */
  class ChangeClassName {
    const objects: seq<Object>
    const className: string
    const oldClassNames: seq<string>

    ghost predicate Valid()
    {
      |oldClassNames| == |objects|
    }

    constructor (objects: seq<Object>, className: string)
      ensures Valid()
      ensures this.objects == objects && this.className == className
      ensures forall i :: 0 <= i < |objects| ==> oldClassNames[i] == objects[i].className
    {
      var names := CaptureClassNames(objects);
      this.objects := objects;
      this.className := className;
      this.oldClassNames := names;
    }

    method Redo()
      modifies objects`className
      ensures forall o :: o in objects ==> o.className == className
    {
      var i := 0;
      while i < |objects|
        invariant 0 <= i <= |objects|
        invariant forall o :: o in objects[..i] ==> o.className == className
      {
        objects[i].className := className;
        assert objects[..i + 1] == objects[..i] + [objects[i]];
        i := i + 1;
      }
      assert objects[..i] == objects;
    }

    method Undo()
      requires Valid()
      modifies objects`className
      ensures forall o :: o in objects ==> o.className == oldClassNames[LastIndex(objects, o)]
    {
      var i := 0;
      while i < |objects|
        invariant 0 <= i <= |objects|
        invariant forall o :: o in objects ==> o.className == ClassNameInOrder(objects[..i], oldClassNames, o, old(o.className))
      {
        assert objects[..i + 1][..i] == objects[..i];
        objects[i].className := oldClassNames[i];
        i := i + 1;
      }
      assert objects[..i] == objects;
      forall o | o in objects
        ensures o.className == oldClassNames[LastIndex(objects, o)]
      {
        ClassNameInOrderLastWins(objects, oldClassNames, o, old(o.className));
      }
    }
  }

  /** ChangeProperties: replaces the whole property table of one object.
      The command stores only the table to put in place; one swap serves
      both directions, so after each step it holds the table it took out. */
  class ChangeProperties {
    const target: Object
    var newProperties: Properties

    /** `kind` (Map, Layer, Object, ...) only names the command for display. */
    constructor (kind: string, target: Object, newProperties: Properties)
      ensures this.target == target && this.newProperties == newProperties
    {
      this.target := target;
      this.newProperties := newProperties;
    }

    method SwapProperties()
      modifies this`newProperties, target`properties
      ensures target.properties == old(newProperties)
      ensures newProperties == old(target.properties)
    {
      var oldProperties := target.properties;
      target.properties := newProperties;
      newProperties := oldProperties;
    }

    method Redo()
      modifies this`newProperties, target`properties
      ensures target.properties == old(newProperties)
      ensures newProperties == old(target.properties)
    {
      SwapProperties();
    }

    method Undo()
      modifies this`newProperties, target`properties
      ensures target.properties == old(newProperties)
      ensures newProperties == old(target.properties)
    {
      SwapProperties();
    }

    /** A new command on the same object with the same stored table; the two
        share no state of their own (a table is a value). */
    method Clone() returns (c: ChangeProperties)
      ensures fresh(c)
      ensures c.target == target && c.newProperties == newProperties
    {
      c := new ChangeProperties("", target, newProperties);
    }
  }

  /** SetProperty: sets the member at `path` of each listed object, to one
      value for all or to one value per object. The values each object had
      under the top-level property `name` (the path's first segment) are
      captured when the command is made and put back by Undo. */
  class SetProperty {
    const objects: seq<Object>
    const name: string
    const path: Path
    var values: seq<Value>
    const previousValues: seq<Option<Value>>

    ghost predicate Valid()
      reads this
    {
      name == path[0] && |values| == |objects| && |previousValues| == |objects|
    }

    /** Sets the property `name` itself, the one-segment path [name]. */
    constructor Named(objects: seq<Object>, name: string, value: Value)
      ensures Valid()
      ensures this.objects == objects && this.path == [name]
      ensures forall i :: 0 <= i < |objects| ==> values[i] == value
      ensures forall i :: 0 <= i < |objects| ==> previousValues[i] == Lookup(objects[i].properties, name)
    {
      var previous := CaptureValues(objects, name);
      this.objects := objects;
      this.name := name;
      this.path := [name];
      this.values := seq(|objects|, _ => value);
      this.previousValues := previous;
    }

    /** Sets the member at `path` to the same value on every object. */
    constructor AtPath(objects: seq<Object>, path: Path, value: Value)
      ensures Valid()
      ensures this.objects == objects && this.path == path
      ensures forall i :: 0 <= i < |objects| ==> values[i] == value
      ensures forall i :: 0 <= i < |objects| ==> previousValues[i] == Lookup(objects[i].properties, path[0])
    {
      var previous := CaptureValues(objects, path[0]);
      this.objects := objects;
      this.name := path[0];
      this.path := path;
      this.values := seq(|objects|, _ => value);
      this.previousValues := previous;
    }

    /** Sets the member at `path` of the i-th object to the i-th value. */
    constructor PerObject(objects: seq<Object>, path: Path, values: seq<Value>)
      requires |values| == |objects|
      ensures Valid()
      ensures this.objects == objects && this.path == path && this.values == values
      ensures forall i :: 0 <= i < |objects| ==> previousValues[i] == Lookup(objects[i].properties, path[0])
    {
      var previous := CaptureValues(objects, path[0]);
      this.objects := objects;
      this.name := path[0];
      this.path := path;
      this.values := values;
      this.previousValues := previous;
    }

    method Redo()
      requires Valid()
      modifies objects`properties
      ensures forall o :: o in objects ==> o.properties == SetAt(old(o.properties), path, values[LastIndex(objects, o)])
    {
      var i := 0;
      while i < |objects|
        invariant 0 <= i <= |objects|
        invariant forall o :: o in objects ==> o.properties == SetInOrder(objects[..i], values, path, o, old(o.properties))
      {
        assert objects[..i + 1][..i] == objects[..i];
        objects[i].properties := SetAt(objects[i].properties, path, values[i]);
        i := i + 1;
      }
      assert objects[..i] == objects;
      forall o | o in objects
        ensures o.properties == SetAt(old(o.properties), path, values[LastIndex(objects, o)])
      {
        SetInOrderLastWins(objects, values, path, o, old(o.properties));
      }
    }

    method Undo()
      requires Valid()
      modifies objects`properties
      ensures forall o :: o in objects ==> o.properties == Restore(old(o.properties), name, previousValues[LastIndex(objects, o)])
    {
      var i := 0;
      while i < |objects|
        invariant 0 <= i <= |objects|
        invariant forall o :: o in objects ==> o.properties == RestoreInOrder(objects[..i], previousValues, name, o, old(o.properties))
      {
        assert objects[..i + 1][..i] == objects[..i];
        objects[i].properties := Restore(objects[i].properties, name, previousValues[i]);
        i := i + 1;
      }
      assert objects[..i] == objects;
      forall o | o in objects
        ensures o.properties == Restore(old(o.properties), name, previousValues[LastIndex(objects, o)])
      {
        RestoreInOrderLastWins(objects, previousValues, name, o, old(o.properties));
      }
    }

    /** Absorbs the next SetProperty of the same edit: when `other` sets the
        same path on the same objects, this command takes over its values and
        keeps its own captured previous values; otherwise nothing changes. */
    method MergeWith(other: Command) returns (merged: bool)
      requires Valid()
      requires other.SetPropertyCommand? ==> other.setProperty.Valid()
      modifies this`values
      ensures Valid()
      ensures merged ==> Id(other) == CmdSetProperty
      ensures merged <==> other.SetPropertyCommand? && other.setProperty.objects == objects && other.setProperty.path == path
      ensures values == if merged then old(other.setProperty.values) else old(values)
    {
      merged := false;
      if Id(other) == CmdSetProperty {
        var next := other.setProperty;
        if next.objects == objects && next.path == path {
          values := next.values;
          merged := true;
        }
      }
    }
  }

  /** RemoveProperty: removes the property `name` from each listed object,
      putting back on Undo the value each had when the command was made. */
  class RemoveProperty {
    const objects: seq<Object>
    const previousValues: seq<Option<Value>>
    const name: string

    ghost predicate Valid()
    {
      |previousValues| == |objects|
    }

    constructor (objects: seq<Object>, name: string)
      ensures Valid()
      ensures this.objects == objects && this.name == name
      ensures forall i :: 0 <= i < |objects| ==> previousValues[i] == Lookup(objects[i].properties, name)
    {
      var previous := CaptureValues(objects, name);
      this.objects := objects;
      this.previousValues := previous;
      this.name := name;
    }

    method Redo()
      modifies objects`properties
      ensures forall o :: o in objects ==> o.properties == old(o.properties) - {name}
    {
      var i := 0;
      while i < |objects|
        invariant 0 <= i <= |objects|
        invariant forall o :: o in objects[..i] ==> o.properties == old(o.properties) - {name}
        invariant forall o :: o in objects && o !in objects[..i] ==> o.properties == old(o.properties)
      {
        var o := objects[i];
        if o in objects[..i] {
          assert old(o.properties) - {name} - {name} == old(o.properties) - {name};
        }
        o.properties := o.properties - {name};
        assert objects[..i + 1] == objects[..i] + [o];
        i := i + 1;
      }
      assert objects[..i] == objects;
    }

    method Undo()
      requires Valid()
      modifies objects`properties
      ensures forall o :: o in objects ==> o.properties == Restore(old(o.properties), name, previousValues[LastIndex(objects, o)])
    {
      var i := 0;
      while i < |objects|
        invariant 0 <= i <= |objects|
        invariant forall o :: o in objects ==> o.properties == RestoreInOrder(objects[..i], previousValues, name, o, old(o.properties))
      {
        assert objects[..i + 1][..i] == objects[..i];
        objects[i].properties := Restore(objects[i].properties, name, previousValues[i]);
        i := i + 1;
      }
      assert objects[..i] == objects;
      forall o | o in objects
        ensures o.properties == Restore(old(o.properties), name, previousValues[LastIndex(objects, o)])
      {
        RestoreInOrderLastWins(objects, previousValues, name, o, old(o.properties));
      }
    }
  }

  /** The table after a rename's two children have run: the value the
      object had under `oldName` (if any) is set under `newName`, then
      `oldName` is removed. */
  function Renamed(t: Properties, oldName: string, newName: string, held: Option<Value>): (r: Properties)
    ensures oldName !in r
    ensures held.Some? && oldName != newName ==> Lookup(r, newName) == held
    ensures held.None? ==> r == t - {oldName}
    ensures forall k :: k != oldName && k != newName ==> Lookup(r, k) == Lookup(t, k)
  {
    (if held.Some? then SetAt(t, [newName], held.value) else t) - {oldName}
  }

  /** The table after a rename's children have been undone, last first:
      `oldName` gets its held value back, then `newName` gets back what it
      had (only on objects the set child touched). */
  function Unrenamed(t: Properties, oldName: string, newName: string, held: Option<Value>, displaced: Option<Value>): (r: Properties)
    ensures held.Some? ==> Lookup(r, newName) == displaced
    ensures held.Some? && oldName != newName ==> Lookup(r, oldName) == held
    ensures held.None? ==> Lookup(r, oldName) == None && (oldName != newName ==> Lookup(r, newName) == Lookup(t, newName))
    ensures forall k :: k != oldName && k != newName ==> Lookup(r, k) == Lookup(t, k)
  {
    var t1 := Restore(t, oldName, held);
    if held.Some? then Restore(t1, newName, displaced) else t1
  }

  /** Renaming moves the value: afterwards the table has nothing under
      `oldName`, the old value under `newName`, and every other property as
      before; a table without `oldName` is left as it was. */
  lemma RenameMoves(t: Properties, oldName: string, newName: string)
    requires oldName != newName
    ensures var r := Renamed(t, oldName, newName, Lookup(t, oldName));
      && oldName !in r
      && (oldName in t ==> newName in r && r[newName] == t[oldName])
      && (oldName !in t ==> r == t)
      && forall k :: k != oldName && k != newName ==> Lookup(r, k) == Lookup(t, k)
  {
  }

  /** Renaming a property to its own name drops it: the set child writes
      the value back and the remove child then removes the name. */
  lemma RenameToSameNameDrops(t: Properties, name: string)
    ensures Renamed(t, name, name, Lookup(t, name)) == t - {name}
  {
  }

  /** Undoing a rename made from the table it was captured from gives that
      table back exactly, also when `newName` was taken or equals `oldName`. */
  lemma RenameRoundTrip(t: Properties, oldName: string, newName: string)
    ensures Unrenamed(Renamed(t, oldName, newName, Lookup(t, oldName)), oldName, newName,
                      Lookup(t, oldName), Lookup(t, newName)) == t
  {
  }

  /** RenameProperty: a macro of two children, run in order by Redo and in
      reverse by Undo — a SetProperty that puts each holder's value of
      `oldName` under `newName`, then a RemoveProperty of `oldName`. */
  class RenameProperty {
    /** The constructor's arguments, kept for the contracts only: the header
        declares no fields for this command, its children hold all it needs. */
    ghost const objects: seq<Object>
    ghost const oldName: string
    ghost const newName: string
    const setChild: SetProperty
    const removeChild: RemoveProperty
    /** What each object held under `oldName` when the command was made. */
    ghost const held: map<Object, Option<Value>>
    /** What each object held under `newName` when the command was made. */
    ghost const displaced: map<Object, Option<Value>>

    ghost predicate Valid()
      reads this, setChild
    {
      && setChild.Valid() && removeChild.Valid()
      && removeChild.objects == objects && removeChild.name == oldName
      && setChild.path == [newName]
      && (forall o :: o in objects ==> o in held && o in displaced)
      && (forall i :: 0 <= i < |objects| ==> removeChild.previousValues[i] == held[objects[i]])
      && (forall o :: o in setChild.objects ==> o in objects && held[o].Some?)
      && (forall o :: o in objects && held[o].Some? ==> o in setChild.objects)
      && (forall i :: 0 <= i < |setChild.objects| ==>
            && setChild.values[i] == held[setChild.objects[i]].value
            && setChild.previousValues[i] == displaced[setChild.objects[i]])
    }

    constructor (objects: seq<Object>, oldName: string, newName: string)
      ensures Valid()
      ensures this.objects == objects && this.oldName == oldName && this.newName == newName
      ensures forall o :: o in objects ==> held[o] == Lookup(o.properties, oldName) && displaced[o] == Lookup(o.properties, newName)
    {
      var holders, values := Holders(objects, oldName);
      var setChild := new SetProperty.PerObject(holders, [newName], values);
      var removeChild := new RemoveProperty(objects, oldName);
      this.objects := objects;
      this.oldName := oldName;
      this.newName := newName;
      this.setChild := setChild;
      this.removeChild := removeChild;
      this.held := map o | o in objects :: Lookup(o.properties, oldName);
      this.displaced := map o | o in objects :: Lookup(o.properties, newName);
    }

    method Redo()
      requires Valid()
      modifies objects`properties
      ensures forall o :: o in objects ==> o.properties == Renamed(old(o.properties), oldName, newName, held[o])
    {
      setChild.Redo();
      label afterSet:
      removeChild.Redo();
      forall o | o in objects
        ensures o.properties == Renamed(old(o.properties), oldName, newName, held[o])
      {
        if o in setChild.objects {
          var i := LastIndex(setChild.objects, o);
          assert setChild.values[i] == held[o].value;
        }
      }
    }

    method Undo()
      requires Valid()
      modifies objects`properties
      ensures forall o :: o in objects ==> o.properties == Unrenamed(old(o.properties), oldName, newName, held[o], displaced[o])
    {
      removeChild.Undo();
      setChild.Undo();
      forall o | o in objects
        ensures o.properties == Unrenamed(old(o.properties), oldName, newName, held[o], displaced[o])
      {
        var j := LastIndex(objects, o);
        assert removeChild.previousValues[j] == held[o];
        if o in setChild.objects {
          var i := LastIndex(setChild.objects, o);
          assert setChild.previousValues[i] == displaced[o];
        }
      }
    }
  }
}
