/** The commands run the way an undo stack runs them: pushed (Redo), undone,
    redone, and a new SetProperty merged into the one on top. Each method
    states what the sequence of steps leaves behind. */
module UndoRedo {
  import opened PropertyStore
  import opened Objects
  import opened PropertyCommands

  /** Redo then Undo of ChangeClassName gives each object its class name
      back, as long as the names captured are still the current ones. */
  method ChangeClassNameRoundTrip(cmd: ChangeClassName)
    requires cmd.Valid()
    requires forall i :: 0 <= i < |cmd.objects| ==> cmd.oldClassNames[i] == cmd.objects[i].className
    modifies cmd.objects`className
    ensures forall o :: o in cmd.objects ==> o.className == old(o.className)
  {
    cmd.Redo();
    cmd.Undo();
  }

  /** Redo then Undo of ChangeProperties gives the object its table back and
      leaves the command holding the table it was made with: one swap
      undoes the other. */
  method ChangePropertiesRoundTrip(cmd: ChangeProperties)
    modifies cmd`newProperties, cmd.target`properties
    ensures cmd.target.properties == old(cmd.target.properties)
    ensures cmd.newProperties == old(cmd.newProperties)
  {
    cmd.Redo();
    cmd.Undo();
  }

  /** Running a clone applies the same table to the same object, and the
      original command keeps its own stored table. */
  method RunClone(cmd: ChangeProperties) returns (copy: ChangeProperties)
    modifies cmd.target`properties
    ensures fresh(copy) && copy.target == cmd.target
    ensures cmd.target.properties == old(cmd.newProperties)
    ensures copy.newProperties == old(cmd.target.properties)
    ensures cmd.newProperties == old(cmd.newProperties)
  {
    copy := cmd.Clone();
    copy.Redo();
  }

  /** After SetProperty's Redo every listed object reads its value at the
      path (for the single-value constructors, the one value). */
  method SetPropertyRedoReads(cmd: SetProperty)
    requires cmd.Valid()
    modifies cmd.objects`properties
    ensures forall o :: o in cmd.objects ==> GetAt(o.properties, cmd.path) == Some(cmd.values[LastIndex(cmd.objects, o)])
  {
    cmd.Redo();
    forall o | o in cmd.objects
      ensures GetAt(o.properties, cmd.path) == Some(cmd.values[LastIndex(cmd.objects, o)])
    {
      GetAfterSet(old(o.properties), cmd.path, cmd.values[LastIndex(cmd.objects, o)]);
    }
  }

  /** The previous values captured by a SetProperty are those of the
      objects' current tables. */
  ghost predicate CapturedNow(cmd: SetProperty)
    reads cmd.objects
  {
    |cmd.previousValues| == |cmd.objects| &&
    forall i :: 0 <= i < |cmd.objects| ==> cmd.previousValues[i] == Lookup(cmd.objects[i].properties, cmd.name)
  }

  /** Redo then Undo of SetProperty gives every object its whole table back. */
  method SetPropertyRoundTrip(cmd: SetProperty)
    requires cmd.Valid() && CapturedNow(cmd)
    modifies cmd.objects`properties
    ensures forall o :: o in cmd.objects ==> o.properties == old(o.properties)
  {
    cmd.Redo();
    cmd.Undo();
    forall o | o in cmd.objects
      ensures o.properties == old(o.properties)
    {
      RestoreAfterSet(old(o.properties), cmd.path, cmd.values[LastIndex(cmd.objects, o)]);
    }
  }

  /** A second SetProperty on the same objects and path is pushed (run) and
      merged into the first; undoing the merged command then gives every
      object the table it had before the first command ran. */
  method MergeThenUndo(first: SetProperty, second: SetProperty) returns (merged: bool)
    requires first.Valid() && second.Valid() && CapturedNow(first)
    requires second.objects == first.objects && second.path == first.path
    modifies first.objects`properties, first`values
    ensures merged && first.values == old(second.values)
    ensures forall o :: o in first.objects ==> o.properties == old(o.properties)
  {
    first.Redo();
    second.Redo();
    merged := first.MergeWith(SetPropertyCommand(second));
    first.Undo();
    forall o | o in first.objects
      ensures o.properties == old(o.properties)
    {
      var i := LastIndex(first.objects, o);
      RestoreAfterSet(old(o.properties), first.path, second.values[i]);
      SetAtOverwrites(old(o.properties), first.path, old(first.values)[i], second.values[i]);
    }
  }

  /** After a merge, undoing and redoing the merged command goes straight
      from the original tables to the second command's values: the first
      command's values are no longer observable. */
  method MergeThenUndoRedo(first: SetProperty, second: SetProperty) returns (merged: bool)
    requires first.Valid() && second.Valid() && CapturedNow(first)
    requires second.objects == first.objects && second.path == first.path
    modifies first.objects`properties, first`values
    ensures merged
    ensures forall o :: o in first.objects ==>
      o.properties == SetAt(old(o.properties), first.path, old(second.values)[LastIndex(first.objects, o)])
  {
    merged := MergeThenUndo(first, second);
    first.Redo();
  }

  /** A SetProperty that targets other objects or another path is not
      merged, and the command on top keeps its values. */
  method MergeRejected(first: SetProperty, other: Command) returns (merged: bool)
    requires first.Valid()
    requires other.SetPropertyCommand? ==> other.setProperty.Valid()
    requires other.SetPropertyCommand? ==> other.setProperty.objects != first.objects || other.setProperty.path != first.path
    modifies first`values
    ensures !merged && first.values == old(first.values)
  {
    merged := first.MergeWith(other);
  }

  /** Redo then Undo of RemoveProperty gives every object its table back. */
  method RemovePropertyRoundTrip(cmd: RemoveProperty)
    requires cmd.Valid()
    requires forall i :: 0 <= i < |cmd.objects| ==> cmd.previousValues[i] == Lookup(cmd.objects[i].properties, cmd.name)
    modifies cmd.objects`properties
    ensures forall o :: o in cmd.objects ==> o.properties == old(o.properties)
  {
    cmd.Redo();
    cmd.Undo();
    forall o | o in cmd.objects
      ensures o.properties == old(o.properties)
    {
      var i := LastIndex(cmd.objects, o);
      assert cmd.previousValues[i] == Lookup(old(o.properties), cmd.name);
    }
  }

  /** The values a RenameProperty captured are those of the current tables. */
  ghost predicate RenameCapturedNow(cmd: RenameProperty)
    reads cmd.objects
  {
    forall o :: o in cmd.objects ==>
      o in cmd.held && o in cmd.displaced &&
      cmd.held[o] == Lookup(o.properties, cmd.oldName) && cmd.displaced[o] == Lookup(o.properties, cmd.newName)
  }

  /** Redo of RenameProperty moves each object's value from the old name to
      the new one and leaves every other property alone. */
  method RenamePropertyMoves(cmd: RenameProperty)
    requires cmd.Valid() && RenameCapturedNow(cmd)
    requires cmd.oldName != cmd.newName
    modifies cmd.objects`properties
    ensures forall o :: o in cmd.objects ==>
      && cmd.oldName !in o.properties
      && (cmd.oldName in old(o.properties) ==> Lookup(o.properties, cmd.newName) == Some(old(o.properties)[cmd.oldName]))
      && (cmd.oldName !in old(o.properties) ==> o.properties == old(o.properties))
      && forall k :: k != cmd.oldName && k != cmd.newName ==> Lookup(o.properties, k) == Lookup(old(o.properties), k)
  {
    cmd.Redo();
    forall o | o in cmd.objects
      ensures && cmd.oldName !in o.properties
              && (cmd.oldName in old(o.properties) ==> Lookup(o.properties, cmd.newName) == Some(old(o.properties)[cmd.oldName]))
              && (cmd.oldName !in old(o.properties) ==> o.properties == old(o.properties))
              && forall k :: k != cmd.oldName && k != cmd.newName ==> Lookup(o.properties, k) == Lookup(old(o.properties), k)
    {
      RenameMoves(old(o.properties), cmd.oldName, cmd.newName);
    }
  }

  /** Redo then Undo of RenameProperty gives every object its table back,
      including a value that was overwritten under the new name. */
  method RenamePropertyRoundTrip(cmd: RenameProperty)
    requires cmd.Valid() && RenameCapturedNow(cmd)
    modifies cmd.objects`properties
    ensures forall o :: o in cmd.objects ==> o.properties == old(o.properties)
  {
    cmd.Redo();
    cmd.Undo();
    forall o | o in cmd.objects
      ensures o.properties == old(o.properties)
    {
      RenameRoundTrip(old(o.properties), cmd.oldName, cmd.newName);
    }
  }

  /** Two objects with offset.x = 1; setting the path to 5 on both, then
      undoing. */
  method OffsetScenario()
  {
    var offset := Composite(map["x" := Int(1)]);
    var initial := map["offset" := offset];
    var path: Path := ["offset", "x"];
    assert path[1..] == ["x"] && MemberAt(offset, ["x"]) == MemberAt(Int(1), []);
    assert GetAt(initial, path) == Some(Int(1));
    var a := new Object("", initial);
    var b := new Object("", initial);
    var cmd := new SetProperty.AtPath([a, b], path, Int(5));
    assert cmd.values[0] == cmd.values[1] == Int(5);
    assert cmd.previousValues[0] == cmd.previousValues[1] == Some(offset);
    cmd.Redo();
    assert LastIndex([a, b], a) == 0 && LastIndex([a, b], b) == 1;
    GetAfterSet(initial, path, Int(5));
    assert GetAt(a.properties, path) == GetAt(b.properties, path) == Some(Int(5));
    cmd.Undo();
    RestoreAfterSet(initial, path, Int(5));
    assert a.properties == b.properties == initial;
  }

  /** Removing color = "red" from one object, then undoing. */
  method RemoveColorScenario()
  {
    var a := new Object("", map["color" := Text("red")]);
    var cmd := new RemoveProperty([a], "color");
    cmd.Redo();
    assert "color" !in a.properties;
    cmd.Undo();
    assert LastIndex([a], a) == 0;
    assert a.properties == map["color" := Text("red")];
  }

  /** Renaming "old" (= 7) to "new" on one object, then undoing. */
  method RenameScenario()
  {
    var a := new Object("", map["old" := Int(7)]);
    var cmd := new RenameProperty([a], "old", "new");
    ghost var before := a.properties;
    assert cmd.held[a] == Some(Int(7)) && cmd.displaced[a] == None;
    cmd.Redo();
    RenameMoves(before, "old", "new");
    assert Lookup(a.properties, "new") == Some(Int(7)) && "old" !in a.properties;
    cmd.Undo();
    RenameRoundTrip(before, "old", "new");
    assert a.properties == map["old" := Int(7)];
  }
}
