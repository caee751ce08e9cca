# Tiled property commands, modelled in Dafny

Tiled is a tile-map editor. Every map, layer, tile and map object is an
`Object` that has a class name and a table of custom properties. A property
value may be class-typed, with named members of its own, so a path of names
(`["offset", "x"]`) can address a member nested inside a property. Edits
to these tables go through undo commands (src/tiled/changeproperties.h).
An undo stack runs `redo()` when a command is pushed, and later runs
`undo()` and `redo()` when the user steps back and forth. Each command holds
references to the objects it edits, never owns them, and keeps enough
state to revert itself:

- `ChangeClassName` sets the class name of a list of objects.
- `ChangeProperties` replaces one object's whole property table. It swaps
  the table with the one it stores.
- `SetProperty` sets a property, or a member at a path, on a list of
  objects. It sets one value on all of them, or one value per object. It
  merges with the next `SetProperty` of the same edit.
- `RemoveProperty` removes a property from a list of objects.
- `RenameProperty` is a macro command whose work is done by two child
  commands.

The model has four modules:

- `PropertyStore` (property_store.dfy): the values, the table, and reading
  and writing at a path, with lemmas about them.
- `Objects` (objects.dfy): the `Object` class.
- `PropertyCommands` (property_commands.dfy): one Dafny class per command.
  `ChangeProperties`, `SetProperty` and `RemoveProperty` have the fields
  the header declares for them. `ChangeClassName` has the fields of its
  `ChangeValue` base (the objects, the new class name and the old class
  names), which that base would hold. `RenameProperty` declares no fields
  in the header; its class holds its two children, plus ghost fields for
  its arguments and the values it captured, which the contracts use.
  `Redo` and `Undo` of `ChangeClassName`, `SetProperty` and
  `RemoveProperty` are loops over the object list. Those of
  `ChangeProperties` are a single swap of two tables, and those of
  `RenameProperty` run its children. Each updates the objects' fields in
  place, with a `modifies` frame that names only the field the command
  writes.
- `UndoRedo` (undo_redo.dfy): methods that run commands the way the undo
  stack does. They state the round trips, the merge and the clone
  independence. Three concrete scenarios are checked there as well.

Assumptions behind the model. The header declares the bodies but does not
give them, so the following behaviour is assumed:

- A command captures the values it will restore when it is constructed.
  These are `mPreviousValues`, and the old class names of the `ChangeValue`
  base.
- `SetProperty` keeps both `mName` and `mPath`. The model takes `mName` to
  be the path's first segment. It captures and restores that whole
  top-level property. A property that was absent is removed again on undo.
- The two single-value constructors of `SetProperty` store their value once
  per object. So `|values| == |objects|` always holds, which is what
  "one for each object" asks of the third constructor.
- A path whose intermediate member is missing, or is not class-typed, gets
  a class-typed value that holds just the path.
- `mergeWith` succeeds exactly when the other command's id is
  `Cmd_SetProperty` and it has the same object list and the same path. It
  then takes over the other command's values and keeps its own previous
  values.
- `RenameProperty` has a `SetProperty` child and then a `RemoveProperty`
  child. The `SetProperty` child writes each holder's value of the old name
  under the new name. The `RemoveProperty` child removes the old name. Redo
  runs the children in that order; undo runs them in reverse. An existing
  property under the new name is overwritten, and undo puts it back. With
  this order, renaming a property to its own name removes it
  (`RenameToSameNameDrops`).
- `RemoveProperty` on an object that lacks the name leaves its table as it
  is. The value captured for it is None, so undo removes the name again and
  the object still lacks it.
- An object may appear twice in a command's list. Then the later position
  wins (`LastIndex`).

## Model

| member | source | states |
|---|---|---|
| `Objects.Object.constructor` | src/tiled/changeproperties.h:51-52 | A new object has the class name and the property table it is given. These are the two fields the commands read and write; object.h, which declares the rest of `Object`, is not part of this model. |
| `PropertyCommands.Id` | src/tiled/changeproperties.h:45 | A command's id is Cmd_ChangeClassName exactly when the command is a ChangeClassName, and Cmd_SetProperty exactly when it is a SetProperty (line 136). |
| `PropertyCommands.ChangeClassName.constructor` | src/tiled/changeproperties.h:37-43 | The command keeps the objects and the new class name, and each object's class name at construction. |
| `PropertyCommands.ChangeClassName.Redo` | src/tiled/changeproperties.h:48 | Every listed object then has the given class name; nothing else is written. |
| `PropertyCommands.ChangeClassName.Undo` | src/tiled/changeproperties.h:47 | Every listed object gets back the class name captured for it; its property table is untouched. |
| `PropertyCommands.CaptureClassNames` | src/tiled/changeproperties.h:51 | Reading the class name of every object gives one name per object, in list order. |
| `PropertyCommands.ClassNameInOrderLastWins` | src/tiled/changeproperties.h:47 | Writing names in list order leaves each object with the name of its last position, and objects not listed keep theirs. |
| `UndoRedo.ChangeClassNameRoundTrip` | src/tiled/changeproperties.h:37-52 | Redo then undo gives every object its class name back. |
| `PropertyCommands.ChangeProperties.constructor` | src/tiled/changeproperties.h:61-73 | The command keeps the object and the table to apply. |
| `PropertyCommands.ChangeProperties.SwapProperties` | src/tiled/changeproperties.h:81-85 | The object's table and the stored table trade places. |
| `PropertyCommands.ChangeProperties.Redo` | src/tiled/changeproperties.h:76 | The object then holds the stored table, the one passed at construction on the first redo, and the command keeps the table it replaced. |
| `PropertyCommands.ChangeProperties.Undo` | src/tiled/changeproperties.h:75 | The same swap as redo: the table taken out by redo goes back. |
| `PropertyCommands.ChangeProperties.Clone` | src/tiled/changeproperties.h:78 | A fresh command on the same object with the same stored table. |
| `UndoRedo.ChangePropertiesRoundTrip` | src/tiled/changeproperties.h:75-81 | Redo then undo restores the object's table and the command's stored table: swapping twice is the identity. |
| `UndoRedo.RunClone` | src/tiled/changeproperties.h:78 | Running the clone puts the stored table on the object while the original command's stored table stays as it was. |
| `PropertyStore.SetAt` | src/tiled/changeproperties.h:105-117 | Setting a member at a path touches only the path's top-level property, which is then present. |
| `PropertyStore.GetAt` | src/tiled/changeproperties.h:105-117 | A path is found only when its top-level property is present, and a one-segment path reads that property itself. |
| `PropertyStore.GetAfterSet` | src/tiled/changeproperties.h:105-117 | Reading a path right after setting it yields the value set. |
| `PropertyStore.GetAtElsewhere` | src/tiled/changeproperties.h:105-117 | Setting one path leaves every path that parts ways with it unchanged. |
| `PropertyStore.SetAtOverwrites` | src/tiled/changeproperties.h:136-138 | Setting a path twice equals setting it once to the later value, so merged edits leave no trace of the earlier value. |
| `PropertyStore.Restore` | src/tiled/changeproperties.h:133 | Putting back a captured top-level value sets it again or removes it, and leaves every other key alone. |
| `PropertyStore.RestoreAfterSet` | src/tiled/changeproperties.h:133-146 | Restoring the captured top-level property undoes any set below it exactly. |
| `PropertyStore.RestoreTwice` | src/tiled/changeproperties.h:133 | Restoring a key twice equals restoring it once to the later value. |
| `PropertyCommands.CaptureValues` | src/tiled/changeproperties.h:146 | Reading each object's top-level property gives one optional value per object (None where absent), in list order. |
| `PropertyCommands.SetProperty.Named` | src/tiled/changeproperties.h:91-103 | A bare name is the one-segment path [name]. Every object gets the one value, and each object's current value of the name is captured. |
| `PropertyCommands.SetProperty.AtPath` | src/tiled/changeproperties.h:105-117 | Every object gets the one value at the path, and each object's current top-level value is captured. |
| `PropertyCommands.SetProperty.PerObject` | src/tiled/changeproperties.h:119-131 | Given exactly one value per object, object i gets values[i], and each object's current top-level value is captured. |
| `PropertyCommands.SetProperty.Redo` | src/tiled/changeproperties.h:134 | Each listed object's table becomes its old table with its value set at the path; other objects and other keys are unchanged. |
| `PropertyCommands.SetInOrderLastWins` | src/tiled/changeproperties.h:134 | Writing in list order leaves each listed object with the value of its last position, and objects not listed keep their tables. |
| `UndoRedo.SetPropertyRedoReads` | src/tiled/changeproperties.h:91-131 | After redo every listed object reads its value at the path. |
| `PropertyCommands.SetProperty.Undo` | src/tiled/changeproperties.h:133 | Each listed object gets its captured top-level value back (or loses the key if it had none); other keys and objects are unchanged. |
| `PropertyCommands.RestoreInOrderLastWins` | src/tiled/changeproperties.h:133 | Restoring in list order leaves each listed object with the value captured at its last position. |
| `UndoRedo.SetPropertyRoundTrip` | src/tiled/changeproperties.h:133-146 | Redo then undo gives every object its whole property table back. |
| `PropertyCommands.SetProperty.MergeWith` | src/tiled/changeproperties.h:136-138 | Merges only with a command whose id is Cmd_SetProperty that has the same objects and path. It then takes that command's values and keeps its own previous values. Otherwise nothing changes. |
| `UndoRedo.MergeThenUndo` | src/tiled/changeproperties.h:133-146 | Two edits run and merged; undoing the merged command restores the tables from before the first edit. |
| `UndoRedo.MergeThenUndoRedo` | src/tiled/changeproperties.h:133-146 | After a merge, undo then redo goes straight from the original tables to the later edit's values. |
| `UndoRedo.MergeRejected` | src/tiled/changeproperties.h:136-138 | A command on other objects or another path, or of another kind, is not merged and the values stay. |
| `PropertyCommands.RemoveProperty.constructor` | src/tiled/changeproperties.h:152-162 | The command keeps the objects and the name, and captures each object's current value of the name. |
| `PropertyCommands.RemoveProperty.Redo` | src/tiled/changeproperties.h:165 | No listed object has the name afterwards; every other key is unchanged. |
| `PropertyCommands.RemoveProperty.Undo` | src/tiled/changeproperties.h:164 | Each listed object gets its captured value back under the name, or stays without the name if it had none; other keys are unchanged. |
| `UndoRedo.RemovePropertyRoundTrip` | src/tiled/changeproperties.h:152-171 | Redo then undo gives every object its table back. |
| `PropertyCommands.Holders` | src/tiled/changeproperties.h:177-188 | The holders are exactly `HoldersOf`: the listed objects that have the old name, in list order and as often as they are listed. Each comes with the value it holds there. |
| `PropertyCommands.RenameProperty.constructor` | src/tiled/changeproperties.h:177-188 | Builds the two children, a SetProperty then a RemoveProperty. It records what each object held under the old and the new name. |
| `PropertyCommands.RenameProperty.Redo` | src/tiled/changeproperties.h:174-189 | Runs the children in order. Each table gets the held value under the new name, and the old name is removed. |
| `PropertyCommands.RenameProperty.Undo` | src/tiled/changeproperties.h:174-189 | Runs the children in reverse. The old name gets its value back and the new name gets back what it held. |
| `PropertyCommands.Renamed` | src/tiled/changeproperties.h:177-188 | The table after both children ran: the old name is gone, the held value is under the new name when the names differ, and every other key is unchanged. A table without the old name only loses that name. |
| `PropertyCommands.Unrenamed` | src/tiled/changeproperties.h:174-189 | The table after both children were undone: the new name gets back what it displaced, the old name gets back what it held, and every other key is unchanged. Without a held value the old name stays absent. |
| `PropertyCommands.RenameMoves` | src/tiled/changeproperties.h:177-188 | For distinct names the value moves from the old name to the new one and every other key is unchanged. A table without the old name is left alone. |
| `PropertyCommands.RenameToSameNameDrops` | src/tiled/changeproperties.h:177-188 | Under the set-then-remove order, renaming a property to its own name removes it. |
| `PropertyCommands.RenameRoundTrip` | src/tiled/changeproperties.h:174-189 | Undoing a rename restores the table exactly. This includes a value that was overwritten under the new name. |
| `UndoRedo.RenamePropertyMoves` | src/tiled/changeproperties.h:177-188 | Redo of the command moves each object's value from the old name to the new one. |
| `UndoRedo.RenamePropertyRoundTrip` | src/tiled/changeproperties.h:174-189 | Redo then undo of the command gives every object its table back. |
| `Objects.LastIndex` | src/tiled/changeproperties.h:142 | The last position of an object in a command's list, where the write that holds afterwards happens. |

## Left out

- `Document`, the change notifications (`emitChangeEvent` and the document's property signals) and the command's display text are not modelled. They only tell the user interface to refresh.
- `mergeWith`'s check that both commands belong to the same document is not modelled, because the document is not modelled.
- The `QUndoStack` machinery, the `parent` ownership of commands and `clone`'s `parent` argument are not modelled. The `UndoRedo` methods play the stack's part, and `RenameProperty` runs its two children itself.
- The `kind` argument of `ChangeProperties` is accepted and ignored. It only names the command for display and is not stored.
- Values stand in for QVariant with booleans, integers, text and class-typed composites. Floats, colours, file and object references are not modelled.
- The id numbers of `Cmd_ChangeClassName` and `Cmd_SetProperty` are not modelled. undocommands.h is not part of this model, so the ids are a small datatype.
- Merging of `ChangeClassName` commands is not modelled. Its id is `Cmd_ChangeClassName`, but any merge rule for it would live in changevalue.h, and no command in the model compares against that id.
- changevalue.h, object.h and the .cpp bodies are not part of this model. The behaviour they would fix is the list of assumptions above.
- Null object pointers are not modelled. Each command's objects are non-null references.
