# Elysium grid cells, tools and knobs in Dafny

Elysium is a generative music sequencer. Playheads move over a hexagonal grid
of cells, and the tools placed on each cell act when a playhead arrives.
This project models three pieces of its data model, as the Objective-C
headers declare them:

- **ELHex**, a grid cell. It has six neighbour slots, one per direction. It
  keeps a table of tools keyed by tool type and a list of the playheads
  standing on it. Module `Hexes`, file `hex.dfy`, class `Hex`.
- **ELTool**, a unit attached to a cell. It has a fixed type, an enabled
  flag, a preferred order, and back-references to its layer and cell.
  **ELNoteTool** is the tool variant that owns four knobs. The type→tool
  registry (`toolMapping`) is modelled too. Module `Tools`, file
  `tools.dfy`.
- **ELRangedKnob** and **ELFloatKnob**, named scalar parameters. A knob has
  a minimum, a maximum and a stepping, and a float knob also stores a value.
  A knob may be linked to another knob and may carry an oscillator. Module
  `Knobs`, file `knobs.dfy`.

`refs.dfy` (module `Refs`) declares the layer, note and playhead. The model
holds them only as references and compares them by identity.

How the Objective-C shapes are carried over:

- Directions are the subset type `Direction` (0 to 5). A neighbour slot
  therefore cannot be read or written outside the six directions.
- The C array `neighbours[6]` is an `array<Hex?>` of length 6. The
  `NSMutableDictionary` of tools is a `map<string, Tool>` field. The
  `NSMutableArray` of playheads is a `seq<Playhead>` field.
- Class inheritance becomes composition or a variant:
  - An ELFloatKnob is a `FloatKnob` that holds its ELRangedKnob part as the
    object `ranged`.
  - An ELNoteTool is a `Tool` built by the `NoteTool` constructor. Its
    `variant` is `Note(...)`, which carries the four knobs. It has the same
    type, enabled, order and attach/detach state as every other tool.
- The knob's link, enabled flag, link-value flag and oscillator are
  constants. The headers set them only in initialisers, and ELKnob.h, which
  declares them, is not part of this model. A knob can link only to a knob
  that already exists, so link chains cannot form a cycle. `Valid()` and the
  ghost set `Chain` state this, and `ChainWellFounded` proves it.
- Knob values are `real`.

Behaviour the headers do not show, and the choice made here:

- `addTool:` calls the tool's `addedToLayer:atPosition:` with the cell's
  layer and the cell itself.
- `removeTool:` and `removeAllTools` call `removedFromLayer:` on every tool
  they drop. A tool that `addTool:` replaces is not detached.
- `playheadEntering:` appends to the list. `playheadLeaving:` removes every
  occurrence, as `removeObject:` on an `NSMutableArray` does.
- `setValue:` stores the value clamped into `[minimum, maximum]`. The
  initialisers store the given value as it is.
- `dynamicValue:` returns its argument when there is no enabled oscillator.
  Otherwise it adds the oscillator's current output and clamps the sum into
  range. The oscillator's output is a parameter, `sample`, because sampling
  is not modelled.
- `initWithName:linkedToFloatKnob:` reads through to the given knob. It
  copies that knob's range, enabled flag and current value, and has no
  oscillator.
- The note tool registers under the type string `"note"`. The registry
  holds only the tool kind modelled here.

## Model

| member | source | states |
|---|---|---|
| Hexes.Hex.constructor | src/datamodel/ELHex.h:29 | a new cell records its layer, note, column and row; all six neighbour slots are empty; it has no tools and no playheads |
| Hexes.Hex.Neighbour | src/datamodel/ELHex.h:37 | reads the slot of one of the six directions; no other direction can be asked for |
| Hexes.Hex.ConnectNeighbour | src/datamodel/ELHex.h:37-38 | after connecting `hex` in direction d, `Neighbour(d) == hex`; the other five slots are unchanged; the slot array is `Connect` of the old slots |
| Hexes.Connect | src/datamodel/ELHex.h:24 | there are still exactly six slots; slot d holds the new link and every other slot keeps its value |
| Hexes.ReconnectReplaces | src/datamodel/ELHex.h:38 | connecting a direction twice leaves only the second link, because there is one slot per direction and no duplicate |
| Hexes.ConnectCommutes | src/datamodel/ELHex.h:38 | connections in two different directions can be made in either order with the same result |
| Hexes.Hex.AddTool | src/datamodel/ELHex.h:42 | the tool is filed under its own `toolType`, replacing any tool of that type; the other types are untouched; the tool now reports this cell and its layer; every tool stays filed under its own type (`Valid`) |
| Hexes.Hex.RemoveTool | src/datamodel/ELHex.h:43 | afterwards no tool of that type is present; the other types keep their tools; the removed tool reports no layer and no cell, and only those two of its fields change |
| Hexes.Hex.RemoveAllTools | src/datamodel/ELHex.h:44 | afterwards the table is empty, so `HasToolOfType` is false for every type; every tool that was on the cell reports no layer and no cell, and only those two of their fields change |
| Hexes.Hex.HasToolOfType | src/datamodel/ELHex.h:46 | true exactly when one of the cell's tools has the given type |
| Hexes.Hex.ToolOfType | src/datamodel/ELHex.h:46-47 | a tool comes back exactly when `HasToolOfType` holds; that tool is one of the cell's tools, and its `toolType` is the type asked for |
| Hexes.Hex.ToolsFiledUnder | src/datamodel/ELHex.h:48-49 | lists exactly the cell's tools whose type is in the given set, each once, and as many as there are types |
| Hexes.Hex.AllTools | src/datamodel/ELHex.h:48 | lists exactly the cell's tools, each once; its length is the number of tools |
| Hexes.Hex.ToolsExceptType | src/datamodel/ELHex.h:49 | lists exactly the cell's tools whose type differs from the given one, each once |
| Hexes.Hex.PlayheadEntering | src/datamodel/ELHex.h:53 | the playhead is appended to the resident list, and nothing else changes |
| Hexes.Hex.PlayheadLeaving | src/datamodel/ELHex.h:54 | the resident list becomes `Without` the playhead, which is then absent |
| Hexes.Without | src/datamodel/ELHex.h:54 | the playhead does not occur in the result; every other playhead occurs exactly as often as before |
| Hexes.WithoutAbsent | src/datamodel/ELHex.h:54 | removing a playhead that is not present leaves the list unchanged |
| Hexes.WithoutAppend | src/datamodel/ELHex.h:54 | removing a playhead from a concatenation removes it from each part |
| Hexes.LeavingUndoesEntering | src/datamodel/ELHex.h:53-54 | a playhead that enters and then leaves restores the resident list it found, if it was not already there |
| Tools.Tool.constructor | src/tools/ELTool.h:40 | a new tool has the given `toolType`, is not attached to any layer or cell, and is a plain tool |
| Tools.Tool.NoteTool | src/tools/ELNoteTool.h:20-25 | a new note tool holds exactly the four knobs it was given: three integer knobs and one float knob; its type is the note type and it is detached |
| Tools.Tool.SetEnabled | src/tools/ELTool.h:31 | only `enabled` changes, and it takes the given value |
| Tools.Tool.SetPreferredOrder | src/tools/ELTool.h:32 | only `preferredOrder` changes, and it takes the given value |
| Tools.Tool.AddedToLayer | src/tools/ELTool.h:44 | afterwards `layer` and `hex` are the ones given; nothing else changes |
| Tools.Tool.RemovedFromLayer | src/tools/ELTool.h:45 | afterwards the tool reports no layer and no cell; nothing else changes |
| Tools.ToolMapping | src/tools/ELTool.h:37 | every kind in the mapping is filed under the type string it registers under, and the note tool is registered |
| Tools.ToolKindFor | src/tools/ELTool.h:37 | a lookup succeeds exactly when the type is in `toolMapping`; the kind found registers under that same type; otherwise the result is a "no such tool type" error for that type |
| Tools.RegistryRoundTrip | src/tools/ELTool.h:37 | every tool kind is found again by looking up the type it registers under |
| Knobs.RangedKnob.Init | src/knobs/ELRangedKnob.h:20-27 | the knob records the given name, range, stepping, linked knob, enabled flag, link-value flag and oscillator |
| Knobs.RangedKnob.constructor | src/knobs/ELRangedKnob.h:29 | the knob records the given name, minimum, maximum and stepping, with no link and no oscillator |
| Knobs.RangedKnob.SetMinimum | src/knobs/ELRangedKnob.h:31 | only `minimum` changes |
| Knobs.RangedKnob.SetMaximum | src/knobs/ELRangedKnob.h:32 | only `maximum` changes |
| Knobs.RangedKnob.SetStepping | src/knobs/ELRangedKnob.h:33 | only `stepping` changes |
| Knobs.RangedKnob.SetRange | src/knobs/ELRangedKnob.h:35 | minimum, maximum and stepping take the three given values in one step; nothing else changes |
| Knobs.FloatKnob.Init | src/knobs/ELFloatKnob.h:19-27 | the knob reports exactly the given value, range, link, flags and oscillator, and its link chain is well formed |
| Knobs.FloatKnob.constructor | src/knobs/ELFloatKnob.h:29 | the knob reports exactly the given value, minimum, maximum and stepping; it is unlinked, so `Value()` is that value |
| Knobs.FloatKnob.LinkedTo | src/knobs/ELFloatKnob.h:30 | the knob is linked to the given knob with link-value on, so its `Value()` equals that knob's value; it copies that knob's range, enabled flag and current value, and has no oscillator |
| Knobs.FloatKnob.Value | src/knobs/ELFloatKnob.h:32 | the value read is the stored value of this knob or of a knob on its link chain |
| Knobs.FloatKnob.SetValue | src/knobs/ELFloatKnob.h:33 | only the stored value changes; it becomes the given value clamped into `[minimum, maximum]`; on a knob that does not read through, `Value()` then returns it |
| Knobs.Clamp | src/knobs/ELFloatKnob.h:33 | for a non-empty range the result lies in `[minimum, maximum]`; the value is kept exactly when it already lies in the range; a value below the range becomes `minimum`, and a value above it becomes `maximum` |
| Knobs.FloatKnob.DynamicValueOf | src/knobs/ELFloatKnob.h:36 | with no enabled oscillator the argument comes back unchanged; with one, the result lies in the knob's range |
| Knobs.FloatKnob.DynamicValue | src/knobs/ELFloatKnob.h:35 | with no oscillator the dynamic value is the knob's value |
| Knobs.LinkedReadsThrough | src/knobs/ELFloatKnob.h:30-32 | a knob that reads through its link reports the linked knob's value in every state, so it sees any change made to that knob |
| Knobs.ChainWellFounded | src/knobs/ELRangedKnob.h:24 | every knob on a link chain is well formed and has a strictly shorter chain, so no knob is on its own chain and reading a value ends |

## Left out

- Drawing (`drawTriangleInDirection:withAttributes:`, `drawText:`, `drawWithAttributes:`): presentation only.
- Persistence (`fromXMLData:`, `saveToolConfig:`, `loadToolConfig:`) and key-value observation (`observableValues`): both belong to collaborators whose code is not part of this model.
- `run:` and the tick engine: their effects are not declared in the headers, so they are not modelled.
- Mutual linking of neighbours (setting the opposite slot of the other cell): `connectNeighbour:direction:` is modelled as the single slot write its header declares.
- The rule that a cell never links to itself: the header neither declares nor enforces it, so the model does not either.
- ELKnob's own setters for the link, enabled flag, link-value flag and oscillator: ELKnob.h is not part of this model. These attributes are constants set by the initialisers.
- Knobs.FloatKnob.Init: stores the given value as it is, so a knob built with a value outside `[minimum, maximum]` holds it out of range until the next `setValue:`.
- Knobs.FloatKnob.constructor: stores the given value as it is, so the stored value can lie outside `[minimum, maximum]`, as for `Init`.
- Knobs.RangedKnob.SetMinimum: does not re-clamp the float knob's stored value, which can then lie below the new minimum.
- Knobs.RangedKnob.SetMaximum: does not re-clamp the float knob's stored value, which can then lie above the new maximum.
- The link is typed `FloatKnob?`, while the headers type it as any `ELKnob`. Links to integer knobs or other knob classes are therefore not modelled.
- ELIntegerKnob and the oscillator's waveform: the integer knob is only a reference. The oscillator's output reaches `dynamicValue:` as a parameter.
- Knobs.FloatKnob.SetValue: does not round the value to a multiple of `stepping`. The headers do not show the rounding, and IEEE float rounding is not modelled.
- Knobs.RangedKnob.SetRange: does not re-clamp a stored value. ELRangedKnob has no value field, and ELFloatKnob does not override the setter in its header.
- Tools.Tool.constructor: leaves the starting `enabled` and `preferredOrder` unspecified. The header does not give them.
- Knobs.RangedKnob.constructor: leaves the starting `enabled` and `linkValue` unspecified. The header does not give them.
- Tools.Tool.SetPreferredOrder: uses an unbounded integer for the C `int` field. The model does no arithmetic on it, so wrap-around cannot arise.
- Tool back-references are not required to agree with the cell that holds the tool. A tool can be added to a second cell without being removed from the first.
- The `LMHexCell` superclass (column and row) is kept only as two constants.
- The CoreMIDI output, the window controllers and the scripting bridge are not part of this model.
