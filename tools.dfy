/** Tools: units of behaviour attached to a cell (ELTool), the note tool
    (ELNoteTool) as one variant of them, and the registry from type strings
    to tool kinds (toolMapping). */
module Tools {
  import opened Refs
  import Knobs

  /** The type string under which the note tool registers. */
  const NoteToolType: string := "note"

  /** What a tool is beyond its ELTool state: a plain tool made by
      initWithType:, or a note tool with its four knobs. */
  datatype Variant =
    | Generic
    | Note(velocityKnob: Knobs.IntegerKnob, emphasisKnob: Knobs.IntegerKnob,
           durationKnob: Knobs.FloatKnob, triadKnob: Knobs.IntegerKnob)

  /** ELTool. `hex` is the ELHex the tool is placed on, held as an object
      because the cell's module builds on this one. */
  class Tool {
    var enabled: bool
    const toolType: string
    var layer: Layer?
    var hex: object?
    var preferredOrder: int
    const variant: Variant

    /** initWithType: — a detached tool of the given type. The header does
        not say how enabled and preferredOrder start, so neither is fixed. */
    constructor (typeName: string)
      ensures toolType == typeName && variant == Generic
      ensures layer == null && hex == null
    {
      toolType := typeName;
      variant := Generic;
      layer := null;
      hex := null;
    }

    /** ELNoteTool's initWithVelocityKnob:emphasisKnob:durationKnob:triadKnob:
        — a detached note tool holding exactly the four given knobs. */
    constructor NoteTool(velocityKnob: Knobs.IntegerKnob, emphasisKnob: Knobs.IntegerKnob,
                         durationKnob: Knobs.FloatKnob, triadKnob: Knobs.IntegerKnob)
      ensures toolType == NoteToolType
      ensures variant == Note(velocityKnob, emphasisKnob, durationKnob, triadKnob)
      ensures layer == null && hex == null
    {
      toolType := NoteToolType;
      variant := Note(velocityKnob, emphasisKnob, durationKnob, triadKnob);
      layer := null;
      hex := null;
    }

    method SetEnabled(enabled: bool)
      modifies this`enabled
      ensures this.enabled == enabled
    {
      this.enabled := enabled;
    }

    method SetPreferredOrder(order: int)
      modifies this`preferredOrder
      ensures preferredOrder == order
    {
      preferredOrder := order;
    }

    /** addedToLayer:atPosition: — records the owning layer and cell. */
    method AddedToLayer(layer: Layer, hex: object)
      modifies this`layer, this`hex
      ensures this.layer == layer && this.hex == hex
    {
      this.layer := layer;
      this.hex := hex;
    }

    /** removedFromLayer: — forgets the layer and the cell. */
    method RemovedFromLayer(layer: Layer)
      modifies this`layer, this`hex
      ensures this.layer == null && this.hex == null
    {
      this.layer := null;
      this.hex := null;
    }
  }

  /** The tool classes the registry can name. */
  datatype ToolKind = NoteKind

  /** The type string each kind of tool registers under. */
  function KindType(kind: ToolKind): string {
    match kind
    case NoteKind => NoteToolType
  }

  /** toolMapping: type string to tool kind. Each kind is filed under the
      type string it registers under, and the note tool is registered. */
  function ToolMapping(): (m: map<string, ToolKind>)
    ensures forall typeName :: typeName in m ==> KindType(m[typeName]) == typeName
    ensures NoteToolType in m
  {
    map[NoteToolType := NoteKind]
  }

  datatype LookupError = NoSuchToolType(typeName: string)

  datatype Result<T> = Ok(value: T) | Err(error: LookupError)

  /** Looks a type string up in toolMapping; an unknown type is an error,
      never a tool. */
  function ToolKindFor(typeName: string): (r: Result<ToolKind>)
    ensures r.Ok? <==> typeName in ToolMapping()
    ensures r.Ok? ==> KindType(r.value) == typeName
    ensures r.Err? ==> r.error == NoSuchToolType(typeName)
  {
    if typeName in ToolMapping() then Ok(ToolMapping()[typeName]) else Err(NoSuchToolType(typeName))
  }

  /** Every kind is registered under the type string it reports, so a lookup
      by a kind's type finds that kind. */
  lemma RegistryRoundTrip(kind: ToolKind)
    ensures ToolKindFor(KindType(kind)) == Ok(kind)
  {
  }
}
