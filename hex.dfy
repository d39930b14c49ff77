/** Hexes: a cell of the hexagonal grid (ELHex) with its six neighbour
    slots, its tools keyed by type and the playheads standing on it. */
module Hexes {
  import opened Refs
  import opened Tools

  /** The six edge directions of a hex cell. */
  type Direction = d: int | 0 <= d < 6

  /** The neighbour slots after linking `hex` in direction d. */
  function Connect(slots: seq<Hex?>, hex: Hex?, d: Direction): (r: seq<Hex?>)
    requires |slots| == 6
    ensures |r| == 6 && r[d] == hex
    ensures forall e :: 0 <= e < 6 && e != d ==> r[e] == slots[e]
  {
    slots[d := hex]
  }

  /** Connecting a direction twice keeps only the second link. */
  lemma ReconnectReplaces(slots: seq<Hex?>, a: Hex?, b: Hex?, d: Direction)
    requires |slots| == 6
    ensures Connect(Connect(slots, a, d), b, d) == Connect(slots, b, d)
  {
  }

  /** Connections in two different directions do not disturb each other. */
  lemma ConnectCommutes(slots: seq<Hex?>, a: Hex?, b: Hex?, d: Direction, e: Direction)
    requires |slots| == 6 && d != e
    ensures Connect(Connect(slots, a, d), b, e) == Connect(Connect(slots, b, e), a, d)
  {
  }

  /** The resident list after removeObject: every occurrence of p goes,
      everything else stays in its order. */
  function Without(s: seq<Playhead>, p: Playhead): (r: seq<Playhead>)
    ensures p !in r
    ensures multiset(r) == multiset(s)[p := 0]
  {
    if s == [] then []
    else
      assert s == [s[0]] + s[1..];
      if s[0] == p then Without(s[1..], p) else [s[0]] + Without(s[1..], p)
  }

  /** Removing a playhead that is absent changes nothing. */
  lemma {:induction false} WithoutAbsent(s: seq<Playhead>, p: Playhead)
    requires p !in s
    ensures Without(s, p) == s
  {
    if s != [] {
      WithoutAbsent(s[1..], p);
    }
  }

  /** Removing distributes over concatenation. */
  lemma {:induction false} WithoutAppend(s: seq<Playhead>, t: seq<Playhead>, p: Playhead)
    ensures Without(s + t, p) == Without(s, p) + Without(t, p)
  {
    if s == [] {
      assert s + t == t;
    } else {
      assert (s + t)[1..] == s[1..] + t;
      WithoutAppend(s[1..], t, p);
    }
  }

  /** playheadLeaving: undoes playheadEntering: for a playhead that was not
      already on the cell. */
  lemma LeavingUndoesEntering(s: seq<Playhead>, p: Playhead)
    requires p !in s
    ensures Without(s + [p], p) == s
  {
    WithoutAppend(s, [p], p);
    WithoutAbsent(s, p);
    assert Without([p], p) == [];
  }

  /** ELHex. The note and the layer are references the cell only holds. */
  class Hex {
    const layer: Layer
    const note: Note?
    const column: int
    const row: int
    const neighbours: array<Hex?>
    var tools: map<string, Tool>
    var playheads: seq<Playhead>

    /** Six neighbour slots, and every tool is filed under its own type. */
    ghost predicate Valid()
      reads this
    {
      neighbours.Length == 6 &&
      forall typeName :: typeName in tools ==> tools[typeName].toolType == typeName
    }

    /** initWithLayer:note:column:row: — no neighbours, tools or playheads. */
    constructor (layer: Layer, note: Note?, column: int, row: int)
      ensures Valid() && fresh(neighbours)
      ensures this.layer == layer && this.note == note
      ensures this.column == column && this.row == row
      ensures forall d: Direction :: neighbours[d] == null
      ensures tools == map[] && playheads == []
    {
      this.layer := layer;
      this.note := note;
      this.column := column;
      this.row := row;
      neighbours := new Hex?[6](_ => null);
      tools := map[];
      playheads := [];
    }

    /** neighbour: */
    function Neighbour(d: Direction): Hex?
      requires Valid()
      reads this, neighbours
    {
      neighbours[d]
    }

    /** connectNeighbour:direction: — writes one slot. */
    method ConnectNeighbour(hex: Hex?, d: Direction)
      requires Valid()
      modifies neighbours
      ensures Valid()
      ensures neighbours[..] == Connect(old(neighbours[..]), hex, d)
      ensures Neighbour(d) == hex
      ensures forall e: Direction :: e != d ==> Neighbour(e) == old(Neighbour(e))
    {
      neighbours[d] := hex;
    }

    /** addTool: — files the tool under its type, replacing any tool of that
        type, and tells the tool where it now sits. */
    method AddTool(tool: Tool)
      requires Valid()
      modifies this`tools, tool`layer, tool`hex
      ensures Valid()
      ensures tools == old(tools)[tool.toolType := tool]
      ensures tool.layer == layer && tool.hex == this
    {
      tools := tools[tool.toolType := tool];
      tool.AddedToLayer(layer, this);
    }

    /** removeTool: — detaches the tool of that type, if any, and drops it. */
    method RemoveTool(typeName: string)
      requires Valid()
      modifies this`tools, (if typeName in tools then {tools[typeName]} else {})`layer
      modifies (if typeName in tools then {tools[typeName]} else {})`hex
      ensures Valid()
      ensures tools == old(tools) - {typeName}
      ensures typeName in old(tools) ==> old(tools)[typeName].layer == null && old(tools)[typeName].hex == null
    {
      if typeName in tools {
        tools[typeName].RemovedFromLayer(layer);
        tools := tools - {typeName};
      }
    }

    /** removeAllTools: — detaches and drops every tool. */
    method RemoveAllTools()
      requires Valid()
      modifies this`tools, tools.Values`layer, tools.Values`hex
      ensures Valid() && tools == map[]
      ensures forall t :: t in old(tools).Values ==> t.layer == null && t.hex == null
    {
      var pending := tools.Keys;
      while pending != {}
        invariant Valid() && pending == tools.Keys
        invariant forall k :: k in tools ==> k in old(tools) && tools[k] == old(tools)[k]
        invariant forall k :: k in old(tools) && k !in tools ==>
                    old(tools)[k].layer == null && old(tools)[k].hex == null
        decreases pending
      {
        var typeName :| typeName in pending;
        RemoveTool(typeName);
        pending := pending - {typeName};
      }
      forall t | t in old(tools).Values
        ensures t.layer == null && t.hex == null
      {
        var k :| k in old(tools) && old(tools)[k] == t;
      }
    }

    /** hasToolOfType: — the cell holds a tool of that type. */
    predicate HasToolOfType(typeName: string)
      requires Valid()
      reads this
      ensures HasToolOfType(typeName) <==> exists t :: t in tools.Values && t.toolType == typeName
    {
      typeName in tools
    }

    /** toolOfType: — the tool filed under that type, or null. */
    function ToolOfType(typeName: string): (t: Tool?)
      requires Valid()
      reads this
      ensures t != null <==> HasToolOfType(typeName)
      ensures t != null ==> t.toolType == typeName && t in tools.Values
    {
      if typeName in tools then tools[typeName] else null
    }

    /** The tools filed under the given types, each once, in no fixed order. */
    method ToolsFiledUnder(types: set<string>) returns (r: seq<Tool>)
      requires Valid() && types <= tools.Keys
      ensures |r| == |types|
      ensures forall t :: t in r <==> t in tools.Values && t.toolType in types
      ensures forall i, j :: 0 <= i < j < |r| ==> r[i] != r[j]
    {
      r := [];
      var pending := types;
      while pending != {}
        invariant pending <= types
        invariant |r| + |pending| == |types|
        invariant forall t :: t in r <==> t in tools.Values && t.toolType in types - pending
        invariant forall i, j :: 0 <= i < j < |r| ==> r[i] != r[j]
        decreases pending
      {
        var typeName :| typeName in pending;
        r := r + [tools[typeName]];
        pending := pending - {typeName};
      }
    }

    /** tools: every tool on the cell, each once. */
    method AllTools() returns (r: seq<Tool>)
      requires Valid()
      ensures |r| == |tools|
      ensures forall t :: t in r <==> t in tools.Values
      ensures forall i, j :: 0 <= i < j < |r| ==> r[i] != r[j]
    {
      r := ToolsFiledUnder(tools.Keys);
    }

    /** toolsExceptType: — every tool on the cell whose type is not `type`. */
    method ToolsExceptType(typeName: string) returns (r: seq<Tool>)
      requires Valid()
      ensures forall t :: t in r <==> t in tools.Values && t.toolType != typeName
      ensures forall i, j :: 0 <= i < j < |r| ==> r[i] != r[j]
    {
      r := ToolsFiledUnder(tools.Keys - {typeName});
    }

    /** playheadEntering: — appends the playhead to the residents. */
    method PlayheadEntering(playhead: Playhead)
      modifies this`playheads
      ensures playheads == old(playheads) + [playhead]
    {
      playheads := playheads + [playhead];
    }

    /** playheadLeaving: — removes every occurrence of the playhead. */
    method PlayheadLeaving(playhead: Playhead)
      modifies this`playheads
      ensures playheads == Without(old(playheads), playhead)
      ensures playhead !in playheads
    {
      playheads := Without(playheads, playhead);
    }
  }
}
