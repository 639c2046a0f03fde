/**
 * WorkflowBuilderPlugin: a kernel plugin that collects workflow blocks, each naming the block it
 * follows and carrying parameters, and dumps them as a Mermaid flowchart. Blocks enumerate in
 * insertion order (the dictionary is never removed from), keys compare ordinally, and a parameter
 * value is modelled by the text its ToString gives.
 */
module WorkflowBuilder {
  import opened Wrappers
  import opened Text
  import opened OrderedDict

  datatype Block = Block(previousBlockId: string, parameters: Entries<string>)

  const Indent: string := "    "
  const Header: string := "flowchart TD"

  /** The node definition of a block: its id labelled with itself. */
  function NodeLine(id: string): string { Indent + id + "[" + id + "]" }

  /** The arrow from the previous block. */
  function EdgeLine(previousBlockId: string, id: string): string { Indent + previousBlockId + " --> " + id }

  /** The class marker of a block with parameters. */
  function ClassLine(id: string): string { Indent + id + ":::withParams" }

  /** The dotted link from a block to the stadium node listing its parameters. */
  function ParamsLine(id: string, paramList: string): string
  {
    Indent + id + "-. params .-> " + id + "_params([" + paramList + "])"
  }

  /** "key: value" for every parameter, in order. */
  function ParamTexts(parameters: Entries<string>): (r: seq<string>)
    ensures |r| == |parameters|
    ensures forall i :: 0 <= i < |parameters| ==> r[i] == parameters[i].0 + ": " + parameters[i].1
  {
    seq(|parameters|, i requires 0 <= i < |parameters| => parameters[i].0 + ": " + parameters[i].1)
  }

  function ParamList(parameters: Entries<string>): string
  {
    Join("<br/>", ParamTexts(parameters))
  }

  /** The lines one block contributes: its node, the edge when it has a predecessor, the two parameter lines when it has parameters. */
  function BlockLines(id: string, b: Block): seq<string>
  {
    [NodeLine(id)]
    + (if b.previousBlockId != "" then [EdgeLine(b.previousBlockId, id)] else [])
    + (if |b.parameters| > 0 then [ClassLine(id), ParamsLine(id, ParamList(b.parameters))] else [])
  }

  /** The lines of all blocks, in enumeration order (defined on the last block). */
  function BodyLines(blocks: Entries<Block>): seq<string>
  {
    if |blocks| == 0 then []
    else BodyLines(blocks[..|blocks| - 1]) + BlockLines(blocks[|blocks| - 1].0, blocks[|blocks| - 1].1)
  }

  function DiagramLines(blocks: Entries<Block>): seq<string>
  {
    [Header] + BodyLines(blocks)
  }

  /** What a StringBuilder holds after AppendLine of every line in order. */
  function Rendered(lines: seq<string>): string
  {
    Concat(Suffixed(lines, NewLine))
  }

  lemma RenderedAppend(a: seq<string>, b: seq<string>)
    ensures Rendered(a + b) == Rendered(a) + Rendered(b)
  {
    assert Suffixed(a + b, NewLine) == Suffixed(a, NewLine) + Suffixed(b, NewLine);
    ConcatAppend(Suffixed(a, NewLine), Suffixed(b, NewLine));
  }

  lemma RenderedSingle(s: string)
    ensures Rendered([s]) == Line(s)
  {
    var t := Suffixed([s], NewLine);
    assert t[..|t| - 1] == [];
    assert Concat(t) == Concat([]) + t[0];
  }

  /** The text of one block's lines, as the dumper appends them. */
  function BlockText(id: string, b: Block): string
  {
    Line(NodeLine(id))
    + (if b.previousBlockId != "" then Line(EdgeLine(b.previousBlockId, id)) else "")
    + (if |b.parameters| > 0 then Line(ClassLine(id)) + Line(ParamsLine(id, ParamList(b.parameters))) else "")
  }

  lemma BlockRendered(id: string, b: Block)
    ensures Rendered(BlockLines(id, b)) == BlockText(id, b)
  {
    var node := [NodeLine(id)];
    var edge := if b.previousBlockId != "" then [EdgeLine(b.previousBlockId, id)] else [];
    var params := if |b.parameters| > 0 then [ClassLine(id), ParamsLine(id, ParamList(b.parameters))] else [];
    RenderedAppend(node + edge, params);
    RenderedAppend(node, edge);
    RenderedSingle(NodeLine(id));
    if b.previousBlockId != "" {
      RenderedSingle(EdgeLine(b.previousBlockId, id));
    } else {
      assert Rendered(edge) == "";
    }
    if |b.parameters| > 0 {
      RenderedAppend([ClassLine(id)], [ParamsLine(id, ParamList(b.parameters))]);
      assert [ClassLine(id)] + [ParamsLine(id, ParamList(b.parameters))] == params;
      RenderedSingle(ClassLine(id));
      RenderedSingle(ParamsLine(id, ParamList(b.parameters)));
    } else {
      assert Rendered(params) == "";
    }
  }

  /** The body of the dumper's loop: AppendLine of one block's lines onto the builder's text. */
  method AppendBlock(diagram: string, id: string, b: Block) returns (r: string)
    ensures r == diagram + BlockText(id, b)
  {
    var node := Line(NodeLine(id));
    r := diagram + node;
    var edge := "";
    if b.previousBlockId != "" {
      edge := Line(EdgeLine(b.previousBlockId, id));
      r := r + edge;
    }
    var params := "";
    if |b.parameters| > 0 {
      var paramList := ParamList(b.parameters);
      params := Line(ClassLine(id)) + Line(ParamsLine(id, paramList));
      r := r + params;
    }
    AppendThree(diagram, node, edge, params);
  }

  /** Regrouping the appended parts (keeps the solver off the literal contents of the lines). */
  lemma AppendThree(d: string, x: string, y: string, z: string)
    ensures d + x + y + z == d + (x + y + z)
  {
  }

  /** One more block of the dictionary appends its text to the diagram of those before it. */
  lemma DiagramStep(blocks: Entries<Block>, i: nat)
    requires i < |blocks|
    ensures Rendered(DiagramLines(blocks[..i + 1])) == Rendered(DiagramLines(blocks[..i])) + BlockText(blocks[i].0, blocks[i].1)
  {
    var id, b := blocks[i].0, blocks[i].1;
    assert blocks[..i + 1][..i] == blocks[..i];
    assert DiagramLines(blocks[..i + 1]) == DiagramLines(blocks[..i]) + BlockLines(id, b);
    RenderedAppend(DiagramLines(blocks[..i]), BlockLines(id, b));
    BlockRendered(id, b);
  }

  /** The plugin's block dictionary. */
  class WorkflowBuilderPlugin {
    var blocks: Entries<Block>

    /** Every block id is non-empty and ids are distinct. */
    ghost predicate Valid()
      reads this
    {
      UniqueKeys(blocks, false) && forall i :: 0 <= i < |blocks| ==> blocks[i].0 != ""
    }

    constructor ()
      ensures blocks == [] && Valid()
    {
      blocks := [];
    }

    /**
     * AddBlock: refuses (false, nothing changes) a null or empty id and an id already present;
     * otherwise stores the block with its predecessor, "" for null, and returns true.
     */
    method AddBlock(blockId: Option<string>, previousBlockId: Option<string>, parameters: Entries<string>)
      returns (added: bool)
      requires Valid()
      modifies this
      ensures Valid()
      ensures added <==> !IsNullOrEmpty(blockId) && !ContainsKey(old(blocks), blockId.value, false)
      ensures !added ==> blocks == old(blocks)
      ensures added ==>
        blocks == old(blocks) + [(blockId.value, Block(if previousBlockId.Some? then previousBlockId.value else "", parameters))]
    {
      if IsNullOrEmpty(blockId) || ContainsKey(blocks, blockId.value, false) {
        return false;
      }
      var previous := if previousBlockId.Some? then previousBlockId.value else "";
      PutKeepsUnique(blocks, blockId.value, Block(previous, parameters), false);
      blocks := Put(blocks, blockId.value, Block(previous, parameters), false);
      return true;
    }

    /** DumpMermaidDiagram: the header line, then every block's lines in enumeration order. */
    method DumpMermaidDiagram() returns (diagram: string)
      ensures diagram == Rendered(DiagramLines(blocks))
    {
      RenderedSingle(Header);
      diagram := Line(Header);
      var i := 0;
      while i < |blocks|
        invariant i <= |blocks|
        invariant diagram == Rendered(DiagramLines(blocks[..i]))
      {
        diagram := AppendBlock(diagram, blocks[i].0, blocks[i].1);
        DiagramStep(blocks, i);
        i := i + 1;
      }
      assert blocks[..i] == blocks;
    }
  }

  /**
   * Reading a block's lines back: the first is its node line; an edge line comes second exactly
   * when it has a predecessor; the class and parameter lines close it exactly when it has parameters.
   */
  lemma BlockLinesShape(id: string, b: Block)
    ensures var lines := BlockLines(id, b);
      |lines| > 0 && lines[0] == NodeLine(id)
      && (b.previousBlockId != "" <==> |lines| % 2 == 0 && lines[1] == EdgeLine(b.previousBlockId, id))
      && (|b.parameters| > 0 <==>
            |lines| >= 3 && lines[|lines| - 2] == ClassLine(id)
            && lines[|lines| - 1] == ParamsLine(id, ParamList(b.parameters)))
  {
  }

  /** Adding a block after existing ones leaves their lines in place and appends its own. */
  lemma DiagramAppend(blocks: Entries<Block>, id: string, b: Block)
    ensures DiagramLines(blocks + [(id, b)]) == DiagramLines(blocks) + BlockLines(id, b)
  {
    assert (blocks + [(id, b)])[..|blocks|] == blocks;
  }

  /** Every diagram starts with the "flowchart TD" line, whatever the blocks. */
  lemma DiagramStartsWithHeader(blocks: Entries<Block>)
    ensures var text := Rendered(DiagramLines(blocks));
      |text| >= |Line(Header)| && text[..|Line(Header)|] == Line(Header)
  {
    RenderedAppend([Header], BodyLines(blocks));
    RenderedSingle(Header);
  }

  /** The line after the header is the node line of the first block added, when there is one. */
  lemma {:induction false} FirstNodeFollowsHeader(blocks: Entries<Block>)
    requires |blocks| > 0
    ensures |DiagramLines(blocks)| > 1 && DiagramLines(blocks)[1] == NodeLine(blocks[0].0)
    decreases |blocks|
  {
    var init := blocks[..|blocks| - 1];
    var last := BlockLines(blocks[|blocks| - 1].0, blocks[|blocks| - 1].1);
    assert DiagramLines(blocks) == DiagramLines(init) + last;
    if |init| > 0 {
      FirstNodeFollowsHeader(init);
      assert init[0] == blocks[0];
    } else {
      assert DiagramLines(init) == [Header];
    }
  }

  /** Each block contributes between one and four lines: the diagram has 1 + |blocks| to 1 + 4 |blocks| lines. */
  lemma {:induction false} DiagramLineCount(blocks: Entries<Block>)
    ensures 1 + |blocks| <= |DiagramLines(blocks)| <= 1 + 4 * |blocks|
    decreases |blocks|
  {
    if |blocks| > 0 {
      DiagramLineCount(blocks[..|blocks| - 1]);
    }
  }

  /**
   * A successful AddBlock appends exactly the new block's lines to the diagram; a refused one
   * leaves the diagram as it was.
   */
  method AddThenDump(plugin: WorkflowBuilderPlugin, blockId: Option<string>, previousBlockId: Option<string>,
                     parameters: Entries<string>) returns (before: string, added: bool, after: string)
    requires plugin.Valid()
    modifies plugin
    ensures !added ==> after == before
    ensures added ==> blockId.Some? && after == before + Rendered(BlockLines(blockId.value,
      Block(if previousBlockId.Some? then previousBlockId.value else "", parameters)))
  {
    before := plugin.DumpMermaidDiagram();
    added := plugin.AddBlock(blockId, previousBlockId, parameters);
    after := plugin.DumpMermaidDiagram();
    if added {
      var b := Block(if previousBlockId.Some? then previousBlockId.value else "", parameters);
      DiagramAppend(old(plugin.blocks), blockId.value, b);
      RenderedAppend(DiagramLines(old(plugin.blocks)), BlockLines(blockId.value, b));
    }
  }
}
