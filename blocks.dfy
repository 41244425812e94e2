/**
 * Compiled block records of the runtime: inline blocks, entry points and
 * layouts, their memoized `compile`, the layout's instruction list, and
 * `initBlocks`, which walks the tree of nested blocks to chain symbol tables.
 *
 * The opcode compilers (InlineBlockCompiler, EntryPointCompiler,
 * LayoutCompiler) are not part of this model: they are the function fields
 * of an Environment value, so their output is arbitrary but fixed.
 */
module CompiledBlocks {
  import opened Wrappers
  import opened RuntimeSyntax

  /** Opcodes; `Compiled` stands for any opcode the compilers emit. */
  datatype Opcode =
    | OpenPrimitiveElement(tag: string)
    | ShadowAttributes
    | CloseElement
    | Compiled(id: nat)

  type OpSeq = seq<Opcode>

  /** What a layout compiler produces: the root element's tag and two instruction lists. */
  datatype CompiledComponentParts = CompiledComponentParts(tag: string, preamble: OpSeq, main: OpSeq)

  datatype ComponentDefinition = ComponentDefinition(name: string)

  /** The compilers a block is compiled with. */
  datatype Environment = Environment(
    inlineBlockCompiler: InlineBlock -> OpSeq,
    entryPointCompiler: EntryPoint -> OpSeq,
    layoutCompiler: (Layout, ComponentDefinition) -> CompiledComponentParts)

  /**
   * Symbol tables: `initForEntryPoint`, `initForLayout` and `initForBlock`
   * build a table from their arguments and nothing else.
   */
  datatype SymbolTable =
    | EntryPointTable(entryPoint: EntryPoint)
    | LayoutTable(layout: Layout)
    | BlockTable(parent: Option<SymbolTable>, block: InlineBlock)

  /** The options of the `Block` constructor; an omitted `ops` or `symbolTable` is None. */
  datatype BlockOptions = BlockOptions(
    children: seq<InlineBlock>,
    program: seq<Statement>,
    ops: Option<OpSeq>,
    symbolTable: Option<SymbolTable>)

  datatype LayoutOptions = LayoutOptions(
    children: seq<InlineBlock>,
    program: seq<Statement>,
    parts: Option<CompiledComponentParts>,
    named: seq<string>,
    yielded: seq<string>)

  /** One more than the greatest height among `bs`, or 0: bounds the nesting depth below `bs`. */
  ghost function Height(bs: seq<InlineBlock>): (r: nat)
    ensures forall b <- bs :: b.height < r
  {
    if bs == [] then 0
    else
      var h := Height(bs[1..]);
      assert forall b <- bs :: b == bs[0] || b in bs[1..];
      if bs[0].height + 1 > h then bs[0].height + 1 else h
  }

  /** All blocks are well-founded trees. */
  ghost predicate AllValid(bs: seq<InlineBlock>)
  {
    forall b <- bs :: b.Valid()
  }

  /** The first block's children and the remaining blocks are valid forests lower than the whole. */
  lemma Descend(blocks: seq<InlineBlock>)
    requires AllValid(blocks) && blocks != []
    ensures AllValid(blocks[0].children) && Height(blocks[0].children) < Height(blocks)
    ensures AllValid(blocks[1..]) && Height(blocks[1..]) <= Height(blocks)
  {
    assert blocks[0] in blocks;
    assert forall b <- blocks[1..] :: b in blocks;
  }

  /** A block nested in a template; its children are nested in it. */
  class InlineBlock {
    const children: seq<InlineBlock>
    const program: seq<Statement>
    var ops: Option<OpSeq>
    var symbolTable: Option<SymbolTable>
    const locals: seq<string>
    /** The depth of the tree below this block, so that walks over `children` terminate. */
    ghost const height: nat

    ghost predicate Valid()
      decreases height
    {
      height == Height(children) && forall c <- children :: c.Valid()
    }

    /** `new InlineBlock(options)`: children, program and locals from the options, ops and symbolTable too when given. */
    constructor (options: BlockOptions, locals: seq<string>)
      requires AllValid(options.children)
      ensures Valid()
      ensures children == options.children && program == options.program && this.locals == locals
      ensures ops == options.ops && symbolTable == options.symbolTable
    {
      children := options.children;
      program := options.program;
      ops := options.ops;
      symbolTable := options.symbolTable;
      this.locals := locals;
      height := Height(options.children);
    }

    /** `hasPositionalParameters`: the block declares some local. */
    function HasPositionalParameters(): (r: bool)
      ensures r <==> exists x :: x in locals
    {
      assert |locals| > 0 ==> locals[0] in locals;
      |locals| != 0
    }

    /** `compile`, memoized: a block that has ops keeps them; otherwise they become the compiler's output. */
    method Compile(env: Environment)
      modifies this
      ensures old(ops).Some? ==> ops == old(ops)
      ensures old(ops).None? ==> ops == Some(env.inlineBlockCompiler(this))
      ensures ops.Some?
      ensures symbolTable == old(symbolTable)
    {
      if ops.None? {
        ops := Some(env.inlineBlockCompiler(this));
      }
    }
  }

  /** The top-level template of a route or a partial. */
  class EntryPoint {
    const children: seq<InlineBlock>
    const program: seq<Statement>
    var ops: Option<OpSeq>
    var symbolTable: Option<SymbolTable>

    constructor (options: BlockOptions)
      ensures children == options.children && program == options.program
      ensures ops == options.ops && symbolTable == options.symbolTable
    {
      children := options.children;
      program := options.program;
      ops := options.ops;
      symbolTable := options.symbolTable;
    }

    /** `EntryPoint.create`: a new entry point whose table is the entry-point table built for it. */
    static method Create(options: BlockOptions) returns (top: EntryPoint)
      ensures fresh(top)
      ensures top.children == options.children && top.program == options.program && top.ops == options.ops
      ensures top.symbolTable == Some(EntryPointTable(top))
    {
      top := new EntryPoint(options);
      top.symbolTable := Some(EntryPointTable(top));
    }

    /** `compile`, memoized as for inline blocks. */
    method Compile(env: Environment)
      modifies this
      ensures old(ops).Some? ==> ops == old(ops)
      ensures old(ops).None? ==> ops == Some(env.entryPointCompiler(this))
      ensures ops.Some?
      ensures symbolTable == old(symbolTable)
    {
      if ops.None? {
        ops := Some(env.entryPointCompiler(this));
      }
    }

    /** `initBlocks()`: the tables built for every nested block, below the entry point's own table; returns the entry point. */
    method InitBlocks() returns (r: EntryPoint, created: seq<SymbolTable>)
      requires AllValid(children)
      ensures r == this
      ensures created == InitBlocksTrace(children, symbolTable)
    {
      created := InitForBlocks(children, symbolTable);
      r := this;
    }
  }

  /** A component's layout template. */
  class Layout {
    const children: seq<InlineBlock>
    const program: seq<Statement>
    var ops: Option<OpSeq>
    var symbolTable: Option<SymbolTable>
    var parts: Option<CompiledComponentParts>
    const named: seq<string>
    const yielded: seq<string>

    /** `new Layout(options)`: only children and program go to the base constructor, so ops and symbolTable start absent. */
    constructor (options: LayoutOptions)
      ensures children == options.children && program == options.program
      ensures ops.None? && symbolTable.None?
      ensures parts == options.parts && named == options.named && yielded == options.yielded
    {
      children := options.children;
      program := options.program;
      ops := None;
      symbolTable := None;
      parts := options.parts;
      named := options.named;
      yielded := options.yielded;
    }

    /** `Layout.create`: a new layout whose table is the layout table built for it. */
    static method Create(options: LayoutOptions) returns (layout: Layout)
      ensures fresh(layout)
      ensures layout.children == options.children && layout.program == options.program
      ensures layout.ops.None? && layout.parts == options.parts
      ensures layout.named == options.named && layout.yielded == options.yielded
      ensures layout.symbolTable == Some(LayoutTable(layout))
    {
      layout := new Layout(options);
      layout.symbolTable := Some(LayoutTable(layout));
    }

    /**
     * `compile`: nothing when ops are present; otherwise the parts are
     * compiled if absent, and ops become the root element around the
     * preamble, the shadow attributes and the main list.
     */
    method Compile(definition: ComponentDefinition, env: Environment)
      modifies this
      ensures old(ops).Some? ==> ops == old(ops) && parts == old(parts)
      ensures old(ops).None? ==>
                && parts == (if old(parts).Some? then old(parts) else Some(env.layoutCompiler(this, definition)))
                && ops == Some(LayoutOps(parts.value))
      ensures symbolTable == old(symbolTable)
    {
      if ops.Some? {
        return;
      }
      if parts.None? {
        parts := Some(env.layoutCompiler(this, definition));
      }
      var p := parts.value;
      var list: OpSeq := [];
      list := list + [OpenPrimitiveElement(p.tag)];
      list := list + p.preamble;
      list := list + [ShadowAttributes];
      list := list + p.main;
      list := list + [CloseElement];
      assert list == LayoutOps(p);
      ops := Some(list);
    }

    /** `hasNamedParameters`: the layout declares some named parameter. */
    function HasNamedParameters(): (r: bool)
      ensures r <==> exists x :: x in named
    {
      assert |named| > 0 ==> named[0] in named;
      |named| != 0
    }

    /** `hasYields`: the layout yields to some block. */
    function HasYields(): (r: bool)
      ensures r <==> exists x :: x in yielded
    {
      assert |yielded| > 0 ==> yielded[0] in yielded;
      |yielded| != 0
    }

    /** `initBlocks()` on a layout, as on an entry point. */
    method InitBlocks() returns (r: Layout, created: seq<SymbolTable>)
      requires AllValid(children)
      ensures r == this
      ensures created == InitBlocksTrace(children, symbolTable)
    {
      created := InitForBlocks(children, symbolTable);
      r := this;
    }
  }

  /**
   * The instruction list of a compiled layout: the root element opened with
   * the parts' tag, the preamble, the shadow attributes, the main list and the
   * root element closed.
   */
  function LayoutOps(p: CompiledComponentParts): (r: OpSeq)
    ensures |r| == |p.preamble| + |p.main| + 3
    ensures r[0] == OpenPrimitiveElement(p.tag)
    ensures r[1..1 + |p.preamble|] == p.preamble
    ensures r[1 + |p.preamble|] == ShadowAttributes
    ensures r[2 + |p.preamble|..|r| - 1] == p.main
    ensures r[|r| - 1] == CloseElement
  {
    var r := [OpenPrimitiveElement(p.tag)] + p.preamble + [ShadowAttributes] + p.main + [CloseElement];
    assert r[1..1 + |p.preamble|] == p.preamble;
    assert r[2 + |p.preamble|..|r| - 1] == p.main;
    r
  }

  /** The layout's own opcodes appear exactly at the three frame positions when the compiled parts contain none. */
  lemma LayoutFrameOnly(p: CompiledComponentParts, i: nat)
    requires forall op <- p.preamble + p.main :: op.Compiled?
    requires i < |LayoutOps(p)|
    ensures !LayoutOps(p)[i].Compiled? <==> i == 0 || i == 1 + |p.preamble| || i == |LayoutOps(p)| - 1
  {
    var r := LayoutOps(p);
    if 1 <= i < 1 + |p.preamble| {
      assert r[i] == r[1..1 + |p.preamble|][i - 1] == p.preamble[i - 1];
      assert p.preamble[i - 1] in p.preamble + p.main;
    } else if 2 + |p.preamble| <= i < |r| - 1 {
      assert r[i] == r[2 + |p.preamble|..|r| - 1][i - 2 - |p.preamble|] == p.main[i - 2 - |p.preamble|];
      assert p.main[i - 2 - |p.preamble|] in p.preamble + p.main;
    }
  }

  // ---------------------------------------------------------------------------
  // initBlocks: the depth-first walk over the nested blocks
  // ---------------------------------------------------------------------------

  /**
   * The tables `initBlocks(blocks, parentTable)` builds, in the order it
   * builds them: for each block, its own table (with `parentTable` as
   * parent), then the tables of its descendants (with its table as parent).
   */
  function InitBlocksTrace(blocks: seq<InlineBlock>, parent: Option<SymbolTable>): (r: seq<SymbolTable>)
    requires AllValid(blocks)
    ensures forall t <- r :: t.BlockTable?
    decreases Height(blocks), |blocks|
  {
    if blocks == [] then []
    else
      Descend(blocks);
      var table := BlockTable(parent, blocks[0]);
      [table] + InitBlocksTrace(blocks[0].children, Some(table)) + InitBlocksTrace(blocks[1..], parent)
  }

  /** The blocks of a forest in depth-first preorder: each block, then its descendants. */
  ghost function Preorder(blocks: seq<InlineBlock>): seq<InlineBlock>
    requires AllValid(blocks)
    decreases Height(blocks), |blocks|
  {
    if blocks == [] then []
    else Descend(blocks); [blocks[0]] + Preorder(blocks[0].children) + Preorder(blocks[1..])
  }

  /** Walking blocks one after the other is walking them all. */
  lemma {:induction false} TraceAppend(blocks: seq<InlineBlock>, b: InlineBlock, parent: Option<SymbolTable>)
    requires AllValid(blocks) && b.Valid()
    ensures InitBlocksTrace(blocks + [b], parent) == InitBlocksTrace(blocks, parent) + InitBlocksTrace([b], parent)
    decreases |blocks|
  {
    if blocks != [] {
      assert (blocks + [b])[0] == blocks[0] && (blocks + [b])[1..] == blocks[1..] + [b];
      TraceAppend(blocks[1..], b, parent);
    } else {
      assert blocks + [b] == [b];
    }
  }

  /** `initBlocks(blocks, parentTable)`, the recursive walk itself. */
  method InitForBlocks(blocks: seq<InlineBlock>, parentTable: Option<SymbolTable>) returns (created: seq<SymbolTable>)
    requires AllValid(blocks)
    ensures created == InitBlocksTrace(blocks, parentTable)
    decreases Height(blocks)
  {
    created := [];
    for i := 0 to |blocks|
      invariant created == InitBlocksTrace(blocks[..i], parentTable)
    {
      var block := blocks[i];
      assert block in blocks && block.Valid();
      var table := BlockTable(parentTable, block);
      var nested := InitForBlocks(block.children, Some(table));
      TraceAppend(blocks[..i], block, parentTable);
      assert blocks[..i + 1] == blocks[..i] + [block];
      assert [block][1..] == [];
      created := created + [table] + nested;
    }
    assert blocks[..|blocks|] == blocks;
  }

  /**
   * initBlocks visits every block of the forest exactly once, depth-first:
   * the i-th table built is the table of the i-th block in preorder.
   */
  lemma {:induction false} TraceVisitsPreorder(blocks: seq<InlineBlock>, parent: Option<SymbolTable>)
    requires AllValid(blocks)
    ensures |InitBlocksTrace(blocks, parent)| == |Preorder(blocks)|
    ensures forall i :: 0 <= i < |Preorder(blocks)| ==> InitBlocksTrace(blocks, parent)[i].block == Preorder(blocks)[i]
    decreases Height(blocks), |blocks|
  {
    if blocks != [] {
      Descend(blocks);
      var table := BlockTable(parent, blocks[0]);
      var inner := InitBlocksTrace(blocks[0].children, Some(table));
      var rest := InitBlocksTrace(blocks[1..], parent);
      TraceVisitsPreorder(blocks[0].children, Some(table));
      TraceVisitsPreorder(blocks[1..], parent);
      var t := InitBlocksTrace(blocks, parent);
      var p := Preorder(blocks);
      assert t == [table] + inner + rest;
      assert p == [blocks[0]] + Preorder(blocks[0].children) + Preorder(blocks[1..]);
      forall i | 0 <= i < |p|
        ensures t[i].block == p[i]
      {
        if i == 0 {
        } else if i < 1 + |inner| {
          assert t[i] == inner[i - 1];
          assert p[i] == Preorder(blocks[0].children)[i - 1];
        } else {
          assert t[i] == rest[i - 1 - |inner|];
          assert p[i] == Preorder(blocks[1..])[i - 1 - |inner|];
        }
      }
    }
  }

  /**
   * Every table built chains to its enclosing block: it is the table of a
   * block of the forest with `parent` as parent, or the table of a child of a
   * block whose table was also built, with that table as parent.
   */
  lemma {:induction false} TraceChainsParents(blocks: seq<InlineBlock>, parent: Option<SymbolTable>)
    requires AllValid(blocks)
    ensures forall t <- InitBlocksTrace(blocks, parent) ::
              (t.parent == parent && t.block in blocks) ||
              (t.parent.Some? && t.parent.value in InitBlocksTrace(blocks, parent) &&
               t.parent.value.BlockTable? && t.block in t.parent.value.block.children)
    decreases Height(blocks), |blocks|
  {
    if blocks != [] {
      Descend(blocks);
      var table := BlockTable(parent, blocks[0]);
      var inner := InitBlocksTrace(blocks[0].children, Some(table));
      var rest := InitBlocksTrace(blocks[1..], parent);
      TraceChainsParents(blocks[0].children, Some(table));
      TraceChainsParents(blocks[1..], parent);
      assert InitBlocksTrace(blocks, parent) == [table] + inner + rest;
      forall t <- rest ensures t.block in blocks[1..] ==> t.block in blocks {
      }
    }
  }

  /**
   * initBlocks misses no block: each block of the forest gets a table with
   * `parent` as parent, and each child of a block whose table was built gets
   * a table with that table as parent.
   */
  lemma {:induction false} TraceCoversChildren(blocks: seq<InlineBlock>, parent: Option<SymbolTable>)
    requires AllValid(blocks)
    ensures forall b <- blocks :: BlockTable(parent, b) in InitBlocksTrace(blocks, parent)
    ensures forall t <- InitBlocksTrace(blocks, parent) ::
              forall c <- t.block.children :: BlockTable(Some(t), c) in InitBlocksTrace(blocks, parent)
    decreases Height(blocks), |blocks|
  {
    if blocks != [] {
      Descend(blocks);
      var table := BlockTable(parent, blocks[0]);
      var inner := InitBlocksTrace(blocks[0].children, Some(table));
      var rest := InitBlocksTrace(blocks[1..], parent);
      TraceCoversChildren(blocks[0].children, Some(table));
      TraceCoversChildren(blocks[1..], parent);
      var all := InitBlocksTrace(blocks, parent);
      assert all == [table] + inner + rest;
      forall b <- blocks ensures BlockTable(parent, b) in all {
        if b != blocks[0] {
          assert b in blocks[1..];
        }
      }
    }
  }
}
