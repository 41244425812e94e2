/**
 * The runtime's scanner: it turns a serialized template into an entry point
 * or a layout, building every nested block first and the top-level
 * statements last. `SyntaxReader` is a cursor over serialized statements with
 * a one-slot push-back; `BlockScanner` drains a reader into a program.
 */
module RuntimeScanner {
  import opened Wrappers
  import opened RuntimeSyntax
  import opened CompiledBlocks
  import GlimmerCompiler

  type SerializedStatement = GlimmerCompiler.Record

  /** A serialized block as the runtime reads it: its statements and its block parameters. */
  datatype SerializedBlock = SerializedBlock(statements: seq<SerializedStatement>, locals: seq<string>)

  /** A serialized template as the runtime reads it. */
  datatype SerializedTemplate = SerializedTemplate(
    statements: seq<SerializedStatement>,
    locals: seq<string>,
    named: seq<string>,
    yielded: seq<string>,
    blocks: seq<SerializedBlock>)

  /** What scanning a statement list gives: the program and the child blocks the hooks added. */
  datatype ScanResults = ScanResults(program: seq<Statement>, children: seq<InlineBlock>)

  /** The shared result for an empty statement list. */
  const EmptyProgram: ScanResults := ScanResults([], [])

  /**
   * `buildStatement(sexp, blocks)`: a new node for the serialized statement,
   * tagged with the record's first element. Which node class each tag gets
   * is decided outside this model; the node remembers the record and how
   * many compiled blocks it could refer to.
   */
  method BuildStatement(sexp: SerializedStatement, blocks: seq<InlineBlock>) returns (s: Statement)
    ensures fresh(s)
    ensures s.origin == sexp && s.scope == |blocks| && s.next == null && s.prev == null
  {
    var kind := if |sexp| > 0 && sexp[0].Str? then sexp[0].s else "";
    s := new Statement(kind, sexp, |blocks|);
  }

  /** `program` is one distinct node per serialized statement, in order, each built with `scope` blocks in scope. */
  ghost predicate BuiltFrom(program: seq<Statement>, statements: seq<SerializedStatement>, scope: nat)
  {
    && |program| == |statements|
    && (forall j :: 0 <= j < |program| ==> program[j].origin == statements[j] && program[j].scope == scope)
    && (forall j, k :: 0 <= j < k < |program| ==> program[j] != program[k])
  }

  /** A cursor over serialized statements with a one-slot push-back. */
  class SyntaxReader {
    const statements: seq<SerializedStatement>
    var current: nat
    const blocks: seq<InlineBlock>
    var last: Statement?
    /** The nodes built so far, one per statement read from `statements`. */
    ghost var built: seq<Statement>

    /** The cursor stays within the statements, and each statement before it was built exactly once, in order. */
    ghost predicate Valid()
      reads this
    {
      current <= |statements| && BuiltFrom(built, statements[..current], |blocks|)
    }

    constructor (statements: seq<SerializedStatement>, blocks: seq<InlineBlock>)
      ensures Valid()
      ensures this.statements == statements && this.blocks == blocks
      ensures current == 0 && last == null && built == []
    {
      this.statements := statements;
      this.blocks := blocks;
      current := 0;
      last := null;
      built := [];
    }

    /** `unput`: the statement goes in the push-back slot, replacing whatever was there. */
    method Unput(statement: Statement?)
      requires Valid()
      modifies this
      ensures Valid()
      ensures last == statement
      ensures current == old(current) && built == old(built)
    {
      last := statement;
    }

    /**
     * `next`: the pushed-back statement if there is one (the slot is then
     * emptied); otherwise null at the end of the statements, or the node
     * built from the statement at the cursor, which advances.
     */
    method Next() returns (s: Statement?)
      requires Valid()
      modifies this
      ensures Valid()
      ensures last == null
      ensures old(last) != null ==> s == old(last) && current == old(current) && built == old(built)
      ensures old(last) == null && old(current) == |statements| ==>
                s == null && current == old(current) && built == old(built)
      ensures old(last) == null && old(current) < |statements| ==>
                s != null && fresh(s) && current == old(current) + 1 && built == old(built) + [s]
    {
      var pending := last;
      if pending != null {
        last := null;
        return pending;
      } else if current == |statements| {
        return null;
      }
      var sexp := statements[current];
      current := current + 1;
      s := BuildStatement(sexp, blocks);
      built := built + [s];
      assert statements[..current] == statements[..current - 1] + [sexp];
    }
  }

  /** Drains a reader into a program, handing each node to its `scan` hook. */
  class BlockScanner {
    var program: seq<Statement>
    var children: seq<InlineBlock>
    const env: Environment
    const reader: SyntaxReader

    ghost predicate Valid()
      reads this, reader
    {
      reader.Valid()
    }

    constructor (statements: seq<SerializedStatement>, blocks: seq<InlineBlock>, env: Environment)
      ensures fresh(reader) && Valid()
      ensures program == [] && children == [] && this.env == env
      ensures reader.statements == statements && reader.blocks == blocks
      ensures reader.current == 0 && reader.last == null && reader.built == []
    {
      program := [];
      children := [];
      this.env := env;
      reader := new SyntaxReader(statements, blocks);
    }

    /**
     * `scan`: appends the scan result of every statement the reader yields, in
     * the order read, until it yields null: first the pushed-back statement if
     * any, then a node for each remaining serialized statement.
     */
    method Scan() returns (r: ScanResults)
      requires Valid()
      modifies this, reader
      ensures Valid()
      ensures reader.current == |reader.statements| && reader.last == null
      ensures reader.built[..old(reader.current)] == old(reader.built)
      ensures program == old(program)
                         + (if old(reader.last) != null then [old(reader.last)] else [])
                         + reader.built[old(reader.current)..]
      ensures children == old(children)
      ensures r == ScanResults(program, children)
    {
      ghost var start := reader.current;
      ghost var pushedBack := if reader.last != null then [reader.last] else [];
      assert reader.built[start..] == [];
      var statement := reader.Next();
      while statement != null
        invariant Valid() && reader.last == null
        invariant start <= |reader.built| && reader.built[..start] == old(reader.built)
        invariant statement == null ==> reader.current == |reader.statements|
        invariant program + (if statement != null then [statement] else []) ==
                  old(program) + pushedBack + reader.built[start..]
        invariant children == old(children)
        decreases |reader.statements| - reader.current + (if statement != null then 1 else 0)
      {
        program := program + [statement.Scan()];
        ghost var before := reader.built;
        statement := reader.Next();
        assert statement != null ==> reader.built[start..] == before[start..] + [statement];
      }
      r := ScanResults(program, children);
    }

    /** `addChild`: the block is appended to the children. */
    method AddChild(block: InlineBlock)
      modifies this
      ensures children == old(children) + [block] && program == old(program)
    {
      children := children + [block];
    }

    /** `next`: what the reader's `next` gives. */
    method Next() returns (s: Statement?)
      requires Valid()
      modifies reader
      ensures Valid()
      ensures reader.last == null
      ensures old(reader.last) != null ==> s == old(reader.last) && reader.current == old(reader.current)
      ensures old(reader.last) == null && old(reader.current) == |reader.statements| ==> s == null
      ensures old(reader.last) == null && old(reader.current) < |reader.statements| ==>
                s != null && fresh(s) && reader.current == old(reader.current) + 1
    {
      s := reader.Next();
    }

    /** `unput`: the reader's push-back slot holds the statement. */
    method Unput(statement: Statement?)
      requires Valid()
      modifies reader
      ensures Valid()
      ensures reader.last == statement && reader.current == old(reader.current)
    {
      reader.Unput(statement);
    }
  }

  /** Whether `block` is the inline block scanned from `spec` as the `index`-th nested block. */
  ghost predicate BuiltBlock(block: InlineBlock, spec: SerializedBlock, index: nat)
    reads block
  {
    && block.locals == spec.locals
    && block.children == []
    && block.ops.None? && block.symbolTable.None?
    && block.Valid()
    && BuiltFrom(block.program, spec.statements, index)
  }

  /** Whether `blocks` are the nested blocks of `spec`, each scanned with the blocks before it in scope. */
  ghost predicate BuiltBlocks(blocks: seq<InlineBlock>, spec: SerializedTemplate)
    reads blocks
  {
    |blocks| == |spec.blocks| && forall i :: 0 <= i < |blocks| ==> BuiltBlock(blocks[i], spec.blocks[i], i)
  }

  /** Turns a serialized template into a top-level template. */
  class Scanner {
    const spec: SerializedTemplate
    const env: Environment

    constructor (spec: SerializedTemplate, env: Environment)
      ensures this.spec == spec && this.env == env
    {
      this.spec := spec;
      this.env := env;
    }

    /**
     * `buildStatements`: the shared empty program for no statements (no
     * BlockScanner is made); otherwise one node per statement, in order, all
     * with the given blocks in scope, and no children.
     */
    method BuildStatements(statements: seq<SerializedStatement>, blocks: seq<InlineBlock>) returns (r: ScanResults)
      ensures statements == [] ==> r == EmptyProgram
      ensures BuiltFrom(r.program, statements, |blocks|)
      ensures r.children == []
    {
      if |statements| == 0 {
        return EmptyProgram;
      }
      var scanner := new BlockScanner(statements, blocks, env);
      r := scanner.Scan();
      assert scanner.reader.built[0..] == scanner.reader.built;
      assert scanner.reader.statements[..scanner.reader.current] == statements;
    }

    /** `buildBlock`: an inline block with the scanned program and the serialized block's locals. */
    method BuildBlock(block: SerializedBlock, blocks: seq<InlineBlock>) returns (b: InlineBlock)
      ensures fresh(b)
      ensures BuiltBlock(b, block, |blocks|)
    {
      var results := BuildStatements(block.statements, blocks);
      b := new InlineBlock(BlockOptions(results.children, results.program, None, None), block.locals);
    }

    /**
     * The first half of `scanTop`: the nested blocks built in index order;
     * while block i is built, exactly the i blocks before it are in scope.
     */
    method BuildNestedBlocks() returns (blocks: seq<InlineBlock>)
      ensures BuiltBlocks(blocks, spec)
    {
      blocks := [];
      for i := 0 to |spec.blocks|
        invariant BuiltBlocks(blocks, spec.(blocks := spec.blocks[..i]))
      {
        var block := BuildBlock(spec.blocks[i], blocks);
        blocks := blocks + [block];
      }
      assert spec.(blocks := spec.blocks[..|spec.blocks|]) == spec;
    }

    /**
     * `scanEntryPoint`: the nested blocks first, then the top-level statements
     * with all of them in scope, then an entry point without ops whose table
     * is its own. Its children are those the scan hooks added, so none here,
     * and initBlocks builds no table.
     */
    method ScanEntryPoint() returns (top: EntryPoint, created: seq<SymbolTable>)
      ensures BuiltFrom(top.program, spec.statements, |spec.blocks|)
      ensures top.children == [] && created == []
      ensures top.ops.None? && top.symbolTable == Some(EntryPointTable(top))
    {
      var blocks := BuildNestedBlocks();
      var results := BuildStatements(spec.statements, blocks);
      top := EntryPoint.Create(BlockOptions(results.children, results.program, None, None));
      top, created := top.InitBlocks();
    }

    /**
     * `scanLayout`: as scanEntryPoint, for a layout that takes its named
     * parameters and yields from the serialized template.
     */
    method ScanLayout() returns (top: Layout, created: seq<SymbolTable>)
      ensures BuiltFrom(top.program, spec.statements, |spec.blocks|)
      ensures top.children == [] && created == []
      ensures top.named == spec.named && top.yielded == spec.yielded
      ensures top.ops.None? && top.parts.None? && top.symbolTable == Some(LayoutTable(top))
    {
      var blocks := BuildNestedBlocks();
      var results := BuildStatements(spec.statements, blocks);
      top := Layout.Create(LayoutOptions(results.children, results.program, None, spec.named, spec.yielded));
      top, created := top.InitBlocks();
    }
  }
}
