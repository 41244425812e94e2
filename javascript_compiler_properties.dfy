/**
 * Properties of the block-form compiler, stated about Step, Run and Processed
 * (which the handlers of JavaScriptCompiler are proved to follow).
 */
module GlimmerCompilerProperties {
  import opened Wrappers
  import opened GlimmerCompiler

  // ---------------------------------------------------------------------------
  // Running opcodes: no partial result
  // ---------------------------------------------------------------------------

  /** Running `a + b` is running `a` and then, if it succeeded, `b`. */
  lemma {:induction false} RunAppend(s: CompilerState, a: seq<Opcode>, b: seq<Opcode>)
    ensures Run(s, a + b) == (match Run(s, a)
                              case Failure(e) => Failure(e)
                              case Success(t) => Run(t, b))
    decreases |a|
  {
    if a == [] {
      assert a + b == b;
    } else {
      assert (a + b)[0] == a[0] && (a + b)[1..] == a[1..] + b;
      match Step(s, a[0])
      case Failure(e) =>
      case Success(t) => RunAppend(t, a[1..], b);
    }
  }

  /**
   * An opcode without a handler aborts compilation: there is no template at
   * all, and when everything before it succeeded the error names that opcode.
   */
  lemma {:induction false} UnimplementedOpcodeAborts(opcodes: seq<Opcode>, i: nat)
    requires i < |opcodes| && opcodes[i].Unimplemented?
    ensures Processed(opcodes).Failure?
    ensures Run(Initial, opcodes[..i]).Success? ==>
              Processed(opcodes) == Failure(UnimplementedOpcode(opcodes[i].opcodeName))
  {
    assert opcodes == opcodes[..i] + opcodes[i..];
    RunAppend(Initial, opcodes[..i], opcodes[i..]);
    assert opcodes[i..][0] == opcodes[i];
  }

  // ---------------------------------------------------------------------------
  // Value-stack underflow
  // ---------------------------------------------------------------------------

  /** How many values an opcode pops before it can succeed. */
  function Pops(op: Opcode): nat {
    match op
    case Append(_) => 1
    case AddClass => 1
    case StaticAttr(_, _) => 1
    case DynamicAttr(_, _) => 1
    case DynamicProp(_) => 1
    case Yield(_) => 1
    case Component(_, _) => 1
    case Concat => 1
    case Modifier(_) => 2
    case Block(_, _, _) => 2
    case Helper(_) => 2
    case _ => 0
  }

  /** Opcodes that append a statement record to the current block. */
  predicate IsStatement(op: Opcode) {
    op.Text? || op.Append? || op.Comment? || op.Modifier? || op.Block? || op.Component? ||
    op.OpenElement? || op.CloseElement? || op.AddClass? || op.StaticAttr? || op.DynamicAttr? ||
    op.DynamicProp? || op.Yield?
  }

  /**
   * An opcode that pops fails exactly when fewer values than it pops are
   * present (a stack underflow), or when it is a statement and no block is
   * open.
   */
  lemma PopUnderflow(s: CompilerState, op: Opcode)
    requires Pops(op) > 0
    ensures Step(s, op).Failure? <==> |s.values| < Pops(op) || (IsStatement(op) && |s.blocks| == 0)
    ensures |s.values| < Pops(op) ==> Step(s, op) == Failure(StackUnderflow)
  {
  }

  /**
   * `modifier`, `block` and `helper` take the params from the top of the
   * value stack and the hash from beneath it, and store them in that order
   * after the path.
   */
  lemma ParamsThenHash(s: CompilerState, path: seq<string>, template: Value, inverse: Value)
    requires |s.values| >= 2 && |s.blocks| > 0
    ensures var params, hash, n := Top(s.values, 0), Top(s.values, 1), |s.blocks|;
            && Step(s, Modifier(path)).Success?
            && Step(s, Modifier(path)).value.values == Drop(s.values, 2)
            && Step(s, Modifier(path)).value.blocks[n - 1].statements ==
                 s.blocks[n - 1].statements + [Trimmed([Str("modifier"), PathValue(path), params, hash])]
            && Step(s, Opcode.Block(path, template, inverse)).Success?
            && Step(s, Opcode.Block(path, template, inverse)).value.blocks[n - 1].statements ==
                 s.blocks[n - 1].statements + [Trimmed([Str("block"), PathValue(path), params, hash, template, inverse])]
            && Step(s, Helper(path)) ==
                 Success(s.(values := Drop(s.values, 2) + [Arr([Str("helper"), PathValue(path), params, hash])]))
  {
  }

  // ---------------------------------------------------------------------------
  // prepareArray and prepareObject
  // ---------------------------------------------------------------------------

  /**
   * prepareArray(n) replaces the top n values by one array whose i-th element
   * was i-th from the top, so the stack shrinks by n - 1; it underflows when
   * fewer than n values are present.
   */
  lemma PrepareArrayLifo(s: CompilerState, n: int)
    ensures Step(s, PrepareArray(n)).Failure? <==> n > |s.values|
    ensures 0 <= n <= |s.values| ==>
              var t := Step(s, PrepareArray(n)).value;
              && t.template == s.template && t.blocks == s.blocks
              && |t.values| == |s.values| - n + 1
              && t.values[..|s.values| - n] == s.values[..|s.values| - n]
              && t.values[|t.values| - 1].Arr?
              && var items := t.values[|t.values| - 1].items;
                 |items| == n && forall i :: 0 <= i < n ==> items[i] == Top(s.values, i)
  {
  }

  /** A literal goes on top of the value stack. */
  lemma PushesLiteral(s: CompilerState, v: Value)
    ensures Step(s, PushLiteral(v)) == Success(s.(values := s.values + [v]))
  {
  }

  /** Pushing a second literal extends the values pushed so far. */
  lemma PushesSecondLiteral(s: CompilerState, a: Value, b: Value)
    ensures Step(s.(values := s.values + [a]), PushLiteral(b)) == Success(s.(values := s.values + [a, b]))
  {
    assert s.values + [a] + [b] == s.values + [a, b];
  }

  /** prepareArray(2) over the values `a, b` (b on top) leaves the array `[b, a]` in their place. */
  lemma PrepareArrayOfTwo(s: CompilerState, a: Value, b: Value)
    ensures Step(s.(values := s.values + [a, b]), PrepareArray(2)) == Success(s.(values := s.values + [Arr([b, a])]))
  {
    var vs := s.values + [a, b];
    assert Drop(vs, 2) == s.values;
    assert Popped(vs, 2) == [b, a];
  }

  /** Pushing 'a' then 'b' and preparing an array of two gives ['b', 'a']. */
  lemma PrepareArrayExample(s: CompilerState)
    ensures Run(s, [PushLiteral(Str("a")), PushLiteral(Str("b")), PrepareArray(2)]) ==
            Success(s.(values := s.values + [Arr([Str("b"), Str("a")])]))
  {
    PushesLiteral(s, Str("a"));
    PushesSecondLiteral(s, Str("a"), Str("b"));
    PrepareArrayOfTwo(s, Str("a"), Str("b"));
    RunThree(s, PushLiteral(Str("a")), PushLiteral(Str("b")), PrepareArray(2),
             s.(values := s.values + [Str("a")]), s.(values := s.values + [Str("a"), Str("b")]),
             s.(values := s.values + [Arr([Str("b"), Str("a")])]));
  }

  /**
   * prepareObject(n) first asserts that n values are present, then pops n
   * (key, value) pairs, failing on underflow; on success the stack shrinks by
   * 2n - 1 and its top is the dictionary of those pairs.
   */
  lemma PrepareObjectShape(s: CompilerState, n: int)
    ensures n > |s.values| ==> Step(s, PrepareObject(n)) == Failure(NotEnoughValues(n, |s.values|))
    ensures n <= |s.values| < 2 * n ==> Step(s, PrepareObject(n)) == Failure(StackUnderflow)
    ensures 0 <= n && 2 * n <= |s.values| ==>
              Step(s, PrepareObject(n)) == Success(s.(values := Drop(s.values, 2 * n) + [Dict(BuildObject(s.values, n))]))
              && |Step(s, PrepareObject(n)).value.values| == |s.values| - 2 * n + 1
  {
  }

  /** Assigning pairs never touches a key that none of them has. */
  lemma {:induction false} ObjectFromUntouched(acc: map<string, Value>, vs: seq<Value>, count: nat, key: string)
    requires 2 * count <= |vs|
    requires forall j :: 0 <= j < count ==> PairKey(vs, j) != key
    ensures key in ObjectFrom(acc, vs, count) <==> key in acc
    ensures key in acc ==> ObjectFrom(acc, vs, count)[key] == acc[key]
    decreases count
  {
    if count > 0 {
      var rest := Drop(vs, 2);
      forall j | 0 <= j < count - 1
        ensures PairKey(rest, j) != key
      {
        assert PairKey(rest, j) == PairKey(vs, j + 1);
      }
      ObjectFromUntouched(acc[PairKey(vs, 0) := PairValue(vs, 0)], rest, count - 1, key);
    }
  }

  /** The keys of the dictionary are the accumulator's and those of the pairs. */
  lemma {:induction false} ObjectFromKeys(acc: map<string, Value>, vs: seq<Value>, count: nat)
    requires 2 * count <= |vs|
    ensures ObjectFrom(acc, vs, count).Keys == acc.Keys + set j | 0 <= j < count :: PairKey(vs, j)
    decreases count
  {
    if count > 0 {
      var rest := Drop(vs, 2);
      ObjectFromKeys(acc[PairKey(vs, 0) := PairValue(vs, 0)], rest, count - 1);
      var later := set j | 0 <= j < count - 1 :: PairKey(rest, j);
      var all := set j | 0 <= j < count :: PairKey(vs, j);
      forall k | k in all ensures k == PairKey(vs, 0) || k in later {
        var j :| 0 <= j < count && PairKey(vs, j) == k;
        if j > 0 {
          assert PairKey(rest, j - 1) == PairKey(vs, j);
        }
      }
      forall k | k in later ensures k in all {
        var j :| 0 <= j < count - 1 && PairKey(rest, j) == k;
        assert PairKey(vs, j + 1) == PairKey(rest, j);
      }
      assert PairKey(vs, 0) in all;
    }
  }

  /** A pair whose key no later pair repeats gives that key its value: later pairs overwrite earlier ones. */
  lemma {:induction false} ObjectFromLastPairWins(acc: map<string, Value>, vs: seq<Value>, count: nat, i: nat)
    requires 2 * count <= |vs| && i < count
    requires forall j :: i < j < count ==> PairKey(vs, j) != PairKey(vs, i)
    ensures PairKey(vs, i) in ObjectFrom(acc, vs, count)
    ensures ObjectFrom(acc, vs, count)[PairKey(vs, i)] == PairValue(vs, i)
    decreases count
  {
    var rest := Drop(vs, 2);
    var acc' := acc[PairKey(vs, 0) := PairValue(vs, 0)];
    if i == 0 {
      forall j | 0 <= j < count - 1
        ensures PairKey(rest, j) != PairKey(vs, 0)
      {
        assert PairKey(rest, j) == PairKey(vs, j + 1);
      }
      ObjectFromUntouched(acc', rest, count - 1, PairKey(vs, 0));
    } else {
      assert PairKey(rest, i - 1) == PairKey(vs, i) && PairValue(rest, i - 1) == PairValue(vs, i);
      forall j | i - 1 < j < count - 1
        ensures PairKey(rest, j) != PairKey(rest, i - 1)
      {
        assert PairKey(rest, j) == PairKey(vs, j + 1);
      }
      ObjectFromLastPairWins(acc', rest, count - 1, i - 1);
    }
  }

  /**
   * The dictionary prepareObject builds has exactly the popped keys, and each
   * key maps to the value of the last pair popped with that key.
   */
  lemma BuildObjectContents(vs: seq<Value>, count: nat)
    requires 2 * count <= |vs|
    ensures BuildObject(vs, count).Keys == set j | 0 <= j < count :: PairKey(vs, j)
    ensures forall i :: 0 <= i < count && (forall j :: i < j < count ==> PairKey(vs, j) != PairKey(vs, i)) ==>
              BuildObject(vs, count)[PairKey(vs, i)] == PairValue(vs, i)
  {
    ObjectFromKeys(map[], vs, count);
    forall i | 0 <= i < count && (forall j :: i < j < count ==> PairKey(vs, j) != PairKey(vs, i))
      ensures BuildObject(vs, count)[PairKey(vs, i)] == PairValue(vs, i)
    {
      ObjectFromLastPairWins(map[], vs, count, i);
    }
  }

  // ---------------------------------------------------------------------------
  // push: trailing-null elision
  // ---------------------------------------------------------------------------

  /** Only trailing nulls go; an inner null keeps its position. */
  lemma TrimmedExample()
    ensures Trimmed([Str("staticAttr"), Str("class"), Null, Null]) == [Str("staticAttr"), Str("class")]
    ensures Trimmed([Str("block"), Null, Str("x"), Null]) == [Str("block"), Null, Str("x")]
  {
    var a := [Str("staticAttr"), Str("class"), Null, Null];
    assert a[..3] == [Str("staticAttr"), Str("class"), Null];
    assert a[..3][..2] == [Str("staticAttr"), Str("class")];
    var b := [Str("block"), Null, Str("x"), Null];
    assert b[..3] == [Str("block"), Null, Str("x")];
  }

  /** A statement goes to the top block only; the blocks beneath, the template and the values are untouched. */
  lemma PushTouchesTopBlockOnly(s: CompilerState, record: Record)
    requires |s.blocks| > 0
    ensures var t := PushStatement(s, record).value;
            && t.blocks[..|s.blocks| - 1] == s.blocks[..|s.blocks| - 1]
            && t.blocks[|s.blocks| - 1].statements[..|s.blocks[|s.blocks| - 1].statements|] == s.blocks[|s.blocks| - 1].statements
            && t.blocks[|s.blocks| - 1].statements[|s.blocks[|s.blocks| - 1].statements|] == Trimmed(record)
            && t.template == s.template && t.values == s.values
  {
  }

  // ---------------------------------------------------------------------------
  // yields and named: set semantics
  // ---------------------------------------------------------------------------

  ghost predicate SetsDistinct(s: CompilerState) {
    Distinct(s.template.yielded) && Distinct(s.template.named)
  }

  lemma StepKeepsSetsDistinct(s: CompilerState, op: Opcode)
    requires SetsDistinct(s) && Step(s, op).Success?
    ensures SetsDistinct(Step(s, op).value)
  {
  }

  /** The yield targets and named parameters never hold a duplicate, whatever the opcodes. */
  lemma {:induction false} RunKeepsSetsDistinct(s: CompilerState, ops: seq<Opcode>)
    requires SetsDistinct(s)
    ensures Run(s, ops).Success? ==> SetsDistinct(Run(s, ops).value)
    decreases |ops|
  {
    if ops != [] && Step(s, ops[0]).Success? {
      StepKeepsSetsDistinct(s, ops[0]);
      RunKeepsSetsDistinct(Step(s, ops[0]).value, ops[1..]);
    }
  }

  /** A compiled template's `yields` and `named` have no duplicates. */
  lemma ProcessedSetsDistinct(opcodes: seq<Opcode>)
    ensures Processed(opcodes).Success? ==>
              Distinct(Processed(opcodes).value.yielded) && Distinct(Processed(opcodes).value.named)
  {
    RunKeepsSetsDistinct(Initial, opcodes);
  }

  /** One opcode adds at most its own yield target or named parameter, and removes none. */
  lemma StepSets(s: CompilerState, op: Opcode)
    requires Step(s, op).Success?
    ensures var t := Step(s, op).value.template;
            && (forall x :: x in t.yielded <==> x in s.template.yielded || op == Yield(x))
            && (forall x :: x in t.named <==> x in s.template.named || (op.Attr? && |op.path| > 0 && op.path[0] == x))
  {
  }

  /**
   * After a successful run, a name is a yield target exactly when it was one
   * before or some `yield` opcode named it, and a named parameter exactly when
   * it was one before or some `attr` opcode's path starts with it.
   */
  lemma {:induction false} RunSets(s: CompilerState, ops: seq<Opcode>, x: string)
    requires Run(s, ops).Success?
    ensures x in Run(s, ops).value.template.yielded <==>
              x in s.template.yielded || exists i :: 0 <= i < |ops| && ops[i] == Yield(x)
    ensures x in Run(s, ops).value.template.named <==>
              x in s.template.named || exists i :: 0 <= i < |ops| && ops[i].Attr? && |ops[i].path| > 0 && ops[i].path[0] == x
    decreases |ops|
  {
    if ops != [] {
      var t := Step(s, ops[0]).value;
      StepSets(s, ops[0]);
      RunSets(t, ops[1..], x);
      if exists i :: 0 <= i < |ops[1..]| && ops[1..][i] == Yield(x) {
        var i :| 0 <= i < |ops[1..]| && ops[1..][i] == Yield(x);
        assert ops[i + 1] == Yield(x);
      }
      if exists i :: 0 <= i < |ops| && ops[i] == Yield(x) {
        var i :| 0 <= i < |ops| && ops[i] == Yield(x);
        if i > 0 { assert ops[1..][i - 1] == Yield(x); }
      }
      if exists i :: 0 <= i < |ops[1..]| && ops[1..][i].Attr? && |ops[1..][i].path| > 0 && ops[1..][i].path[0] == x {
        var i :| 0 <= i < |ops[1..]| && ops[1..][i].Attr? && |ops[1..][i].path| > 0 && ops[1..][i].path[0] == x;
        assert ops[i + 1] == ops[1..][i];
      }
      if exists i :: 0 <= i < |ops| && ops[i].Attr? && |ops[i].path| > 0 && ops[i].path[0] == x {
        var i :| 0 <= i < |ops| && ops[i].Attr? && |ops[i].path| > 0 && ops[i].path[0] == x;
        if i > 0 { assert ops[1..][i - 1] == ops[i]; }
      }
    }
  }

  // ---------------------------------------------------------------------------
  // Program nesting
  // ---------------------------------------------------------------------------

  /**
   * endProgram pops the top block and appends it to the template's blocks
   * when a block is still open beneath it; otherwise the block is dropped.
   */
  lemma EndProgramAppends(s: CompilerState)
    ensures var t := Step(s, EndProgram).value;
            && Step(s, EndProgram).Success?
            && (|s.blocks| >= 2 ==> t.template.blocks == s.template.blocks + [s.blocks[|s.blocks| - 1]]
                                    && t.blocks == s.blocks[..|s.blocks| - 1])
            && (|s.blocks| < 2 ==> t.template == s.template && t.blocks == [])
  {
  }

  /** startProgram opens a fresh block and overwrites the template's positionals: the last call wins. */
  lemma StartProgramLastWins(s: CompilerState, first: seq<string>, second: seq<string>)
    ensures Run(s, [StartProgram(first), StartProgram(second)]).Success?
    ensures var t := Run(s, [StartProgram(first), StartProgram(second)]).value;
            && t.template.positionals == Some(second)
            && t.blocks == s.blocks + [NewBlock, NewBlock]
  {
    var s1 := Step(s, StartProgram(first)).value;
    assert [StartProgram(first), StartProgram(second)][1..] == [StartProgram(second)];
    assert Run(s1, [StartProgram(second)]) == Step(s1, StartProgram(second));
    assert s.blocks + [NewBlock] + [NewBlock] == s.blocks + [NewBlock, NewBlock];
  }

  /** A statement pushed on a stack `below + [top]` extends `top` only. */
  lemma PushOnto(s: CompilerState, record: Record, below: seq<Block>, top: Block)
    requires s.blocks == below + [top]
    ensures PushStatement(s, record) ==
            Success(s.(blocks := below + [top.(statements := top.statements + [Trimmed(record)])]))
  {
    assert s.blocks[..|s.blocks| - 1] == below;
  }

  /** endProgram on a stack `below + [top]`. */
  lemma EndFrom(s: CompilerState, below: seq<Block>, top: Block)
    requires s.blocks == below + [top]
    ensures Step(s, EndProgram) ==
            Success(s.(template := if below == [] then s.template
                                   else s.template.(blocks := s.template.blocks + [top]),
                       blocks := below))
  {
    assert s.blocks[..|s.blocks| - 1] == below;
  }

  /** A run proceeds through a successful first step. */
  lemma RunThrough(s: CompilerState, ops: seq<Opcode>, t: CompilerState)
    requires ops != [] && Step(s, ops[0]) == Success(t)
    ensures Run(s, ops) == Run(t, ops[1..])
  {
  }

  /** A run of three opcodes, each of which succeeds, ends in the state the third one leaves. */
  lemma RunThree(s: CompilerState, a: Opcode, b: Opcode, c: Opcode, s1: CompilerState, s2: CompilerState, s3: CompilerState)
    requires Step(s, a) == Success(s1) && Step(s1, b) == Success(s2) && Step(s2, c) == Success(s3)
    ensures Run(s, [a, b, c]) == Success(s3)
  {
    var ops := [a, b, c];
    RunThrough(s, ops, s1);
    RunThrough(s1, ops[1..], s2);
    RunThrough(s2, ops[1..][1..], s3);
    assert ops[1..][1..][1..] == [];
  }

  /** startProgram pushes a fresh block and records its parameters as the positionals. */
  lemma StartsProgram(s: CompilerState, params: seq<string>)
    ensures Step(s, StartProgram(params)) ==
            Success(s.(template := s.template.(positionals := Some(params)), blocks := s.blocks + [NewBlock]))
  {
  }

  /** A text opcode with a non-null content, written into a fresh block, makes it the block `[['text', content]]`. */
  lemma WritesText(s: CompilerState, below: seq<Block>, content: Value)
    requires s.blocks == below + [NewBlock] && content != Null
    ensures Step(s, Text(content)) == Success(s.(blocks := below + [Block.Block([[Str("text"), content]], None)]))
  {
    PushOnto(s, [Str("text"), content], below, NewBlock);
    assert Trimmed([Str("text"), content]) == [Str("text"), content];
    assert NewBlock.statements + [[Str("text"), content]] == [[Str("text"), content]];
  }

  /**
   * `startProgram; text 'hi'; endProgram` compiles to a template whose only
   * block is the program with the one record `['text', 'hi']`: because of
   * the throw-away template at the bottom of the block stack, the outermost
   * program is also appended to `blocks`.
   */
  lemma HelloProgram()
    ensures Processed([StartProgram([]), Text(Str("hi")), EndProgram]) ==
            Success(Template([], Some([]), [], [], [Block.Block([[Str("text"), Str("hi")]], None)]))
  {
    var hi := Block.Block([[Str("text"), Str("hi")]], None);
    var t := NewTemplate.(positionals := Some([]));
    StartsProgram(Initial, []);
    WritesText(CompilerState(t, [NewBlock] + [NewBlock], []), [NewBlock], Str("hi"));
    EndFrom(CompilerState(t, [NewBlock] + [hi], []), [NewBlock], hi);
    RunThree(Initial, StartProgram([]), Text(Str("hi")), EndProgram,
             CompilerState(t, [NewBlock] + [NewBlock], []), CompilerState(t, [NewBlock] + [hi], []),
             CompilerState(t.(blocks := [] + [hi]), [NewBlock], []));
    assert [] + [hi] == [hi];
  }

  /** The tail of NestedProgramsCloseInnerFirst: close the inner program, write into the outer one, close it. */
  lemma NestedTail(t: Template, inner: Block)
    ensures Run(CompilerState(t, [NewBlock, NewBlock] + [inner], []), [EndProgram, Text(Str("b")), EndProgram]) ==
            Success(CompilerState(t.(blocks := t.blocks + [inner] + [Block.Block([[Str("text"), Str("b")]], None)]), [NewBlock], []))
  {
    var outer := Block.Block([[Str("text"), Str("b")]], None);
    var t4 := t.(blocks := t.blocks + [inner]);
    EndFrom(CompilerState(t, [NewBlock, NewBlock] + [inner], []), [NewBlock, NewBlock], inner);
    assert [NewBlock, NewBlock] == [NewBlock] + [NewBlock];
    WritesText(CompilerState(t4, [NewBlock] + [NewBlock], []), [NewBlock], Str("b"));
    EndFrom(CompilerState(t4, [NewBlock] + [outer], []), [NewBlock], outer);
    RunThree(CompilerState(t, [NewBlock, NewBlock] + [inner], []), EndProgram, Text(Str("b")), EndProgram,
             CompilerState(t4, [NewBlock] + [NewBlock], []), CompilerState(t4, [NewBlock] + [outer], []),
             CompilerState(t4.(blocks := t4.blocks + [outer]), [NewBlock], []));
  }

  /** The head of NestedProgramsCloseInnerFirst: open two programs and write into the inner one. */
  lemma NestedHead()
    ensures Run(Initial, [StartProgram(["outer"]), StartProgram(["inner"]), Text(Str("a"))]) ==
            Success(CompilerState(NewTemplate.(positionals := Some(["inner"])),
                                  [NewBlock, NewBlock] + [Block.Block([[Str("text"), Str("a")]], None)], []))
  {
    var t1 := NewTemplate.(positionals := Some(["outer"]));
    var t2 := NewTemplate.(positionals := Some(["inner"]));
    var inner := Block.Block([[Str("text"), Str("a")]], None);
    StartsProgram(Initial, ["outer"]);
    StartsProgram(CompilerState(t1, [NewBlock] + [NewBlock], []), ["inner"]);
    assert [NewBlock] + [NewBlock] + [NewBlock] == [NewBlock, NewBlock] + [NewBlock];
    WritesText(CompilerState(t2, [NewBlock, NewBlock] + [NewBlock], []), [NewBlock, NewBlock], Str("a"));
    RunThree(Initial, StartProgram(["outer"]), StartProgram(["inner"]), Text(Str("a")),
             CompilerState(t1, [NewBlock] + [NewBlock], []), CompilerState(t2, [NewBlock, NewBlock] + [NewBlock], []),
             CompilerState(t2, [NewBlock, NewBlock] + [inner], []));
  }

  /**
   * Nested programs are appended in closing order: the inner block before the
   * outer one, and the template keeps the positionals of the last program opened.
   */
  lemma NestedProgramsCloseInnerFirst()
    ensures Processed([StartProgram(["outer"]), StartProgram(["inner"]), Text(Str("a")), EndProgram, Text(Str("b")), EndProgram]) ==
            Success(Template([], Some(["inner"]), [], [],
                             [Block.Block([[Str("text"), Str("a")]], None), Block.Block([[Str("text"), Str("b")]], None)]))
  {
    var inner := Block.Block([[Str("text"), Str("a")]], None);
    var outer := Block.Block([[Str("text"), Str("b")]], None);
    var t2 := NewTemplate.(positionals := Some(["inner"]));
    var head := [StartProgram(["outer"]), StartProgram(["inner"]), Text(Str("a"))];
    var tail := [EndProgram, Text(Str("b")), EndProgram];
    NestedHead();
    NestedTail(t2, inner);
    RunAppend(Initial, head, tail);
    assert head + tail == [StartProgram(["outer"]), StartProgram(["inner"]), Text(Str("a")), EndProgram, Text(Str("b")), EndProgram];
    assert t2.blocks + [inner] + [outer] == [inner, outer];
  }

  /** The blocks of `bs` from the last to the first. */
  function Reversed(bs: seq<Block>): seq<Block>
    decreases |bs|
  {
    if bs == [] then [] else [bs[|bs| - 1]] + Reversed(bs[..|bs| - 1])
  }

  /**
   * Closing the programs that are still open appends them to the template's
   * blocks innermost first, the reverse of the order they were opened in,
   * provided some block stays beneath them.
   */
  lemma {:induction false} EndProgramsCloseInnerFirst(s: CompilerState, below: seq<Block>, pending: seq<Block>)
    requires |below| >= 1
    ensures Run(s.(blocks := below + pending), seq(|pending|, _ => EndProgram)) ==
            Success(s.(template := s.template.(blocks := s.template.blocks + Reversed(pending)), blocks := below))
    decreases |pending|
  {
    var ends := seq(|pending|, _ => EndProgram);
    if pending == [] {
      assert below + pending == below && ends == [];
      assert s.template.blocks + Reversed(pending) == s.template.blocks;
    } else {
      var top := pending[|pending| - 1];
      var rest := pending[..|pending| - 1];
      var s0 := s.(blocks := below + pending);
      var t := s.(template := s.template.(blocks := s.template.blocks + [top]));
      assert below + pending == (below + rest) + [top];
      EndFrom(s0, below + rest, top);
      RunThrough(s0, ends, t.(blocks := below + rest));
      assert ends[1..] == seq(|rest|, _ => EndProgram);
      EndProgramsCloseInnerFirst(t, below, rest);
      assert s.template.blocks + [top] + Reversed(rest) == s.template.blocks + Reversed(pending);
    }
  }

  // ---------------------------------------------------------------------------
  // The source as written: `Block.statements` is never initialised
  // ---------------------------------------------------------------------------

  /**
   * `Block.push` as written: `this.statements.push(statement)` on a field that
   * is absent (`undefined`, or `null` on a Template) throws, so the result is
   * None.
   */
  function PushAsWritten(statements: Option<seq<Record>>, record: Record): (r: Option<seq<Record>>)
    ensures r.Some? <==> statements.Some?
    ensures r.Some? ==> r.value == statements.value + [record]
  {
    match statements
    case None => None
    case Some(list) => Some(list + [record])
  }

  /**
   * As written, the first statement pushed into a new Block fails whatever
   * the record: startProgram's Block never received a statement list. So
   * `startProgram; text 'hi'; endProgram` throws at `text` instead of giving
   * the template of HelloProgram.
   */
  lemma FirstPushFailsAsWritten(record: Record)
    ensures PushAsWritten(None, record).None?
    ensures PushAsWritten(Some(NewBlock.statements), record) == Some([record])
  {
    assert NewBlock.statements + [record] == [record];
  }
}
