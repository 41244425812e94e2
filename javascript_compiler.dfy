/**
 * The block-form compiler of glimmer-compiler: it consumes a flat stream of
 * opcodes and builds a `Template` whose `blocks` hold the statement records of
 * every program, using a stack of blocks in progress and a stack of values.
 */
module GlimmerCompiler {
  import opened Wrappers

  // ---------------------------------------------------------------------------
  // Values, records and blocks
  // ---------------------------------------------------------------------------

  /** The JSON-like values held on the value stack and inside statement records. */
  datatype Value =
    | Null
    | Bool(b: bool)
    | Num(n: int)
    | Str(s: string)
    | Arr(items: seq<Value>)
    | Dict(entries: map<string, Value>)

  /** A statement record: an array whose first element is the statement's tag. */
  type Record = seq<Value>

  /** A path (`string[]`) stored in a record or an expression. */
  function PathValue(path: seq<string>): (v: Value)
    ensures v.Arr? && |v.items| == |path|
    ensures forall i :: 0 <= i < |path| ==> v.items[i] == Str(path[i])
  {
    Arr(seq(|path|, i requires 0 <= i < |path| => Str(path[i])))
  }

  /**
   * A block of statement records. The source declares `statements` without an
   * initializer (and as `null` on a Template), so its first `push` would
   * dereference `undefined`; this model starts every block with an empty
   * statement list instead (see PushAsWritten for the source as written).
   * `positionals` is never assigned on a Block, so it stays absent.
   */
  datatype Block = Block(statements: seq<Record>, positionals: Option<seq<string>>)

  const NewBlock: Block := Block.Block([], None)

  /**
   * The template being built. `yielded` and `named` stand for the source's
   * `DictSet`s: sequences in insertion order without duplicates.
   * `statements` starts empty (the source's `null`) and is never written.
   */
  datatype Template = Template(
    statements: seq<Record>,
    positionals: Option<seq<string>>,
    yielded: seq<string>,
    named: seq<string>,
    blocks: seq<Block>)

  const NewTemplate: Template := Template([], None, [], [], [])

  /** The serialized block and template that `toJSON` produces. */
  datatype SerializedBlock = SerializedBlock(statements: seq<Record>, locals: Option<seq<string>>)

  datatype SerializedTemplate = SerializedTemplate(
    statements: seq<Record>,
    locals: Option<seq<string>>,
    named: seq<string>,
    yielded: seq<string>,
    blocks: seq<SerializedBlock>,
    meta: Value)

  /** `Block.toJSON`: the statements and the positional parameters as `locals`. */
  function BlockToJSON(b: Block): (r: SerializedBlock)
    ensures r.statements == b.statements && r.locals == b.positionals
  {
    SerializedBlock(b.statements, b.positionals)
  }

  /** `Template.toJSON`: the sets become arrays, every block is serialized in order, `meta` is null. */
  function TemplateToJSON(t: Template): (r: SerializedTemplate)
    ensures r.statements == t.statements && r.locals == t.positionals
    ensures r.named == t.named && r.yielded == t.yielded && r.meta == Null
    ensures |r.blocks| == |t.blocks|
    ensures forall i :: 0 <= i < |t.blocks| ==>
              r.blocks[i].statements == t.blocks[i].statements && r.blocks[i].locals == t.blocks[i].positionals
  {
    SerializedTemplate(t.statements, t.positionals, t.named, t.yielded,
                       seq(|t.blocks|, i requires 0 <= i < |t.blocks| => BlockToJSON(t.blocks[i])), Null)
  }

  // ---------------------------------------------------------------------------
  // Sets in insertion order (DictSet)
  // ---------------------------------------------------------------------------

  ghost predicate Distinct(xs: seq<string>) {
    forall i, j :: 0 <= i < j < |xs| ==> xs[i] != xs[j]
  }

  /** `DictSet.add`: `x` is a member afterwards, nothing else is added, and nothing is duplicated. */
  function AddToSet(xs: seq<string>, x: string): (r: seq<string>)
    ensures x in r
    ensures forall y :: y in r <==> y in xs || y == x
    ensures xs <= r && |r| <= |xs| + 1
    ensures Distinct(xs) ==> Distinct(r)
  {
    if x in xs then xs else xs + [x]
  }

  // ---------------------------------------------------------------------------
  // Property keys (the key of `object[key] = value` in prepareObject)
  // ---------------------------------------------------------------------------

  function DigitChar(d: nat): char
    requires d < 10
  {
    "0123456789"[d]
  }

  function NatToString(n: nat): string
    decreases n
  {
    if n < 10 then [DigitChar(n)] else NatToString(n / 10) + [DigitChar(n % 10)]
  }

  /**
   * JavaScript's conversion of a value to a property key: strings are kept,
   * `null`, booleans and integers are written out, an array is its elements
   * joined by commas (a null element as the empty string).
   */
  function PropertyKey(v: Value): string
    decreases v, 1
  {
    match v
    case Str(s) => s
    case Null => "null"
    case Bool(b) => if b then "true" else "false"
    case Num(n) => if n < 0 then "-" + NatToString(-n) else NatToString(n)
    case Arr(items) => JoinFrom(v, 0)
    case Dict(_) => "[object Object]"
  }

  /** The elements `v.items[i..]` written out and joined by commas. */
  function JoinFrom(v: Value, i: nat): string
    requires v.Arr? && i <= |v.items|
    decreases v, 0, |v.items| - i
  {
    if i == |v.items| then ""
    else
      var item := if v.items[i].Null? then "" else PropertyKey(v.items[i]);
      if i + 1 == |v.items| then item else item + "," + JoinFrom(v, i + 1)
  }

  // ---------------------------------------------------------------------------
  // Opcodes, errors and the compiler state
  // ---------------------------------------------------------------------------

  /**
   * The opcodes the compiler has a handler for, with their arguments; every
   * other opcode name is `Unimplemented`. Arguments that are only stored in a
   * record are kept as values (any of them may be `null`).
   */
  datatype Opcode =
    | StartProgram(blockParams: seq<string>)
    | EndProgram
    | Text(content: Value)
    | Append(trusted: bool)
    | Comment(value: Value)
    | Modifier(path: seq<string>)
    | Block(path: seq<string>, template: Value, inverse: Value)
    | Component(tag: Value, template: Value)
    | OpenElement(tag: Value, elementParams: Value)
    | CloseElement
    | AddClass
    | StaticAttr(name: Value, namespace: Value)
    | DynamicAttr(name: Value, namespace: Value)
    | DynamicProp(name: Value)
    | Yield(to: string)
    | Literal(value: Value)
    | Unknown(path: seq<string>)
    | Attr(path: seq<string>)
    | Get(path: seq<string>)
    | Concat
    | Helper(path: seq<string>)
    | PushLiteral(value: Value)
    | PrepareArray(size: int)
    | PrepareObject(size: int)
    | Unimplemented(opcodeName: string)

  /** Why compilation aborts. */
  datatype CompileError =
    | UnimplementedOpcode(name: string)        // "unimplemented <name> on JavaScriptCompiler"
    | StackUnderflow                           // popValue: "No expression found on stack"
    | NotEnoughValues(expected: int, found: int) // prepareObject's assertion
    | NoCurrentBlock                           // a statement while the block stack is empty

  /** Everything a handler reads or writes: the template, the block stack (top last) and the value stack (top last). */
  datatype CompilerState = CompilerState(template: Template, blocks: seq<Block>, values: seq<Value>)

  /**
   * The state of a new compiler: the block stack is seeded with a throw-away
   * Template of its own, distinct from `template`; only its statement list
   * matters, so it is a Block here.
   */
  const Initial: CompilerState := CompilerState(NewTemplate, [NewBlock], [])

  /** The value `k` places below the top of `vs`. */
  function Top(vs: seq<Value>, k: nat): Value
    requires k < |vs|
  {
    vs[|vs| - 1 - k]
  }

  /** `vs` without its top `n` values. */
  function Drop(vs: seq<Value>, n: nat): seq<Value>
    requires n <= |vs|
  {
    vs[..|vs| - n]
  }

  // ---------------------------------------------------------------------------
  // Specification of the utilities
  // ---------------------------------------------------------------------------

  /** The record `push` stores: `r` with its trailing nulls removed. */
  function Trimmed(r: Record): (t: Record)
    ensures t <= r
    ensures t == [] || t[|t| - 1] != Null
    ensures forall i :: |t| <= i < |r| ==> r[i] == Null
    decreases |r|
  {
    if |r| > 0 && r[|r| - 1] == Null then Trimmed(r[..|r| - 1]) else r
  }

  /** `push`: appends the trimmed record to the block on top of the block stack. */
  function PushStatement(s: CompilerState, record: Record): (r: Result<CompilerState, CompileError>)
    ensures r.Failure? <==> |s.blocks| == 0
    ensures r.Failure? ==> r.error == NoCurrentBlock
    ensures r.Success? ==>
              && r.value.template == s.template && r.value.values == s.values
              && |r.value.blocks| == |s.blocks|
              && r.value.blocks[..|s.blocks| - 1] == s.blocks[..|s.blocks| - 1]
              && r.value.blocks[|s.blocks| - 1].statements == s.blocks[|s.blocks| - 1].statements + [Trimmed(record)]
              && r.value.blocks[|s.blocks| - 1].positionals == s.blocks[|s.blocks| - 1].positionals
  {
    if |s.blocks| == 0 then Failure(NoCurrentBlock)
    else
      var top := s.blocks[|s.blocks| - 1];
      Success(s.(blocks := s.blocks[..|s.blocks| - 1] + [top.(statements := top.statements + [Trimmed(record)])]))
  }

  /** The array prepareArray builds from the top `n` values: its i-th element is the i-th from the top. */
  function Popped(vs: seq<Value>, n: nat): (r: seq<Value>)
    requires n <= |vs|
    ensures |r| == n && forall i :: 0 <= i < n ==> r[i] == Top(vs, i)
  {
    seq(n, i requires 0 <= i < n => Top(vs, i))
  }

  /** The key and the value of the i-th pair prepareObject pops: the key on top, its value beneath. */
  function PairKey(vs: seq<Value>, i: nat): string
    requires 2 * i + 1 < |vs|
  {
    PropertyKey(Top(vs, 2 * i))
  }

  function PairValue(vs: seq<Value>, i: nat): Value
    requires 2 * i + 1 < |vs|
  {
    Top(vs, 2 * i + 1)
  }

  /** The dictionary `acc` after assigning the top `count` pairs of `vs` to it, first pair first. */
  function ObjectFrom(acc: map<string, Value>, vs: seq<Value>, count: nat): map<string, Value>
    requires 2 * count <= |vs|
    decreases count
  {
    if count == 0 then acc
    else ObjectFrom(acc[PairKey(vs, 0) := PairValue(vs, 0)], Drop(vs, 2), count - 1)
  }

  /** The dictionary prepareObject builds. */
  function BuildObject(vs: seq<Value>, count: nat): map<string, Value>
    requires 2 * count <= |vs|
  {
    ObjectFrom(map[], vs, count)
  }

  /** The value stack after prepareObject(size), or its error. */
  function PreparedObject(vs: seq<Value>, size: int): (r: Result<seq<Value>, CompileError>)
    ensures size > |vs| ==> r == Failure(NotEnoughValues(size, |vs|))
    ensures r.Success? <==> 2 * size <= |vs|
    ensures r.Success? ==>
              var n := if size < 0 then 0 else size;
              && |r.value| == |vs| - 2 * n + 1
              && r.value[..|vs| - 2 * n] == vs[..|vs| - 2 * n]
              && r.value[|vs| - 2 * n].Dict?
  {
    if size > |vs| then Failure(NotEnoughValues(size, |vs|))
    else if 2 * size > |vs| then Failure(StackUnderflow)
    else
      var n := if size < 0 then 0 else size;
      Success(Drop(vs, 2 * n) + [Dict(BuildObject(vs, n))])
  }

  // ---------------------------------------------------------------------------
  // The handlers, as a function of the state
  // ---------------------------------------------------------------------------

  /** One opcode's effect on the compiler state, or the error it throws. */
  function Step(s: CompilerState, op: Opcode): (r: Result<CompilerState, CompileError>)
    ensures op.Unimplemented? ==> r.Failure?
    ensures r.Success? ==> r.value.template.statements == s.template.statements
    ensures r.Success? ==> s.template.blocks <= r.value.template.blocks
    ensures r.Success? ==> |r.value.template.blocks| <= |s.template.blocks| + 1
  {
    var vs := s.values;
    match op
    case StartProgram(blockParams) =>
      Success(s.(template := s.template.(positionals := Some(blockParams)), blocks := s.blocks + [NewBlock]))
    case EndProgram =>
      if |s.blocks| == 0 then Success(s)
      else
        var rest := s.blocks[..|s.blocks| - 1];
        var t := if |rest| > 0 then s.template.(blocks := s.template.blocks + [s.blocks[|s.blocks| - 1]]) else s.template;
        Success(s.(template := t, blocks := rest))
    case Text(content) => PushStatement(s, [Str("text"), content])
    case Append(trusted) =>
      if |vs| < 1 then Failure(StackUnderflow)
      else PushStatement(s.(values := Drop(vs, 1)), [Str("append"), Top(vs, 0), Bool(trusted)])
    case Comment(value) => PushStatement(s, [Str("comment"), value])
    case Modifier(path) =>
      if |vs| < 2 then Failure(StackUnderflow)
      else PushStatement(s.(values := Drop(vs, 2)), [Str("modifier"), PathValue(path), Top(vs, 0), Top(vs, 1)])
    case Block(path, template, inverse) =>
      if |vs| < 2 then Failure(StackUnderflow)
      else PushStatement(s.(values := Drop(vs, 2)), [Str("block"), PathValue(path), Top(vs, 0), Top(vs, 1), template, inverse])
    case Component(tag, template) =>
      if |vs| < 1 then Failure(StackUnderflow)
      else PushStatement(s.(values := Drop(vs, 1)), [Str("component"), tag, Top(vs, 0), template])
    case OpenElement(tag, blockParams) => PushStatement(s, [Str("openElement"), tag, blockParams])
    case CloseElement => PushStatement(s, [Str("closeElement")])
    case AddClass =>
      if |vs| < 1 then Failure(StackUnderflow)
      else PushStatement(s.(values := Drop(vs, 1)), [Str("addClass"), Top(vs, 0)])
    case StaticAttr(name, namespace) =>
      if |vs| < 1 then Failure(StackUnderflow)
      else PushStatement(s.(values := Drop(vs, 1)), [Str("staticAttr"), name, Top(vs, 0), namespace])
    case DynamicAttr(name, namespace) =>
      if |vs| < 1 then Failure(StackUnderflow)
      else PushStatement(s.(values := Drop(vs, 1)), [Str("dynamicAttr"), name, Top(vs, 0), namespace])
    case DynamicProp(name) =>
      if |vs| < 1 then Failure(StackUnderflow)
      else PushStatement(s.(values := Drop(vs, 1)), [Str("dynamicProp"), name, Top(vs, 0)])
    case Yield(to) =>
      if |vs| < 1 then Failure(StackUnderflow)
      else
        (match PushStatement(s.(values := Drop(vs, 1)), [Str("yield"), Str(to), Top(vs, 0)])
         case Failure(e) => Failure(e)
         case Success(t) => Success(t.(template := t.template.(yielded := AddToSet(t.template.yielded, to)))))
    case Literal(value) => Success(s.(values := s.values + [value]))
    case Unknown(path) => Success(s.(values := s.values + [Arr([Str("unknown"), PathValue(path)])]))
    case Attr(path) =>
      var named := if |path| > 0 then AddToSet(s.template.named, path[0]) else s.template.named;
      Success(s.(template := s.template.(named := named), values := s.values + [Arr([Str("attr"), PathValue(path)])]))
    case Get(path) => Success(s.(values := s.values + [Arr([Str("get"), PathValue(path)])]))
    case Concat =>
      if |vs| < 1 then Failure(StackUnderflow)
      else Success(s.(values := Drop(vs, 1) + [Arr([Str("concat"), Top(vs, 0)])]))
    case Helper(path) =>
      if |vs| < 2 then Failure(StackUnderflow)
      else Success(s.(values := Drop(vs, 2) + [Arr([Str("helper"), PathValue(path), Top(vs, 0), Top(vs, 1)])]))
    case PushLiteral(value) => Success(s.(values := s.values + [value]))
    case PrepareArray(size) =>
      if size > |s.values| then Failure(StackUnderflow)
      else
        var n := if size < 0 then 0 else size;
        Success(s.(values := Drop(s.values, n) + [Arr(Popped(s.values, n))]))
    case PrepareObject(size) =>
      (match PreparedObject(vs, size)
       case Failure(e) => Failure(e)
       case Success(values) => Success(s.(values := values)))
    case Unimplemented(name) => Failure(UnimplementedOpcode(name))
  }

  /** The opcodes processed in order from `s`; the first error aborts the rest. */
  function Run(s: CompilerState, ops: seq<Opcode>): (r: Result<CompilerState, CompileError>)
    ensures r.Success? ==> r.value.template.statements == s.template.statements
    ensures r.Success? ==> s.template.blocks <= r.value.template.blocks
    ensures r.Success? ==> |r.value.template.blocks| <= |s.template.blocks| + |ops|
    decreases |ops|
  {
    if ops == [] then Success(s)
    else
      match Step(s, ops[0])
      case Failure(e) => Failure(e)
      case Success(t) => Run(t, ops[1..])
  }

  /** `JavaScriptCompiler.process(opcodes)`: the template built by a new compiler, or the error. */
  function Processed(opcodes: seq<Opcode>): (r: Result<Template, CompileError>)
    ensures r.Success? ==> r.value.statements == [] && |r.value.blocks| <= |opcodes|
  {
    match Run(Initial, opcodes)
    case Failure(e) => Failure(e)
    case Success(s) => Success(s.template)
  }

  /** prepareObject's step is the value stack that PreparedObject computes, or its error. */
  lemma StepPrepareObject(s: CompilerState, size: int)
    ensures Step(s, PrepareObject(size)) ==
            (match PreparedObject(s.values, size)
             case Failure(e) => Failure(e)
             case Success(vs) => Success(s.(values := vs)))
  {
  }

  /** The handler's outcome `o` and new state `t` are what Step prescribes for `op` from `s`. */
  ghost predicate Performs(s: CompilerState, op: Opcode, o: Outcome<CompileError>, t: CompilerState)
  {
    match Step(s, op)
    case Success(u) => o == Pass && t == u
    case Failure(e) => o == Fail(e)
  }

  // ---------------------------------------------------------------------------
  // The compiler object
  // ---------------------------------------------------------------------------

  class JavaScriptCompiler {
    var template: Template
    var blocks: seq<Block>
    const opcodes: seq<Opcode>
    var values: seq<Value>

    function State(): CompilerState
      reads this
    {
      CompilerState(template, blocks, values)
    }

    constructor(opcodes: seq<Opcode>)
      ensures this.opcodes == opcodes && State() == Initial
    {
      this.opcodes := opcodes;
      template := NewTemplate;
      blocks := [NewBlock];
      values := [];
    }

    /** The static `process`: compile `opcodes` with a new compiler. */
    static method ProcessOpcodes(opcodes: seq<Opcode>) returns (r: Result<Template, CompileError>)
      ensures r == Processed(opcodes)
    {
      var compiler := new JavaScriptCompiler(opcodes);
      r := compiler.Process();
    }

    /** Dispatches every opcode in order; the first error aborts with no template. */
    method Process() returns (r: Result<Template, CompileError>)
      modifies this
      ensures r == (match Run(old(State()), opcodes)
                    case Failure(e) => Failure(e)
                    case Success(s) => Success(s.template))
    {
      var i := 0;
      while i < |opcodes|
        invariant 0 <= i <= |opcodes|
        invariant Run(old(State()), opcodes) == Run(State(), opcodes[i..])
      {
        ghost var before := State();
        assert opcodes[i..][1..] == opcodes[i + 1..];
        var o := Dispatch(opcodes[i]);
        if o.Fail? {
          return Failure(o.error);
        }
        i := i + 1;
      }
      return Success(template);
    }

    /** `this[opcode](...args)` over the opcodes that have a handler. */
    method Dispatch(op: Opcode) returns (o: Outcome<CompileError>)
      modifies this
      ensures Performs(old(State()), op, o, State())
    {
      match op
      case StartProgram(blockParams) => StartProgram(blockParams); o := Pass;
      case EndProgram => EndProgram(); o := Pass;
      case Text(content) => o := Text(content);
      case Append(trusted) => o := Append(trusted);
      case Comment(value) => o := Comment(value);
      case Modifier(path) => o := Modifier(path);
      case Block(path, template, inverse) => o := BlockStatement(path, template, inverse);
      case Component(tag, template) => o := Component(tag, template);
      case OpenElement(tag, blockParams) => o := OpenElement(tag, blockParams);
      case CloseElement => o := CloseElement();
      case AddClass => o := AddClass();
      case StaticAttr(name, namespace) => o := StaticAttr(name, namespace);
      case DynamicAttr(name, namespace) => o := DynamicAttr(name, namespace);
      case DynamicProp(name) => o := DynamicProp(name);
      case Yield(to) => o := Yield(to);
      case Literal(value) => PushValue(value); o := Pass;
      case Unknown(path) => Unknown(path); o := Pass;
      case Attr(path) => Attr(path); o := Pass;
      case Get(path) => Get(path); o := Pass;
      case Concat => o := Concat();
      case Helper(path) => o := Helper(path);
      case PushLiteral(value) => PushValue(value); o := Pass;
      case PrepareArray(size) => o := PrepareArray(size);
      case PrepareObject(size) => o := PrepareObject(size);
      case Unimplemented(name) => o := Fail(UnimplementedOpcode(name));
    }

    // Nesting

    method StartProgram(blockParams: seq<string>)
      modifies this
      ensures Performs(old(State()), Opcode.StartProgram(blockParams), Pass, State())
      ensures template.positionals == Some(blockParams) && blocks == old(blocks) + [NewBlock]
    {
      template := template.(positionals := Some(blockParams));
      blocks := blocks + [NewBlock];
    }

    method EndProgram()
      modifies this
      ensures Performs(old(State()), Opcode.EndProgram, Pass, State())
      ensures |old(blocks)| >= 2 ==> template.blocks == old(template.blocks) + [old(blocks)[|old(blocks)| - 1]]
      ensures |old(blocks)| < 2 ==> template == old(template)
    {
      if |blocks| == 0 {
        return;
      }
      var block := blocks[|blocks| - 1];
      blocks := blocks[..|blocks| - 1];
      if |blocks| > 0 {
        template := template.(blocks := template.blocks + [block]);
      }
    }

    // Statements

    method Text(content: Value) returns (o: Outcome<CompileError>)
      modifies this
      ensures Performs(old(State()), Opcode.Text(content), o, State())
    {
      o := Push([Str("text"), content]);
    }

    method Append(trusted: bool) returns (o: Outcome<CompileError>)
      modifies this
      ensures Performs(old(State()), Opcode.Append(trusted), o, State())
    {
      var value;
      o, value := PopValue();
      if o.Fail? { return; }
      o := Push([Str("append"), value, Bool(trusted)]);
    }

    method Comment(value: Value) returns (o: Outcome<CompileError>)
      modifies this
      ensures Performs(old(State()), Opcode.Comment(value), o, State())
    {
      o := Push([Str("comment"), value]);
    }

    method Modifier(path: seq<string>) returns (o: Outcome<CompileError>)
      modifies this
      ensures Performs(old(State()), Opcode.Modifier(path), o, State())
    {
      ghost var s := State();
      var params, hash;
      o, params := PopValue();
      if o.Fail? { return; }
      o, hash := PopValue();
      if o.Fail? { return; }
      assert values == Drop(s.values, 2) && hash == Top(s.values, 1);
      assert Step(s, Opcode.Modifier(path)) == PushStatement(State(), [Str("modifier"), PathValue(path), params, hash]);
      o := Push([Str("modifier"), PathValue(path), params, hash]);
    }

    /** The `block` handler. */
    method BlockStatement(path: seq<string>, template: Value, inverse: Value) returns (o: Outcome<CompileError>)
      modifies this
      ensures Performs(old(State()), Opcode.Block(path, template, inverse), o, State())
    {
      ghost var s := State();
      var params, hash;
      o, params := PopValue();
      if o.Fail? { return; }
      o, hash := PopValue();
      if o.Fail? { return; }
      assert values == Drop(s.values, 2) && hash == Top(s.values, 1);
      assert Step(s, Opcode.Block(path, template, inverse)) == PushStatement(State(), [Str("block"), PathValue(path), params, hash, template, inverse]);
      o := Push([Str("block"), PathValue(path), params, hash, template, inverse]);
    }

    method Component(tag: Value, template: Value) returns (o: Outcome<CompileError>)
      modifies this
      ensures Performs(old(State()), Opcode.Component(tag, template), o, State())
    {
      var attrs;
      o, attrs := PopValue();
      if o.Fail? { return; }
      o := Push([Str("component"), tag, attrs, template]);
    }

    method OpenElement(tag: Value, blockParams: Value) returns (o: Outcome<CompileError>)
      modifies this
      ensures Performs(old(State()), Opcode.OpenElement(tag, blockParams), o, State())
    {
      o := Push([Str("openElement"), tag, blockParams]);
    }

    method CloseElement() returns (o: Outcome<CompileError>)
      modifies this
      ensures Performs(old(State()), Opcode.CloseElement, o, State())
    {
      o := Push([Str("closeElement")]);
    }

    method AddClass() returns (o: Outcome<CompileError>)
      modifies this
      ensures Performs(old(State()), Opcode.AddClass, o, State())
    {
      var value;
      o, value := PopValue();
      if o.Fail? { return; }
      o := Push([Str("addClass"), value]);
    }

    method StaticAttr(name: Value, namespace: Value) returns (o: Outcome<CompileError>)
      modifies this
      ensures Performs(old(State()), Opcode.StaticAttr(name, namespace), o, State())
    {
      var value;
      o, value := PopValue();
      if o.Fail? { return; }
      o := Push([Str("staticAttr"), name, value, namespace]);
    }

    method DynamicAttr(name: Value, namespace: Value) returns (o: Outcome<CompileError>)
      modifies this
      ensures Performs(old(State()), Opcode.DynamicAttr(name, namespace), o, State())
    {
      var value;
      o, value := PopValue();
      if o.Fail? { return; }
      o := Push([Str("dynamicAttr"), name, value, namespace]);
    }

    method DynamicProp(name: Value) returns (o: Outcome<CompileError>)
      modifies this
      ensures Performs(old(State()), Opcode.DynamicProp(name), o, State())
    {
      var value;
      o, value := PopValue();
      if o.Fail? { return; }
      o := Push([Str("dynamicProp"), name, value]);
    }

    method Yield(to: string) returns (o: Outcome<CompileError>)
      modifies this
      ensures Performs(old(State()), Opcode.Yield(to), o, State())
    {
      var params;
      o, params := PopValue();
      if o.Fail? { return; }
      o := Push([Str("yield"), Str(to), params]);
      if o.Fail? { return; }
      template := template.(yielded := AddToSet(template.yielded, to));
    }

    // Expressions

    method Unknown(path: seq<string>)
      modifies this
      ensures Performs(old(State()), Opcode.Unknown(path), Pass, State())
    {
      PushValue(Arr([Str("unknown"), PathValue(path)]));
    }

    method Attr(path: seq<string>)
      modifies this
      ensures Performs(old(State()), Opcode.Attr(path), Pass, State())
    {
      if |path| > 0 {
        template := template.(named := AddToSet(template.named, path[0]));
      }
      PushValue(Arr([Str("attr"), PathValue(path)]));
    }

    method Get(path: seq<string>)
      modifies this
      ensures Performs(old(State()), Opcode.Get(path), Pass, State())
    {
      PushValue(Arr([Str("get"), PathValue(path)]));
    }

    method Concat() returns (o: Outcome<CompileError>)
      modifies this
      ensures Performs(old(State()), Opcode.Concat, o, State())
    {
      var params;
      o, params := PopValue();
      if o.Fail? { return; }
      PushValue(Arr([Str("concat"), params]));
    }

    method Helper(path: seq<string>) returns (o: Outcome<CompileError>)
      modifies this
      ensures Performs(old(State()), Opcode.Helper(path), o, State())
    {
      var params, hash;
      o, params := PopValue();
      if o.Fail? { return; }
      o, hash := PopValue();
      if o.Fail? { return; }
      PushValue(Arr([Str("helper"), PathValue(path), params, hash]));
    }

    // Stack management

    /** Pops `size` values one by one and pushes them as one array, the first popped first. */
    method PrepareArray(size: int) returns (o: Outcome<CompileError>)
      modifies this`values
      ensures Performs(old(State()), Opcode.PrepareArray(size), o, State())
    {
      var popped: seq<Value> := [];
      var i := 0;
      while i < size
        invariant 0 <= i <= |old(values)| && (size >= 0 ==> i <= size)
        invariant size < 0 ==> i == 0
        invariant values == Drop(old(values), i) && popped == Popped(old(values), i)
      {
        var value;
        o, value := PopValue();
        if o.Fail? { return; }
        popped := popped + [value];
        i := i + 1;
      }
      PushValue(Arr(popped));
      o := Pass;
    }

    /** Checks that `size` values are present, then pops `size` (key, value) pairs into a dictionary and pushes it. */
    method PrepareObject(size: int) returns (o: Outcome<CompileError>)
      modifies this`values
      ensures Performs(old(State()), Opcode.PrepareObject(size), o, State())
    {
      StepPrepareObject(State(), size);
      if |values| < size {
        return Fail(NotEnoughValues(size, |values|));
      }
      var dict;
      o, dict := PopPairs(if size < 0 then 0 else size);
      if o.Fail? { return; }
      PushValue(Dict(dict));
    }

    /** prepareObject's loop: pops `n` pairs, the key above its value, into a new dictionary. */
    method PopPairs(n: nat) returns (o: Outcome<CompileError>, dict: map<string, Value>)
      modifies this`values
      ensures 2 * n > |old(values)| ==> o == Fail(StackUnderflow)
      ensures 2 * n <= |old(values)| ==>
                o == Pass && values == Drop(old(values), 2 * n) && dict == BuildObject(old(values), n)
    {
      dict := map[];
      o := Pass;
      var i := 0;
      while i < n
        invariant 0 <= i <= n && 2 * i <= |old(values)| && o == Pass
        invariant values == Drop(old(values), 2 * i)
        invariant 2 * n <= |old(values)| ==> ObjectFrom(dict, values, n - i) == BuildObject(old(values), n)
      {
        ghost var before := values;
        var key, value;
        o, key := PopValue();
        if o.Fail? { return; }
        o, value := PopValue();
        if o.Fail? { return; }
        assert values == Drop(before, 2) && PairKey(before, 0) == PropertyKey(key) && PairValue(before, 0) == value;
        dict := dict[PropertyKey(key) := value];
        i := i + 1;
      }
    }

    // Utilities

    /** Removes the trailing nulls of `args` and appends it to the block on top of the block stack. */
    method Push(args: Record) returns (o: Outcome<CompileError>)
      modifies this`blocks
      ensures match PushStatement(old(State()), args)
              case Success(t) => o == Pass && blocks == t.blocks
              case Failure(e) => o == Fail(e)
    {
      var record := args;
      while |record| > 0 && record[|record| - 1] == Null
        invariant Trimmed(record) == Trimmed(args)
      {
        record := record[..|record| - 1];
      }
      if |blocks| == 0 {
        return Fail(NoCurrentBlock);
      }
      var top := blocks[|blocks| - 1];
      blocks := blocks[..|blocks| - 1] + [top.(statements := top.statements + [record])];
      o := Pass;
    }

    method PushValue(value: Value)
      modifies this`values
      ensures values == old(values) + [value]
    {
      values := values + [value];
    }

    /** Pops the top value; an empty stack is an error. */
    method PopValue() returns (o: Outcome<CompileError>, value: Value)
      modifies this`values
      ensures |old(values)| == 0 ==> o == Fail(StackUnderflow) && values == old(values)
      ensures |old(values)| > 0 ==> o == Pass && value == Top(old(values), 0) && values == Drop(old(values), 1)
    {
      if |values| == 0 {
        return Fail(StackUnderflow), Null;
      }
      value := values[|values| - 1];
      values := values[..|values| - 1];
      o := Pass;
    }
  }
}
