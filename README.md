# Glimmer template pipeline: a Dafny model

This project models three connected parts of Glimmer's template pipeline and proves properties of them.

- **The block-form compiler** (`JavaScriptCompiler`, module `GlimmerCompiler`). It consumes a flat stream of opcodes and builds a `Template`. It keeps a stack of blocks in progress and a stack of values. Expression opcodes push values. Statement opcodes pop values and append a statement record to the block on top of the stack. `startProgram`/`endProgram` open and close nested programs.
  - Each handler is a method of the class `JavaScriptCompiler`. It is proved to do what the reference function `Step` prescribes for its opcode.
  - `Run` and `Processed` fold `Step` over an opcode stream.
  - The lemmas in `GlimmerCompilerProperties` state what the handlers promise, in terms of `Step` and `Run`.
- **The scanner** (`Scanner`, `BlockScanner`, `SyntaxReader`, module `RuntimeScanner`). It turns a serialized template into an entry point or a layout.
  - It builds the nested blocks first, in index order.
  - It builds the top-level statements last.
  - It reads statements through a cursor with a one-slot push-back.
- **The runtime's compiled block records** (module `CompiledBlocks`):
  - memoized `compile` on inline blocks, entry points and layouts;
  - the layout's instruction list;
  - `initBlocks`, the depth-first walk that chains symbol tables;
  - the `Statement` node they hold (module `RuntimeSyntax`).

Three behaviours of the code that the model keeps:

- A program that is opened and closed at top level (`startProgram; text 'hi'; endProgram`) does not become the template's own `statements`. The block stack is seeded with a throw-away template, so the outermost program is also appended to `template.blocks`. `HelloProgram` proves that outcome.
- `scanTop` builds the serialized `blocks` in one flat loop in index order, not by a depth-first walk over a block tree.
- The children of the scanned top-level template are the children that statement `scan` hooks add. They are not the list of nested blocks.

## Model

| member | source | states |
|---|---|---|
| `GlimmerCompiler.BlockToJSON` | packages/glimmer-compiler/lib/javascript-compiler.ts:21-26 | the serialized block carries the block's statements and its positionals as `locals` |
| `GlimmerCompiler.TemplateToJSON` | packages/glimmer-compiler/lib/javascript-compiler.ts:43-52 | `named` and `yields` are exported as arrays, every block is serialized in order, `meta` is null |
| `GlimmerCompiler.AddToSet` | packages/glimmer-compiler/lib/javascript-compiler.ts:159-163 | a DictSet `add`: the element is present afterwards, nothing else is added, earlier members keep their order, no duplicate appears |
| `GlimmerCompiler.Trimmed` | packages/glimmer-compiler/lib/javascript-compiler.ts:225-228 | the stored record is a prefix of the arguments that does not end in null, and only nulls were removed |
| `GlimmerCompiler.PushStatement` | packages/glimmer-compiler/lib/javascript-compiler.ts:225-231 | `push` fails exactly when no block is open; otherwise only the top block changes, gaining the trimmed record at its end |
| `GlimmerCompiler.Popped` | packages/glimmer-compiler/lib/javascript-compiler.ts:201-209 | the array built from n pops has the i-th value from the top at position i |
| `GlimmerCompiler.PreparedObject` | packages/glimmer-compiler/lib/javascript-compiler.ts:211-221 | the value stack after prepareObject(size): the assertion error when fewer than size values are present, otherwise success exactly when 2·size values are present, the values below the popped pairs kept and a dictionary on top |
| `GlimmerCompiler.BuildObject` | packages/glimmer-compiler/lib/javascript-compiler.ts:213-218 | the dictionary prepareObject fills: a fresh empty dictionary assigned the popped pairs in order; `BuildObjectContents` states its keys and values |
| `GlimmerCompiler.Step` | packages/glimmer-compiler/lib/javascript-compiler.ts:82-221 | the reference for every handler: one opcode's new state or error. No opcode writes the template's own statements, the template's blocks only grow, by at most one, and an opcode without a handler always fails |
| `GlimmerCompiler.Run` | packages/glimmer-compiler/lib/javascript-compiler.ts:71-78 | the forEach of `process`: the opcodes applied in order, the first error ending the run; over a successful run the template's statements are untouched and its blocks grow by at most one per opcode, keeping the earlier ones as a prefix |
| `GlimmerCompiler.Processed` | packages/glimmer-compiler/lib/javascript-compiler.ts:56-59 | the static `process`: a new compiler run over the opcodes; a compiled template has no statements of its own and at most one block per opcode |
| `GlimmerCompiler.JavaScriptCompiler.constructor` | packages/glimmer-compiler/lib/javascript-compiler.ts:61-69 | a new compiler has an empty template, a block stack holding one throw-away block, and an empty value stack |
| `GlimmerCompiler.JavaScriptCompiler.ProcessOpcodes` | packages/glimmer-compiler/lib/javascript-compiler.ts:56-59 | the static `process` returns the template that `Processed` defines, or the error |
| `GlimmerCompiler.JavaScriptCompiler.Process` | packages/glimmer-compiler/lib/javascript-compiler.ts:71-78 | dispatches the opcodes in order; the first failure ends processing with that error and no template |
| `GlimmerCompiler.JavaScriptCompiler.Dispatch` | packages/glimmer-compiler/lib/javascript-compiler.ts:72-75 | each opcode runs its handler; an opcode without a handler fails with "unimplemented" |
| `GlimmerCompiler.JavaScriptCompiler.StartProgram` | packages/glimmer-compiler/lib/javascript-compiler.ts:82-85 | overwrites the template's positionals with the program's block params and pushes a new empty block |
| `GlimmerCompiler.JavaScriptCompiler.EndProgram` | packages/glimmer-compiler/lib/javascript-compiler.ts:87-96 | pops the top block and appends it to the template's blocks when a block remains beneath it |
| `GlimmerCompiler.JavaScriptCompiler.Text` | packages/glimmer-compiler/lib/javascript-compiler.ts:100-102 | pushes `['text', content]` |
| `GlimmerCompiler.JavaScriptCompiler.Append` | packages/glimmer-compiler/lib/javascript-compiler.ts:104-106 | pops a value and pushes `['append', value, trusted]`; underflow fails |
| `GlimmerCompiler.JavaScriptCompiler.Comment` | packages/glimmer-compiler/lib/javascript-compiler.ts:108-110 | pushes `['comment', value]` |
| `GlimmerCompiler.JavaScriptCompiler.Modifier` | packages/glimmer-compiler/lib/javascript-compiler.ts:112-117 | pops params, then hash, and pushes `['modifier', path, params, hash]` |
| `GlimmerCompiler.JavaScriptCompiler.BlockStatement` | packages/glimmer-compiler/lib/javascript-compiler.ts:119-124 | pops params, then hash, and pushes `['block', path, params, hash, template, inverse]` |
| `GlimmerCompiler.JavaScriptCompiler.Component` | packages/glimmer-compiler/lib/javascript-compiler.ts:126-129 | pops the attributes and pushes `['component', tag, attrs, template]` |
| `GlimmerCompiler.JavaScriptCompiler.OpenElement` | packages/glimmer-compiler/lib/javascript-compiler.ts:131-133 | pushes `['openElement', tag, blockParams]` |
| `GlimmerCompiler.JavaScriptCompiler.CloseElement` | packages/glimmer-compiler/lib/javascript-compiler.ts:135-137 | pushes `['closeElement']` |
| `GlimmerCompiler.JavaScriptCompiler.AddClass` | packages/glimmer-compiler/lib/javascript-compiler.ts:139-142 | pops a value and pushes `['addClass', value]` |
| `GlimmerCompiler.JavaScriptCompiler.StaticAttr` | packages/glimmer-compiler/lib/javascript-compiler.ts:144-147 | pops a value and pushes `['staticAttr', name, value, namespace]` |
| `GlimmerCompiler.JavaScriptCompiler.DynamicAttr` | packages/glimmer-compiler/lib/javascript-compiler.ts:149-152 | pops a value and pushes `['dynamicAttr', name, value, namespace]` |
| `GlimmerCompiler.JavaScriptCompiler.DynamicProp` | packages/glimmer-compiler/lib/javascript-compiler.ts:154-157 | pops a value and pushes `['dynamicProp', name, value]` |
| `GlimmerCompiler.JavaScriptCompiler.Yield` | packages/glimmer-compiler/lib/javascript-compiler.ts:159-163 | pops params, pushes `['yield', to, params]` and adds `to` to the template's yields |
| `GlimmerCompiler.JavaScriptCompiler.Unknown` | packages/glimmer-compiler/lib/javascript-compiler.ts:171-173 | pushes the value `['unknown', path]` |
| `GlimmerCompiler.JavaScriptCompiler.Attr` | packages/glimmer-compiler/lib/javascript-compiler.ts:175-178 | adds the path's head to the template's named set and pushes the value `['attr', path]` |
| `GlimmerCompiler.JavaScriptCompiler.Get` | packages/glimmer-compiler/lib/javascript-compiler.ts:180-182 | pushes the value `['get', path]` |
| `GlimmerCompiler.JavaScriptCompiler.Concat` | packages/glimmer-compiler/lib/javascript-compiler.ts:184-186 | replaces the top value by `['concat', params]` |
| `GlimmerCompiler.JavaScriptCompiler.Helper` | packages/glimmer-compiler/lib/javascript-compiler.ts:188-193 | pops params, then hash, and pushes the value `['helper', path, params, hash]` |
| `GlimmerCompiler.JavaScriptCompiler.PrepareArray` | packages/glimmer-compiler/lib/javascript-compiler.ts:201-209 | pops `size` values one at a time, in LIFO order, into an array and pushes it; underflow fails |
| `GlimmerCompiler.JavaScriptCompiler.PrepareObject` | packages/glimmer-compiler/lib/javascript-compiler.ts:211-221 | asserts `size` values are present, then pops `size` key/value pairs into a dictionary (keys converted as JavaScript property keys) and pushes it |
| `GlimmerCompiler.JavaScriptCompiler.PopPairs` | packages/glimmer-compiler/lib/javascript-compiler.ts:215-218 | prepareObject's loop: with fewer than 2n values it underflows; otherwise exactly 2n values are popped and the dictionary holds the n pairs, each key above its value, as `BuildObject` assigns them |
| `GlimmerCompiler.JavaScriptCompiler.Push` | packages/glimmer-compiler/lib/javascript-compiler.ts:225-231 | the trimming loop and the append to the current block do what `PushStatement` defines |
| `GlimmerCompiler.JavaScriptCompiler.PushValue` | packages/glimmer-compiler/lib/javascript-compiler.ts:233-235 | the value goes on top of the value stack |
| `GlimmerCompiler.JavaScriptCompiler.PopValue` | packages/glimmer-compiler/lib/javascript-compiler.ts:237-240 | an empty stack fails with stack underflow; otherwise the top value is returned and removed |
| `GlimmerCompilerProperties.RunAppend` | packages/glimmer-compiler/lib/javascript-compiler.ts:71-78 | running two opcode streams one after the other is running their concatenation; a failure in the first stops everything |
| `GlimmerCompilerProperties.UnimplementedOpcodeAborts` | packages/glimmer-compiler/lib/javascript-compiler.ts:71-78 | a stream that contains an opcode without a handler yields no template, and the error names that opcode when everything before it succeeded |
| `GlimmerCompilerProperties.PopUnderflow` | packages/glimmer-compiler/lib/javascript-compiler.ts:237-240 | an opcode that pops one value (append, addClass, the attribute opcodes, yield, component, concat) or two (modifier, block, helper) fails exactly when too few values are present or, for a statement, when no block is open; with too few values the error is stack underflow |
| `GlimmerCompilerProperties.ParamsThenHash` | packages/glimmer-compiler/lib/javascript-compiler.ts:112-124 | modifier, block and helper take params from the top and hash from beneath it, and store them in that order after the path |
| `GlimmerCompilerProperties.PrepareArrayLifo` | packages/glimmer-compiler/lib/javascript-compiler.ts:201-209 | prepareArray(n) fails exactly when fewer than n values are present; otherwise the stack below is untouched, its length drops by n - 1, and element i of the array was i-th from the top |
| `GlimmerCompilerProperties.PrepareArrayExample` | packages/glimmer-compiler/lib/javascript-compiler.ts:197-209 | pushing 'a', then 'b', then prepareArray(2) leaves `['b', 'a']` on the stack |
| `GlimmerCompilerProperties.PrepareObjectShape` | packages/glimmer-compiler/lib/javascript-compiler.ts:211-221 | prepareObject(n) fails its assertion when fewer than n values are present, underflows when fewer than 2n are present, and otherwise replaces the top 2n values with the dictionary (net change -2n + 1) |
| `GlimmerCompilerProperties.ObjectFromUntouched` | packages/glimmer-compiler/lib/javascript-compiler.ts:216-218 | assigning the popped pairs leaves every key that none of them has as it was |
| `GlimmerCompilerProperties.ObjectFromKeys` | packages/glimmer-compiler/lib/javascript-compiler.ts:216-218 | the dictionary's keys are the earlier keys plus the converted keys of the popped pairs |
| `GlimmerCompilerProperties.ObjectFromLastPairWins` | packages/glimmer-compiler/lib/javascript-compiler.ts:216-218 | a key maps to the value of the last pair popped with that key: a later pair overwrites an equal earlier key |
| `GlimmerCompilerProperties.BuildObjectContents` | packages/glimmer-compiler/lib/javascript-compiler.ts:211-221 | the dictionary that prepareObject pushes has exactly the popped keys, each mapped to its last popped value |
| `GlimmerCompilerProperties.TrimmedExample` | packages/glimmer-compiler/lib/javascript-compiler.ts:225-228 | trailing nulls are dropped and an inner null keeps its position |
| `GlimmerCompilerProperties.PushTouchesTopBlockOnly` | packages/glimmer-compiler/lib/javascript-compiler.ts:225-231 | push keeps the blocks beneath the top, the top block's earlier statements, the template and the values, and appends the trimmed record last |
| `GlimmerCompilerProperties.StepKeepsSetsDistinct` | packages/glimmer-compiler/lib/javascript-compiler.ts:159-178 | no opcode introduces a duplicate into yields or named |
| `GlimmerCompilerProperties.RunKeepsSetsDistinct` | packages/glimmer-compiler/lib/javascript-compiler.ts:159-178 | yields and named stay duplicate-free over any successful run |
| `GlimmerCompilerProperties.ProcessedSetsDistinct` | packages/glimmer-compiler/lib/javascript-compiler.ts:43-52 | a compiled template's named and yields arrays have no duplicates |
| `GlimmerCompilerProperties.StepSets` | packages/glimmer-compiler/lib/javascript-compiler.ts:159-178 | one opcode adds at most its own yield target, or the head of its attr path, and removes nothing |
| `GlimmerCompilerProperties.RunSets` | packages/glimmer-compiler/lib/javascript-compiler.ts:159-178 | after a successful run, a name is a yield target iff it was one before or some yield opcode named it, and a named parameter iff it was one before or some attr path starts with it |
| `GlimmerCompilerProperties.EndProgramAppends` | packages/glimmer-compiler/lib/javascript-compiler.ts:87-96 | endProgram pops the top block and appends it to the template's blocks iff a block remains beneath it |
| `GlimmerCompilerProperties.StartProgramLastWins` | packages/glimmer-compiler/lib/javascript-compiler.ts:82-85 | two startPrograms push two fresh blocks, and the template keeps the second program's positionals |
| `GlimmerCompilerProperties.HelloProgram` | packages/glimmer-compiler/lib/javascript-compiler.ts:66-96 | `startProgram; text 'hi'; endProgram` gives a template whose blocks are the one program `[['text','hi']]`, with empty positionals, named and yields |
| `GlimmerCompilerProperties.NestedProgramsCloseInnerFirst` | packages/glimmer-compiler/lib/javascript-compiler.ts:82-96 | an example: `startProgram outer; startProgram inner; text 'a'; endProgram; text 'b'; endProgram` gives the blocks `[['text','a']]` then `[['text','b']]`, with the inner program's positionals |
| `GlimmerCompilerProperties.EndProgramsCloseInnerFirst` | packages/glimmer-compiler/lib/javascript-compiler.ts:87-96 | from any state, n endPrograms over n open blocks with a block beneath them append those blocks to the template in reverse stack order, innermost first, and leave the block beneath on top |
| `GlimmerCompilerProperties.PushAsWritten` | packages/glimmer-compiler/lib/javascript-compiler.ts:18-31 | `Block.push` as written: it fails when the block has no statement list and appends otherwise |
| `GlimmerCompilerProperties.FirstPushFailsAsWritten` | packages/glimmer-compiler/lib/javascript-compiler.ts:18-31 | as written, the first push into a new Block fails whatever the record; a Block that starts empty would hold just that record |
| `RuntimeSyntax.NewPrettyPrint` | packages/glimmer-runtime/lib/syntax.ts:30-36 | a PrettyPrint built with its two required arguments has null params, hash and templates |
| `RuntimeSyntax.Statement.constructor` | packages/glimmer-runtime/lib/syntax.ts:68-70 | a new statement has null `next` and `prev` links and is not an attribute |
| `RuntimeSyntax.Statement.Attribute` | packages/glimmer-runtime/lib/syntax.ts:117-120 | a new Attribute carries the ATTRIBUTE marker (so isAttribute holds) and has null links |
| `RuntimeSyntax.Statement.Scan` | packages/glimmer-runtime/lib/syntax.ts:84-86 | the default scan hook returns the receiver itself |
| `RuntimeSyntax.Statement.PrettyPrinted` | packages/glimmer-runtime/lib/syntax.ts:72-74 | prettyPrint gives a PrettyPrint whose type and operation are both the statement's type, with params, hash and templates null |
| `RuntimeSyntax.Statement.LookupName` | packages/glimmer-runtime/lib/syntax.ts:122-124 | the lookup name is "@" followed by the attribute's name |
| `RuntimeSyntax.IsAttribute` | packages/glimmer-runtime/lib/syntax.ts:131-133 | `isAttribute`: the value is a node that carries the ATTRIBUTE marker; only the Attribute constructor sets it |
| `RuntimeSyntax.LookupNameInjective` | packages/glimmer-runtime/lib/syntax.ts:122-124 | two attributes have the same lookup name iff they have the same name |
| `CompiledBlocks.InlineBlock.constructor` | packages/glimmer-runtime/lib/compiled/blocks.ts:30-48 | children, program and locals come from the options; ops and symbol table come from the options, absent when omitted |
| `CompiledBlocks.InlineBlock.HasPositionalParameters` | packages/glimmer-runtime/lib/compiled/blocks.ts:50-52 | true exactly when the block has some local |
| `CompiledBlocks.InlineBlock.Compile` | packages/glimmer-runtime/lib/compiled/blocks.ts:54-56 | memoized: ops already present are kept, otherwise they become the compiler's output; afterwards ops are present, so a second call changes nothing |
| `CompiledBlocks.EntryPoint.constructor` | packages/glimmer-runtime/lib/compiled/blocks.ts:30-35 | the Block constructor's defaults: ops and symbol table absent unless given |
| `CompiledBlocks.EntryPoint.Create` | packages/glimmer-runtime/lib/compiled/blocks.ts:70-74 | a new entry point whose symbol table is the entry-point table built for it |
| `CompiledBlocks.EntryPoint.Compile` | packages/glimmer-runtime/lib/compiled/blocks.ts:76-78 | memoized as for inline blocks |
| `CompiledBlocks.EntryPoint.InitBlocks` | packages/glimmer-runtime/lib/compiled/blocks.ts:60-66 | returns the receiver; the tables built are those of `InitBlocksTrace` below the entry point's own table |
| `CompiledBlocks.Layout.constructor` | packages/glimmer-runtime/lib/compiled/blocks.ts:99-107 | only children and program go to the base constructor, so ops and symbol table start absent; parts, named and yields come from the options |
| `CompiledBlocks.Layout.Create` | packages/glimmer-runtime/lib/compiled/blocks.ts:89-93 | a new layout whose symbol table is the layout table built for it |
| `CompiledBlocks.Layout.Compile` | packages/glimmer-runtime/lib/compiled/blocks.ts:109-122 | nothing changes when ops are present; otherwise parts are compiled only if absent, and ops become `LayoutOps(parts)` |
| `CompiledBlocks.Layout.HasNamedParameters` | packages/glimmer-runtime/lib/compiled/blocks.ts:124-126 | true exactly when the layout has some named parameter |
| `CompiledBlocks.Layout.HasYields` | packages/glimmer-runtime/lib/compiled/blocks.ts:128-130 | true exactly when the layout has some yield target |
| `CompiledBlocks.Layout.InitBlocks` | packages/glimmer-runtime/lib/compiled/blocks.ts:60-66 | as for entry points, below the layout's own table |
| `CompiledBlocks.LayoutOps` | packages/glimmer-runtime/lib/compiled/blocks.ts:113-121 | open-root(tag), then the preamble, shadow-attributes, the main list and close-element, of length preamble + main + 3 |
| `CompiledBlocks.LayoutFrameOnly` | packages/glimmer-runtime/lib/compiled/blocks.ts:115-121 | when the parts hold only compiled opcodes, the layout's own opcodes sit exactly at the first position, right after the preamble, and at the end |
| `CompiledBlocks.InitBlocksTrace` | packages/glimmer-runtime/lib/compiled/blocks.ts:60-66 | the tables initBlocks builds, in order; each is a block table |
| `CompiledBlocks.InitForBlocks` | packages/glimmer-runtime/lib/compiled/blocks.ts:60-66 | the forEach walk with its recursive calls builds exactly the tables of `InitBlocksTrace` |
| `CompiledBlocks.TraceVisitsPreorder` | packages/glimmer-runtime/lib/compiled/blocks.ts:60-66 | initBlocks builds one table per block of the tree, in depth-first preorder |
| `CompiledBlocks.TraceChainsParents` | packages/glimmer-runtime/lib/compiled/blocks.ts:60-66 | every table's parent is the given parent table, for a top block, or the table of the enclosing block, which was also built |
| `CompiledBlocks.TraceCoversChildren` | packages/glimmer-runtime/lib/compiled/blocks.ts:60-66 | every top block gets a table under the given parent, and every child of a visited block gets a table under that block's table |
| `RuntimeScanner.BuildStatement` | packages/glimmer-runtime/lib/scanner.ts:123-124 | a new statement node for the serialized statement, with null links, remembering how many compiled blocks were in scope |
| `RuntimeScanner.SyntaxReader.constructor` | packages/glimmer-runtime/lib/scanner.ts:99-108 | the cursor starts at 0 with an empty push-back slot |
| `RuntimeScanner.SyntaxReader.Unput` | packages/glimmer-runtime/lib/scanner.ts:110-112 | the slot holds the statement, replacing an earlier one; the cursor does not move |
| `RuntimeScanner.SyntaxReader.Next` | packages/glimmer-runtime/lib/scanner.ts:114-125 | a pushed-back statement comes back first and the slot is cleared; otherwise null at the end, or a new node for the statement at the cursor, which advances by one; each serialized statement is built once, in index order |
| `RuntimeScanner.BlockScanner.constructor` | packages/glimmer-runtime/lib/scanner.ts:64-73 | an empty program and no children over a new reader |
| `RuntimeScanner.BlockScanner.Scan` | packages/glimmer-runtime/lib/scanner.ts:75-84 | appends, in read order, the pushed-back statement and then a node for each remaining serialized statement, until the reader is exhausted |
| `RuntimeScanner.BlockScanner.AddChild` | packages/glimmer-runtime/lib/scanner.ts:86-88 | the block is appended to the children |
| `RuntimeScanner.BlockScanner.Next` | packages/glimmer-runtime/lib/scanner.ts:90-92 | delegates to the reader's next |
| `RuntimeScanner.BlockScanner.Unput` | packages/glimmer-runtime/lib/scanner.ts:94-96 | delegates to the reader's unput |
| `RuntimeScanner.Scanner.constructor` | packages/glimmer-runtime/lib/scanner.ts:12-15 | keeps the serialized template and the environment |
| `RuntimeScanner.Scanner.BuildStatements` | packages/glimmer-runtime/lib/scanner.ts:48-51 | no statements give the shared empty program; otherwise one distinct node per statement, in order, with the given blocks in scope, and no children |
| `RuntimeScanner.Scanner.BuildBlock` | packages/glimmer-runtime/lib/scanner.ts:43-46 | an inline block with the scanned program, the serialized block's locals, and no ops or table |
| `RuntimeScanner.Scanner.BuildNestedBlocks` | packages/glimmer-runtime/lib/scanner.ts:34-38 | the nested blocks are built in index order; while block i is built, exactly the i blocks before it are in scope |
| `RuntimeScanner.Scanner.ScanEntryPoint` | packages/glimmer-runtime/lib/scanner.ts:17-21 | the top-level statements are built after every nested block, with all of them in scope, into an entry point without ops that holds its own table |
| `RuntimeScanner.Scanner.ScanLayout` | packages/glimmer-runtime/lib/scanner.ts:23-28 | as ScanEntryPoint, for a layout taking its named parameters and yields from the serialized template |

## Left out

- Reflective dispatch: `this[opcode]` also reaches members such as `push`, `popValue` and `process`. The model has a closed opcode type, and every other name is the "unimplemented" error.
- glimmer-util's `Stack`, `DictSet`, `LinkedList` and `dict` are not part of this model.
  - `Stack` is a sequence (top last). Popping an empty stack does nothing, and `current` of an empty stack is null, so a statement then fails (`NoCurrentBlock`).
  - `DictSet` is a sequence in insertion order without duplicates.
  - A program `LinkedList` is a sequence of nodes. `spliceList(clone())` is sequence concatenation.
- GlimmerCompiler.JavaScriptCompiler.Attr: with an empty path, `attr` hands `undefined` to `DictSet.add`. What `DictSet` does with a value that is not a string is not modelled: the model assumes it adds nothing, and `named` is left as it was.
- GlimmerCompiler.PushStatement: the throw-away `Template` at the bottom of the block stack has `statements = null` (javascript-compiler.ts:35, :68). In the source, a statement opcode that runs while it is the current block (before the first `startProgram`, or after the outermost `endProgram`) throws at `this.statements.push`. The model gives every block an empty statement list, so such a statement succeeds and its record is lost when that block is dropped. Likewise `Template.toJSON` emits `statements: null`, where `TemplateToJSON` gives the empty sequence.
- Omitted arguments: `undefined` is not a `Value`. The trimming loop in `push` (javascript-compiler.ts:226) removes only `=== null`, so in the source an omitted trailing argument stays in the record. The model cannot express that case; every argument is a value, and an absent one is `null`.
- Values are JSON-like, and numbers are integers only: floating-point keys and values are not modelled.
- A dictionary used as a prepareObject key converts to "[object Object]". One built by `dict()` has no prototype and would make the conversion throw. The model does not tell the two apart.
- The Template's `meta` field is always null in `toJSON` and is not otherwise modelled.
- `buildStatement` (`syntax/statements.ts`) is not part of this model. It decides which node class each serialized statement gets, including which are Attributes. The model builds a plain node tagged with the record's first element.
- Statement-specific `scan` hooks are not part of this model, so every node uses the default hook. The hooks can call `unput`, `next` and `addChild`. As a result, scanned templates have no children, and a pushed-back statement reaches `BlockScanner.Scan` only from its caller.
- The symbol-table constructors (`SymbolTable.initFor*`), the opcode compilers and the environment are not part of this model.
  - Each table is a value built from its arguments. `initForEntryPoint`/`initForLayout` are taken to store the table in the template's `symbolTable`. The tables `initForBlock` builds are returned as a list, not stored in the blocks.
  - The compilers are function fields of an `Environment` value, so their output is fixed but arbitrary.
- The runtime reads a serialized block's `locals` as an array. The compiler's `Block.toJSON` gives `locals` from a `positionals` field that is never assigned. The two serialized forms are kept as separate types.
- `Statement.clone`, `Syntax.prettyPrint` for expressions, the expression dispatcher in `syntax/expressions.ts`, the VM, DOM emission and the build configuration are not part of this model.

## Findings

| source | as written | input that shows it | evidently intended | confidence | as-written member | corrected member |
|---|---|---|---|---|---|---|
| packages/glimmer-compiler/lib/javascript-compiler.ts:18-31 | `Block.statements` has no initializer, and `Block.push` calls `this.statements.push` | opcodes `startProgram`, `text 'hi'`, `endProgram`: the `text` push into the Block that `startProgram` created dereferences `undefined` | a `Block` (unlike the `Template`, whose `null` is an explicit initializer) starts with an empty statement list, so the program records `['text','hi']` | medium; not executed | `GlimmerCompilerProperties.FirstPushFailsAsWritten` | `GlimmerCompilerProperties.HelloProgram` |
