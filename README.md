# Snel compiler core in Dafny

This project models the two core parts of the Snel compiler.

- **Lowering** (`libsnel/atree.py`). The grammar engine produces a concrete parse tree, and lowering turns it into the compiler's abstract syntax tree. There is one handler per grammar rule (`ex_s_*`), and `ex_s_any` dispatches on the rule name.
- **The assembly backend** (`libsnel/backend.py`). It holds the register table and an in-memory program: functions as growing lists of instruction lines, byte constants, and a module with an optional entry point. It renders the program as fasm source, then backpatches every constant's length into the text.

Files:

- `wrappers.dfy`: `Option`, `Result` and `Outcome`, the usual failure-compatible wrappers.
- `errors.dfy`: the Python exceptions the core can raise, as one `Error` datatype:
  - a failed `assert`/`assert_eq`;
  - an explicit `raise` with its message;
  - an index past the end;
  - an element without a `name`;
  - a non-numeric `int()` argument;
  - a tuple-unpacking mismatch;
  - `NameError` for an unknown symbol.
- `text.dfy`: the string built-ins the core relies on:
  - `join`, and a `split` used to state facts about `join`;
  - `removeprefix`/`removesuffix`;
  - `str()` and `int()` on integers;
  - `str.replace`.
- `cst.dfy`: the parse-tree node as lowering sees it: the element's name (if any), the element's class, the matched text and the children. Also `get_element_name`, `hasname`, `assert_eq`, and the raising accessors.
- `ast.dfy`: `AstNode` with its tag, children and payload; the shape each tag is meant to have; and `to_dict`.
- `lowering.dfy`:
  - every `ex_s_*` handler as a function, in the source's evaluation order;
  - the four handlers that build a list in a loop (`ex_s_name`, `ex_s_fndecl`, `ex_s_scope`, `ex_s_start`), also as methods with loops proved equal to the functions.
- `lowering_props.dfy`: properties of lowering over all parse trees.
- `backend.dfy`: the backend.
  - `WBuffer`, `Function` and `Module` are classes with `modifies` clauses.
  - Their `fasm` methods are proved equal to text-rendering functions, and the properties of those functions are proved as lemmas.

Every error path of the source is modelled as an `Err`/`Fail` of the matching kind, produced at the same point in evaluation order.

In these places the code behaves differently from what a reader might expect, and the model follows the code:

- A scope's optional trailing expression is never lowered: `ex_s_scope` only walks the repeated entries (`ScopeIgnoresTrailing`).
- `op_syscall` with more than six arguments indexes the list of argument registers out of range after six moves, so it raises and no `syscall` line is written (`SyscallOverflow`, `SyscallOverflowOmitsSyscall`).
- An unhandled rule raises `Exception("UNHANDLED: '<rule>'")` (`AnyDispatch`).

Four behaviours that look unintended are modelled exactly as written:

- A dotted name keeps its delimiters. The grammar engine reports the `.` tokens among a `List`'s children, and `ex_s_name` joins every child with `.`, so `a.b` lowers to `a...b` (`DottedNameKeepsDelimiters`, `TwoSegmentName`).
- The import path is dropped (`ImportIgnoresPath`).
- A string literal loses a leading `"` and a trailing `'` (`StringLiteralKeepsClosingQuote`).
- `is_register` does not know `r8`-`r15`, although `op_syscall` loads arguments into `r10`, `r8` and `r9` (`ExtendedRegistersExcluded`).

## Model

| member | source | states |
|---|---|---|
| Cst.ClassName | libsnel/atree.py:6-7 | `get_element_name` gives the class that `hasname` compares for an element without a name: such an element matches exactly its class name |
| Cst.HasName | libsnel/atree.py:34-37 | a named element matches exactly the name `n.element.name` gives, and never its class unless the two coincide |
| Cst.AssertEq | libsnel/atree.py:10-12 | `assert_eq` passes exactly when the two sides are equal, and otherwise fails with an assertion error |
| Cst.ElementName | libsnel/atree.py:101 | `n.element.name` succeeds exactly when the element has a name, and returns it; otherwise the error is a missing name |
| Cst.Child | libsnel/atree.py:151 | `n.children[i]` succeeds exactly when `i` is in range, returns the `i`-th child, and otherwise fails with an index error |
| Cst.ExpectChildName | libsnel/atree.py:200 | `assert_eq(n.children[i].element.name, s)` passes exactly when child `i` exists and is named `s` |
| Text.RemovePrefix | libsnel/atree.py:162 | `removeprefix`: with the prefix present, prefix + result is the input; otherwise the input is unchanged |
| Text.RemoveSuffix | libsnel/atree.py:162 | `removesuffix`: with the suffix present, result + suffix is the input; otherwise the input is unchanged |
| Text.SplitJoin | libsnel/atree.py:126 | joining segments that contain no separator and splitting the result gives the segments back |
| Text.JoinInterleaved | libsnel/atree.py:123-126 | joining parts with the separator between them as parts of their own gives the parts joined by the separator written three times |
| Text.JoinLength | libsnel/backend.py:30 | a join is as long as its parts plus one separator between each pair |
| Text.IntRoundTrip | libsnel/atree.py:158 | `int(str(i)) == i` for every integer, so an integer literal reads back as the value that printed it |
| Text.ReplaceAbsent | libsnel/backend.py:36 | `replace` of a pattern that does not occur leaves the text unchanged |
| Text.ReplaceFirst | libsnel/backend.py:36 | `replace` keeps the text before the first occurrence, substitutes it, and resumes right after it |
| Text.ReplaceSingle | libsnel/backend.py:36 | with exactly one occurrence of the pattern, `replace` substitutes exactly that one |
| Ast.DictRoundTrip | libsnel/atree.py:85-90 | `to_dict(True)` loses nothing: the node can be read back from the dictionary |
| Ast.DictWithoutValues | libsnel/atree.py:85-90 | `to_dict(False)` keeps exactly the tags and the tree shape, and drops every payload |
| Lowering.LowerImport | libsnel/atree.py:100-107 | a successful import lowering is an `import` node around one `name` node |
| Lowering.LowerName | libsnel/atree.py:118-128 | a successful name lowering is a `name` node with a text payload |
| Lowering.BuildName | libsnel/atree.py:118-128 | the loop collecting the segment texts gives exactly what `LowerName` gives |
| Lowering.LowerBinop | libsnel/atree.py:131-147 | a successful operator lowering is a `binop` node carrying one of the six symbols |
| Lowering.LowerValue | libsnel/atree.py:153-166 | a lowered literal or name is a well-formed expression |
| Lowering.LowerLiteral | libsnel/atree.py:157-166 | a lowered integer, float, string or character literal is a well-formed expression |
| Lowering.LowerExpr | libsnel/atree.py:150-187 | a successful expression lowering is a well-formed expression tree; this rests on the same promise for every sub-expression |
| Lowering.LowerSequence | libsnel/atree.py:167-183 | the parenthesised and binary forms lower to well-formed expressions |
| Lowering.LowerBinary | libsnel/atree.py:177-181 | `left op right` lowers to a well-formed `binop_expr` |
| Lowering.LowerParam | libsnel/atree.py:204-210 | a lowered parameter's type is a well-formed expression |
| Lowering.LowerParams | libsnel/atree.py:203-210 | every lowered parameter's type is a well-formed expression |
| Lowering.LowerFnDecl | libsnel/atree.py:199-214 | a lowered declaration has one well-formed return-type child and parameters with well-formed types |
| Lowering.BuildFnDecl | libsnel/atree.py:199-214 | the parameter loop gives exactly what `LowerFnDecl` gives, errors included |
| Lowering.LowerVarDec | libsnel/atree.py:217-221 | a lowered declaration is a `var_declaration` statement of a name and a type; `VarDecLayout` states the exact result |
| Lowering.LowerVarDef | libsnel/atree.py:224-229 | a lowered definition is a `var_definition` statement of a name, a type and a value; `VarDefLayout` states the exact result |
| Lowering.LowerVarAss | libsnel/atree.py:232-238 | a lowered assignment is a `var_assignment` statement of a name and a value; `VarAssLayout` states the exact result |
| Lowering.LowerStatement | libsnel/atree.py:248-258 | a lowered scope entry is a statement |
| Lowering.LowerEntry | libsnel/atree.py:247-258 | a lowered scope entry, reached through its two wrapper nodes, is a statement |
| Lowering.LowerEntries | libsnel/atree.py:246-258 | every lowered scope entry is a statement |
| Lowering.LowerScope | libsnel/atree.py:241-259 | a lowered scope is a `scope` whose children are all statements |
| Lowering.BuildScope | libsnel/atree.py:241-259 | the entry loop gives exactly what `LowerScope` gives, errors included |
| Lowering.BuildEntry | libsnel/atree.py:247-258 | the `match` on the statement's rule gives exactly what `LowerEntry` gives |
| Lowering.LowerFnDef | libsnel/atree.py:262-278 | a lowered definition is an `fn_def` of a declaration and a scope, carrying the name; `FnDefLayout` states the exact result |
| Lowering.LowerModule | libsnel/atree.py:110-115 | a lowered module carries its name node, and every child is a top-level node; `ModuleLayout` states the exact result |
| Lowering.LowerEach | libsnel/atree.py:115 | every lowered module entry is a top-level node; `EachInOrder` states the count and the order |
| Lowering.LowerImports | libsnel/atree.py:285-286 | every lowered file import is an `import` node |
| Lowering.LowerModules | libsnel/atree.py:289-290 | every lowered file module is a `module` node |
| Lowering.LowerStart | libsnel/atree.py:281-292 | a lowered file is a `src_file` whose children are all imports followed by all modules |
| Lowering.BuildSrcFile | libsnel/atree.py:281-292 | one list, appended to by the import loop and then the module loop, gives exactly what `LowerStart` gives |
| Lowering.AppendImports | libsnel/atree.py:285-286 | the import loop appends each lowered import to the list in order, or stops at the first error |
| Lowering.AppendModules | libsnel/atree.py:289-290 | the module loop appends each lowered module to the list in order, or stops at the first error |
| Lowering.LowerAny | libsnel/atree.py:295-310 | whatever the dispatch lowers is a top-level node |
| LoweringProperties.NameForms | libsnel/atree.py:118-128 | a bare identifier lowers to the node's text; a list lowers to the texts of all its children, delimiters included, joined by `.`, and when no child's text holds a `.` the value splits back into those texts; any other form raises "invalid name" |
| LoweringProperties.DottedNameKeepsDelimiters | libsnel/atree.py:122-126 | a list whose children are the segments with a `.` delimiter between each pair lowers to the segments joined by `...` |
| LoweringProperties.TwoSegmentName | libsnel/atree.py:122-126 | `a.b`, reported as the children `a`, `.`, `b`, lowers to `a...b` |
| LoweringProperties.OperatorTable | libsnel/atree.py:131-147 | the six tokens map one-to-one onto the six symbols; an operator lowers exactly when its token is one of them; any other token raises "invalid binop" |
| LoweringProperties.OperatorSymbolInjective | libsnel/atree.py:131-147 | distinct tokens never lower to the same symbol |
| LoweringProperties.ParenthesisedExpr | libsnel/atree.py:169-176 | `( expr )` lowers exactly as the inner expression; a parenthesised list raises "unimplemented" |
| LoweringProperties.BinaryExpr | libsnel/atree.py:177-181 | `left op right` lowers exactly when all three parts do, to `binop_expr(op, left, right)` in that order; a failing left side is reported first |
| LoweringProperties.BinaryExprShape | libsnel/atree.py:181 | a lowered `binop_expr` has three children, the first a `binop` with one of the six symbols |
| LoweringProperties.IntegerLiteral | libsnel/atree.py:157-158 | an integer literal written as `str(i)` lowers to the integer `i` |
| LoweringProperties.StringLiteralKeepsClosingQuote | libsnel/atree.py:161-162 | `"s"` lowers to `s"`: the opening quote is removed, the closing one is kept |
| LoweringProperties.CharLiteralValueIsChar | libsnel/atree.py:163-164 | `'c'` lowers to the single character `c` |
| LoweringProperties.ParamsAreMap | libsnel/atree.py:203-210 | the parameter loop skips every child that is not a `Sequence` and lowers the others in turn, stopping at the first failure |
| LoweringProperties.ParamsLowerExactly | libsnel/atree.py:203-210 | the parameters lower exactly when every `Sequence` child does; the other children are never read |
| LoweringProperties.ParamsInOrder | libsnel/atree.py:203-210 | the lowered parameters are one per `Sequence` child, in order, each that child's lowering |
| LoweringProperties.ParamForm | libsnel/atree.py:205-210 | a lowered parameter passed its three name checks (`r_identifier`, `t_colon`, `s_expr`) and is the identifier's text paired with the lowered type |
| LoweringProperties.FnDeclLayout | libsnel/atree.py:199-214 | a lowered declaration passed its four shape checks (`(`, a `List`, `)`, `s_expr`); it has the lowered return type as its only child, and one parameter pair per `Sequence` child, in order |
| LoweringProperties.EntriesInOrder | libsnel/atree.py:246-258 | the scope entries lower exactly when each entry does, and then one child per entry, in order |
| LoweringProperties.ScopeLayout | libsnel/atree.py:241-259 | a lowered scope is an `s_scope` opening with `{`, and has exactly one child per `;`-terminated entry, in order |
| LoweringProperties.ScopeIgnoresTrailing | libsnel/atree.py:241-259 | the trailing expression and the closing brace never affect a scope's lowering |
| LoweringProperties.VarDecLayout | libsnel/atree.py:217-221 | a declaration without exactly three children fails to unpack; otherwise it lowers exactly when its type does, to `var_declaration` of the first child's text as a name and the lowered type |
| LoweringProperties.VarDefLayout | libsnel/atree.py:224-229 | a definition without exactly five children fails to unpack; a failing type is reported before the value; it lowers exactly when type and value do, to `var_definition` of the name, the type and the value, from the first, third and fifth children |
| LoweringProperties.VarAssLayout | libsnel/atree.py:232-238 | an assignment lowers exactly when its first three children are `s_name`, `t_equal` and `s_expr` and both the name and the expression lower; it is then `var_assignment` of the lowered name and the lowered expression |
| LoweringProperties.FnDefLayout | libsnel/atree.py:262-278 | a lowered definition passed all five name checks; it is `fn_def` of the lowered declaration and the lowered scope, in that order, carrying the identifier's text |
| LoweringProperties.EachIsMap | libsnel/atree.py:115 | the comprehension lowers the module body's entries in turn through the dispatch, stopping at the first failure |
| LoweringProperties.EachLowersExactly | libsnel/atree.py:115 | a module body lowers exactly when every entry does |
| LoweringProperties.EachInOrder | libsnel/atree.py:115 | the lowered body has one node per entry, each that entry's lowering, in order |
| LoweringProperties.ModuleLayout | libsnel/atree.py:110-115 | a lowered module passed its three name checks; it is a `module` carrying `name(identifier)`, with one child per body entry, each that entry's lowering through the dispatch, in order |
| LoweringProperties.StatementDispatch | libsnel/atree.py:248-258 | each of the four statement rules goes to its handler; any other rule raises "invalid scope" |
| LoweringProperties.ImportKeepsOnlyName | libsnel/atree.py:100-107 | a lowered import passed its `s_import`, `k_import` and `r_identifier` checks and is exactly `import(name(identifier))` |
| LoweringProperties.ImportIgnoresPath | libsnel/atree.py:100-107 | an import's lowering reads only its first two children, so the `from` path is never kept |
| LoweringProperties.ImportsAreMap | libsnel/atree.py:285-286 | the import loop lowers each import in turn, stopping at the first failure |
| LoweringProperties.ImportsLowerExactly | libsnel/atree.py:285-286 | a file's imports lower exactly when every import does |
| LoweringProperties.ImportsInOrder | libsnel/atree.py:285-286 | the lowered imports are one per import, each that import's lowering, in order |
| LoweringProperties.ModulesAreMap | libsnel/atree.py:289-290 | the module loop lowers each module in turn, stopping at the first failure |
| LoweringProperties.ModulesLowerExactly | libsnel/atree.py:289-290 | a file's modules lower exactly when every module does |
| LoweringProperties.ModulesInOrder | libsnel/atree.py:289-290 | the lowered modules are one per module, each that module's lowering, in order |
| LoweringProperties.StartChildren | libsnel/atree.py:281-292 | a lowered file's children are the lowered imports followed by the lowered modules |
| LoweringProperties.FileImports | libsnel/atree.py:284-286 | the first children of a file are its imports, position by position |
| LoweringProperties.FileModules | libsnel/atree.py:288-290 | the modules follow the imports, position by position |
| LoweringProperties.FileParts | libsnel/atree.py:284-290 | children made of the lowered imports and then the lowered modules hold each import's lowering at its position, then each module's |
| LoweringProperties.SrcFileLayout | libsnel/atree.py:281-292 | a file has one child per import, then one per module, each in source order |
| LoweringProperties.AnyDispatch | libsnel/atree.py:295-310 | each of the six rules goes to its handler; any other rule raises `UNHANDLED: '<rule>'`; a nameless element raises a missing-name error |
| Backend.IsRegister | libsnel/backend.py:8-22 | `is_register(r)` holds exactly when `r` is one of the 32 names of the table: a 64-bit name or one of its three aliases |
| Backend.RegisterTable | libsnel/backend.py:18-22 | looking a name up row by row finds it exactly when it is one of the 32 listed names |
| Backend.NotInRows | libsnel/backend.py:18-22 | no name made of `r` and a digit is in any row of the table |
| Backend.ExtendedRegistersExcluded | libsnel/backend.py:8-22 | `r8`, `r9` and `r10` are not registers to `is_register` |
| Backend.WBuffer.constructor | libsnel/backend.py:26-27 | a new buffer is empty |
| Backend.WBuffer.Write | libsnel/backend.py:29-30 | a call appends the values joined by `sep`, then `end` |
| Backend.WBuffer.Replace | libsnel/backend.py:35-36 | the buffer becomes its old text with every occurrence replaced |
| Backend.SyscallConvention | libsnel/backend.py:69-74 | up to six arguments give `mov rax, nr`, then the `k`-th argument moved into the `k`-th of rdi, rsi, rdx, r10, r8, r9, then `syscall` |
| Backend.SyscallOverflow | libsnel/backend.py:69-74 | more than six arguments give the `rax` move and exactly six argument moves |
| Backend.SyscallOverflowOmitsSyscall | libsnel/backend.py:69-74 | more than six arguments leave no `syscall` line |
| Backend.MovesAppend | libsnel/backend.py:72-73 | one more argument adds its move after the others |
| Backend.FunctionListingLines | libsnel/backend.py:79-86 | a rendered function has one line per instruction after `name:`: a label as written, anything else indented by four spaces |
| Backend.Function.constructor | libsnel/backend.py:42-44 | a new function has its name and no code |
| Backend.Function.AddCode | libsnel/backend.py:46-47 | the instruction is appended |
| Backend.Function.AddLabel | libsnel/backend.py:49-50 | `.name:` is appended |
| Backend.Function.Op2 | libsnel/backend.py:52-55 | the instruction `op a, b` is appended exactly when `op` is one of the eight two-operand mnemonics; otherwise an exception and no change |
| Backend.Function.OpRet | libsnel/backend.py:57-58 | `ret` is appended |
| Backend.Function.OpPush | libsnel/backend.py:60-61 | `push src` is appended |
| Backend.Function.OpPop | libsnel/backend.py:63-64 | `pop dst` is appended |
| Backend.Function.OpMov | libsnel/backend.py:66-67 | `mov dst, src` is appended |
| Backend.Function.OpSyscall | libsnel/backend.py:69-74 | succeeds exactly when there are at most six arguments, otherwise an index error; the code grows by the syscall lines |
| Backend.Function.OpSyscallWrite | libsnel/backend.py:76-77 | appends `mov rax, 1`, the three arguments into rdi, rsi, rdx, and `syscall` |
| Backend.Function.Fasm | libsnel/backend.py:79-86 | the loop builds exactly the rendered listing of the function |
| Backend.NewConstant | libsnel/backend.py:90-94 | the length is the data's length; a missing or empty `asm` falls back to the data |
| Backend.ConstantLine | libsnel/backend.py:96-97 | a constant's line, read back at its spaces, gives the constant's name, `db` and the words of its `asm` |
| Backend.ConstantLineParts | libsnel/backend.py:96-97 | a `db` line whose name holds no space splits into the name, `db` and the words of the data |
| Backend.FirstIndex | libsnel/backend.py:118-124 | the first position holding the name, or none exactly when no position does |
| Backend.FirstIndexIs | libsnel/backend.py:118-124 | an occurrence with no earlier occurrence is the one found |
| Backend.LookupFails | libsnel/backend.py:118-125 | the lookup fails with `NameError(name)` exactly when neither the functions nor the constants have the name |
| Backend.LookupFunction | libsnel/backend.py:119-121 | functions are searched first, and the earliest function with the name is returned |
| Backend.LookupConstant | libsnel/backend.py:122-124 | with no function of that name, the earliest constant with the name is returned |
| Backend.Listings | libsnel/backend.py:142-143 | one rendered listing per function, in order |
| Backend.LinesAppend | libsnel/backend.py:29-30 | writing one more line appends it and a newline |
| Backend.LinesConcat | libsnel/backend.py:134-147 | writing two groups of lines gives the first group's text, then the second's |
| Backend.WriteLine | libsnel/backend.py:29-30 | a one-value call of the buffer writes that value and a newline |
| Backend.LinesAsJoin | libsnel/backend.py:134-152 | newline-terminated lines are the lines joined by newlines, plus a final newline |
| Backend.LinesSplit | libsnel/backend.py:134-152 | lines without newlines split back into themselves, followed by one empty string |
| Backend.HeaderText | libsnel/backend.py:137-141 | the listing starts with `format ELF64 executable`, then `entry <name>` exactly when an entry point is set, then the executable segment |
| Backend.ListingLayout | libsnel/backend.py:134-147 | the listing is the header, every function, `segment readable writable`, then every constant, each line ending in a newline |
| Backend.BackpatchNoPlaceholders | libsnel/backend.py:149-150 | backpatching text that holds no constant's placeholder changes nothing |
| Backend.BackpatchOne | libsnel/backend.py:149-150 | a single placeholder `$$name.len$$` becomes the constant's length in decimal |
| Backend.Module.constructor | libsnel/backend.py:106-110 | a new module has no functions, no constants and no entry point |
| Backend.Module.AddFunction | libsnel/backend.py:112-113 | the function is appended; nothing else changes |
| Backend.Module.AddConstant | libsnel/backend.py:115-116 | the constant is appended; nothing else changes |
| Backend.Module.FindSymbol | libsnel/backend.py:118-125 | the two search loops return exactly the lookup's result, errors included |
| Backend.Module.SetEntryPoint | libsnel/backend.py:127-132 | a function becomes the entry point; a constant or an unknown name fails and leaves the entry point unchanged; the entry point stays one of the module's functions |
| Backend.Module.EmitHeader | libsnel/backend.py:137-141 | the buffer grows by the header lines |
| Backend.Module.EmitFunctions | libsnel/backend.py:142-143 | the buffer grows by every function's listing, in order |
| Backend.Module.EmitConstants | libsnel/backend.py:146-147 | the buffer grows by every constant's line, in order |
| Backend.Module.FillLengths | libsnel/backend.py:149-150 | the buffer becomes the old text with every constant's length substituted, constant by constant |
| Backend.Module.EmitSegments | libsnel/backend.py:142-147 | the buffer grows by the functions, the writable segment line, and the constants |
| Backend.Module.EmitListing | libsnel/backend.py:137-147 | the buffer grows by the whole listing before backpatching |
| Backend.Module.Fasm | libsnel/backend.py:134-152 | the result is the listing, backpatched with every constant's length |

## Left out

- `Module.compile` (writing the file, running `fasm` and `chmod`, removing the listing): file-system and process I/O.
- `view_parse_tree`, `dump` and `AstNode.export`: JSON output to files. The debugging `dump("dbg0.json", n)` before "invalid binop" is one of these; only its exception is modelled.
- `AstNode.__str__`: display only, not used by lowering or the backend.
- `WBuffer.__str__`: modelled by reading the `buf` field directly.
- `libsnel/grammar.py` and the pyleri parsing engine are not part of this model. The parse tree is taken as given, as a `CNode`.
- `float()` on a float literal: floating point is not modelled. The literal's text is kept as an opaque payload, so an `r_float` node whose text `float()` would reject lowers here instead of raising.
- `Text.ParseInt` (the model of `int()`) accepts only an optional `-` followed by decimal digits. Python's `int()` also accepts a leading `+`, surrounding whitespace and `_` separators. Every other text is `NotAnInteger`.
- `Lowering.LowerName`: `n.string` of the `List` children is taken as each node's matched text. The delimiter nodes the engine reports among them are joined like the other children, as in the source.
- LoweringProperties.NameForms: the split round trip covers only lists whose children hold no `.`, that is one-segment names. A name of several segments keeps its `.` delimiter children, so its value is the segments joined by `...` (`DottedNameKeepsDelimiters`) and does not split back into the segments at `.`.
- The bare Python `assert` statements of `ex_s_module` and `ex_s_start` (atree.py:111-114, 283, 288) are skipped when Python runs with `-O`. The model always evaluates them and fails with `AssertionFailed`, as a run without `-O` does.
- `Backend.Module.AddFunction`, `Backend.Module.AddConstant`, `Backend.Module.SetEntryPoint`: they require the class invariant `Valid()` (the entry point is one of the module's functions). The source states no precondition; every method of the class keeps the invariant.
- `Backend.Symbol`: the source's `type(fn) == Function` test becomes a match on which list the symbol came from. Object identity and aliasing of `Function` objects shared between modules are not modelled.
