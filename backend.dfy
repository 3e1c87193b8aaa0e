/**
 * The assembly backend: the register table, the text buffer, functions as
 * growing lists of instruction lines, constants, and a module that renders
 * itself as one flat-assembler listing and then fills in the length of every
 * constant wherever `$$name.len$$` occurs.
 */
module Backend {
  import opened Wrappers
  import opened Errors
  import opened Text

  // ---------------------------------------------------------------- registers

  /** Each 64-bit register with its lower 32-, 16- and 8-bit names. */
  const Registers: seq<(string, seq<string>)> := [
    ("rax", ["eax", "ax", "al"]),
    ("rbx", ["ebx", "bx", "bl"]),
    ("rcx", ["ecx", "cx", "cl"]),
    ("rdx", ["edx", "dx", "dl"]),
    ("rsi", ["esi", "si", "sil"]),
    ("rdi", ["edi", "di", "dil"]),
    ("rbp", ["ebp", "bp", "bpl"]),
    ("rsp", ["esp", "sp", "spl"])
  ]

  /** `r` names a register of the `i`-th row of the table or of a later one, looked up row by row. */
  predicate InRows(r: string, i: nat)
    decreases |Registers| - i
  {
    i < |Registers| && (r == Registers[i].0 || r in Registers[i].1 || InRows(r, i + 1))
  }

  /** `is_register`: the name is a register or one of its aliases. */
  predicate IsRegister(r: string): (b: bool)
    ensures b <==> r in RegisterNames
  {
    RegisterTable(r);
    InRows(r, 0)
  }

  /** The 64-bit name and the three aliases of one row. */
  function RowNames(i: nat): set<string>
    requires i < |Registers|
  {
    {Registers[i].0, Registers[i].1[0], Registers[i].1[1], Registers[i].1[2]}
  }

  /** The 32 names of the eight registers and their aliases. */
  const RegisterNames: set<string> := {
    "rax", "eax", "ax", "al", "rbx", "ebx", "bx", "bl",
    "rcx", "ecx", "cx", "cl", "rdx", "edx", "dx", "dl",
    "rsi", "esi", "si", "sil", "rdi", "edi", "di", "dil",
    "rbp", "ebp", "bp", "bpl", "rsp", "esp", "sp", "spl"
  }

  /** One row of the lookup: the row's four names, or a later row. */
  lemma RowStep(r: string, i: nat)
    requires i < |Registers|
    ensures InRows(r, i) <==> r in RowNames(i) || InRows(r, i + 1)
  {
    assert |Registers[i].1| == 3;
  }

  /**
   * The row-by-row lookup finds a name exactly when it is one of the 32
   * listed names.
   */
  lemma RegisterTable(r: string)
    ensures InRows(r, 0) <==> r in RegisterNames
  {
    RowsListed(r);
  }

  /** The lookup tries the eight rows, and no row follows the last. */
  lemma RowsListed(r: string)
    ensures InRows(r, 0) <==>
      || r in RowNames(0) || r in RowNames(1) || r in RowNames(2) || r in RowNames(3)
      || r in RowNames(4) || r in RowNames(5) || r in RowNames(6) || r in RowNames(7)
  {
    RowStep(r, 0);
    RowStep(r, 1);
    RowStep(r, 2);
    RowStep(r, 3);
    RowStep(r, 4);
    RowStep(r, 5);
    RowStep(r, 6);
    RowStep(r, 7);
    assert !InRows(r, 8);
  }

  /** `r8`, `r9` and `r10` carry syscall arguments but are not in the register table. */
  lemma ExtendedRegistersExcluded()
    ensures !IsRegister("r8") && !IsRegister("r9") && !IsRegister("r10")
  {
    NotInRows("r8", 0);
    NotInRows("r9", 0);
    NotInRows("r10", 0);
  }

  /** No row from the `i`-th on holds a name `r` followed by a digit. */
  lemma {:induction false} NotInRows(r: string, i: nat)
    requires |r| >= 2 && r[0] == 'r' && '0' <= r[1] <= '9'
    ensures !InRows(r, i)
    decreases |Registers| - i
  {
    if i < |Registers| {
      RowStep(r, i);
      assert r !in RowNames(i) by {
        var row := Registers[i];
        assert row.0[1] !in "0123456789";
        assert row.1[0][0] != 'r' && row.1[1][0] != 'r' && row.1[2][0] != 'r';
      }
      NotInRows(r, i + 1);
    }
  }

  // ------------------------------------------------------------------ buffer

  /** The text buffer a listing is written into. */
  class WBuffer {
    var buf: string

    constructor()
      ensures buf == ""
    {
      buf := "";
    }

    /** `__call__`: the values joined with `sep`, then `end`. */
    method Write(values: seq<string>, sep: string, end: string)
      modifies this
      ensures buf == old(buf) + Join(values, sep) + end
    {
      buf := buf + Join(values, sep) + end;
    }

    /** Every occurrence of `pattern` replaced, as `str.replace` does. */
    method Replace(pattern: string, replacement: string)
      modifies this
      ensures buf == ReplaceAll(old(buf), pattern, replacement)
    {
      buf := ReplaceAll(buf, pattern, replacement);
    }
  }

  // ---------------------------------------------------------------- functions

  /** The operations `op_2` accepts. */
  const TwoOperandOps: set<string> := {"mov", "add", "sub", "div", "mul", "or", "xor", "and"}

  /** The registers that carry syscall arguments, in the Linux x86-64 order. */
  const SyscallRegisters: seq<string> := ["rdi", "rsi", "rdx", "r10", "r8", "r9"]

  /** A syscall argument: a string or an integer, written out with `str`. */
  datatype Arg = Str(text: string) | Num(number: int)

  function ArgText(a: Arg): string
  {
    match a
    case Str(t) => t
    case Num(n) => IntToString(n)
  }

  /** The line of a two-operand instruction. */
  function Instruction(op: string, a: string, b: string): string
  {
    op + " " + a + ", " + b
  }

  /** The line of a label. */
  function Label(name: string): string
  {
    "." + name + ":"
  }

  /** One argument move per argument, into the syscall registers in order. */
  function SyscallMoves(args: seq<Arg>): seq<string>
    requires |args| <= |SyscallRegisters|
  {
    seq(|args|, k requires 0 <= k < |args| => Instruction("mov", SyscallRegisters[k], ArgText(args[k])))
  }

  /**
   * The lines `op_syscall` appends: the number into `rax`, the arguments into
   * the argument registers, then `syscall`; with more than six arguments only
   * the first seven moves, because the seventh argument has no register.
   */
  function SyscallLines(nr: int, args: seq<Arg>): seq<string>
  {
    if |args| <= |SyscallRegisters| then
      [Instruction("mov", "rax", IntToString(nr))] + SyscallMoves(args) + ["syscall"]
    else
      [Instruction("mov", "rax", IntToString(nr))] + SyscallMoves(args[..|SyscallRegisters|])
  }

  /**
   * At most six arguments give |args| + 2 lines: `mov rax, nr`, the `k`-th
   * argument into the `k`-th register of rdi, rsi, rdx, r10, r8, r9, and
   * `syscall` last.
   */
  lemma SyscallConvention(nr: int, args: seq<Arg>)
    requires |args| <= 6
    ensures var lines := SyscallLines(nr, args);
            && |lines| == |args| + 2
            && lines[0] == "mov rax, " + IntToString(nr)
            && lines[|args| + 1] == "syscall"
            && forall k :: 0 <= k < |args| ==>
                 lines[k + 1] == "mov " + ["rdi", "rsi", "rdx", "r10", "r8", "r9"][k] + ", " + ArgText(args[k])
  {
    var lines := SyscallLines(nr, args);
    assert SyscallRegisters == ["rdi", "rsi", "rdx", "r10", "r8", "r9"];
    forall k | 0 <= k < |args|
      ensures lines[k + 1] == "mov " + SyscallRegisters[k] + ", " + ArgText(args[k])
    {
      assert lines[k + 1] == SyscallMoves(args)[k];
      MoveText(SyscallRegisters[k], ArgText(args[k]));
    }
    MoveText("rax", IntToString(nr));
  }

  /** One more argument adds its move after the others. */
  lemma MovesAppend(args: seq<Arg>, c: nat)
    requires c < |args| && c < |SyscallRegisters|
    ensures SyscallMoves(args[..c + 1]) == SyscallMoves(args[..c]) + [Instruction("mov", SyscallRegisters[c], ArgText(args[c]))]
  {
  }

  /** More than six arguments give the `rax` move and six argument moves. */
  lemma SyscallOverflow(nr: int, args: seq<Arg>)
    requires |args| > 6
    ensures var lines := SyscallLines(nr, args);
            && |lines| == 7
            && lines[0] == "mov rax, " + IntToString(nr)
            && (forall k :: 0 <= k < 6 ==> lines[k + 1] == "mov " + SyscallRegisters[k] + ", " + ArgText(args[k]))
  {
    var lines := SyscallLines(nr, args);
    var moves := SyscallMoves(args[..6]);
    assert |SyscallRegisters| == 6;
    assert lines == [Instruction("mov", "rax", IntToString(nr))] + moves;
    forall k | 0 <= k < 6
      ensures lines[k + 1] == "mov " + SyscallRegisters[k] + ", " + ArgText(args[k])
    {
      assert lines[k + 1] == moves[k];
      MoveText(SyscallRegisters[k], ArgText(args[k]));
    }
    MoveText("rax", IntToString(nr));
  }

  /** With more than six arguments no `syscall` line is emitted at all. */
  lemma SyscallOverflowOmitsSyscall(nr: int, args: seq<Arg>)
    requires |args| > 6
    ensures "syscall" !in SyscallLines(nr, args)
  {
    var lines := SyscallLines(nr, args);
    var moves := SyscallMoves(args[..6]);
    assert |SyscallRegisters| == 6;
    assert lines == [Instruction("mov", "rax", IntToString(nr))] + moves;
    forall k | 0 <= k < |lines| ensures lines[k] != "syscall" {
      if k == 0 {
        MoveIsNotSyscall("rax", IntToString(nr));
      } else {
        assert lines[k] == moves[k - 1];
        MoveIsNotSyscall(SyscallRegisters[k - 1], ArgText(args[k - 1]));
      }
    }
  }

  /** The text of a move: `mov dst, src`. */
  lemma MoveText(dst: string, src: string)
    ensures Instruction("mov", dst, src) == "mov " + dst + ", " + src
  {
    AppendAssoc("mov", " ", dst);
  }

  /** A move line starts with `m`, so it is never the `syscall` line. */
  lemma MoveIsNotSyscall(dst: string, src: string)
    ensures Instruction("mov", dst, src) != "syscall"
  {
    assert Instruction("mov", dst, src)[0] == 'm';
  }

  /** How `fasm` writes one instruction line: labels flush left, the rest indented by four spaces. */
  function FunctionLine(inst: string): string
  {
    if "." <= inst then inst else "    " + inst
  }

  function FunctionLines(code: seq<string>): seq<string>
  {
    seq(|code|, k requires 0 <= k < |code| => FunctionLine(code[k]))
  }

  /** `Function.fasm`: the `name:` line, then one line per instruction, separated by newlines. */
  function RenderFunction(name: string, code: seq<string>): string
  {
    Join([name + ":"] + FunctionLines(code), "\n")
  }

  /**
   * When neither the name nor any instruction holds a newline, the rendered
   * function has 1 + |code| lines: `name:` first, and then each instruction in
   * order, a label as written and anything else behind four spaces.
   */
  lemma FunctionListingLines(name: string, code: seq<string>)
    requires '\n' !in name
    requires forall k :: 0 <= k < |code| ==> '\n' !in code[k]
    ensures var lines := Split(RenderFunction(name, code), '\n');
            && |lines| == 1 + |code|
            && lines[0] == name + ":"
            && forall k :: 0 <= k < |code| ==>
                 lines[k + 1] == (if |code[k]| > 0 && code[k][0] == '.' then code[k] else "    " + code[k])
  {
    var parts := [name + ":"] + FunctionLines(code);
    forall k | 0 <= k < |parts| ensures '\n' !in parts[k] {
      if k > 0 {
        assert parts[k] == FunctionLine(code[k - 1]);
        if !("." <= code[k - 1]) {
          assert forall j :: 0 <= j < |parts[k]| ==> parts[k][j] == ("    " + code[k - 1])[j];
        }
      }
    }
    SplitJoin(parts, '\n');
    forall k | 0 <= k < |code| ensures ("." <= code[k]) <==> (|code[k]| > 0 && code[k][0] == '.') {
      if |code[k]| > 0 && code[k][0] == '.' {
        assert code[k][..1] == ".";
      }
    }
  }

  /** A function under construction: its name and the instruction lines emitted so far. */
  class Function {
    const name: string
    var code: seq<string>

    constructor(name: string)
      ensures this.name == name && code == []
    {
      this.name := name;
      code := [];
    }

    /** `add_code`. */
    method AddCode(inst: string)
      modifies this
      ensures code == old(code) + [inst]
    {
      code := code + [inst];
    }

    /** `add_labl`: a `.name:` line. */
    method AddLabel(labelName: string)
      modifies this
      ensures code == old(code) + [Label(labelName)]
    {
      AddCode(Label(labelName));
    }

    /** `op_2`: one `op a, b` line for an allowed operation; any other operation fails and emits nothing. */
    method Op2(op: string, a: string, b: string) returns (o: Outcome<Error>)
      modifies this
      ensures o.Pass? <==> op in TwoOperandOps
      ensures o.Pass? ==> code == old(code) + [Instruction(op, a, b)]
      ensures o.Fail? ==> o.error == Raised("") && code == old(code)
    {
      if op !in TwoOperandOps {
        return Fail(Raised(""));
      }
      AddCode(Instruction(op, a, b));
      o := Pass;
    }

    /** `op_ret`. */
    method OpRet()
      modifies this
      ensures code == old(code) + ["ret"]
    {
      AddCode("ret");
    }

    /** `op_push`. */
    method OpPush(src: string)
      modifies this
      ensures code == old(code) + ["push " + src]
    {
      AddCode("push " + src);
    }

    /** `op_pop`. */
    method OpPop(dst: string)
      modifies this
      ensures code == old(code) + ["pop " + dst]
    {
      AddCode("pop " + dst);
    }

    /** `op_mov`: always an allowed operation, so it always emits its line. */
    method OpMov(dst: string, src: string)
      modifies this
      ensures code == old(code) + [Instruction("mov", dst, src)]
    {
      var o := Op2("mov", dst, src);
    }

    /**
     * `op_syscall`: the lines of `SyscallLines`; with more than six arguments
     * it fails on the seventh, after its moves before it are already emitted.
     */
    method OpSyscall(nr: int, args: seq<Arg>) returns (o: Outcome<Error>)
      modifies this
      ensures o.Pass? <==> |args| <= |SyscallRegisters|
      ensures o.Fail? ==> o.error == IndexOutOfRange
      ensures code == old(code) + SyscallLines(nr, args)
    {
      OpMov("rax", IntToString(nr));
      ghost var prefix := code;
      assert SyscallMoves(args[..0]) == [];
      assert |SyscallRegisters| == 6;
      var c := 0;
      while c < |args|
        invariant 0 <= c <= |args| && c <= 6
        invariant code == prefix + SyscallMoves(args[..c])
      {
        if c == 6 {
          assert args[..|SyscallRegisters|] == args[..c];
          AppendAssoc(old(code), [Instruction("mov", "rax", IntToString(nr))], SyscallMoves(args[..c]));
          return Fail(IndexOutOfRange);
        }
        OpMov(SyscallRegisters[c], ArgText(args[c]));
        MovesAppend(args, c);
        AppendAssoc(prefix, SyscallMoves(args[..c]), [Instruction("mov", SyscallRegisters[c], ArgText(args[c]))]);
        c := c + 1;
      }
      assert args[..c] == args;
      AddCode("syscall");
      AppendAssoc(old(code), [Instruction("mov", "rax", IntToString(nr))], SyscallMoves(args));
      AppendAssoc(old(code) + [Instruction("mov", "rax", IntToString(nr))], SyscallMoves(args), ["syscall"]);
      AppendAssoc(old(code), [Instruction("mov", "rax", IntToString(nr))] + SyscallMoves(args), ["syscall"]);
      o := Pass;
    }

    /** `op_syscall_write`: syscall 1 with the descriptor, the buffer and its length. */
    method OpSyscallWrite(fd: Arg, buff: Arg, buffLen: Arg)
      modifies this
      ensures code == old(code) + [
                "mov rax, 1",
                "mov rdi, " + ArgText(fd),
                "mov rsi, " + ArgText(buff),
                "mov rdx, " + ArgText(buffLen),
                "syscall"]
    {
      var o := OpSyscall(1, [fd, buff, buffLen]);
      assert IntToString(1) == "1";
      assert |SyscallRegisters| == 6;
      assert SyscallLines(1, [fd, buff, buffLen])
          == [Instruction("mov", "rax", "1")] + SyscallMoves([fd, buff, buffLen]) + ["syscall"];
      assert Instruction("mov", "rax", "1") == "mov rax, 1";
      assert Instruction("mov", "rdi", ArgText(fd)) == "mov rdi, " + ArgText(fd);
      assert Instruction("mov", "rsi", ArgText(buff)) == "mov rsi, " + ArgText(buff);
      assert Instruction("mov", "rdx", ArgText(buffLen)) == "mov rdx, " + ArgText(buffLen);
      assert SyscallMoves([fd, buff, buffLen]) == [
        Instruction("mov", "rdi", ArgText(fd)),
        Instruction("mov", "rsi", ArgText(buff)),
        Instruction("mov", "rdx", ArgText(buffLen))];
    }

    /** `fasm`: the function's listing. */
    method Fasm() returns (s: string)
      ensures s == RenderFunction(name, code)
    {
      s := name + ":";
      var i := 0;
      while i < |code|
        invariant 0 <= i <= |code|
        invariant s == Join([name + ":"] + FunctionLines(code[..i]), "\n")
      {
        var inst := code[i];
        ghost var before := s;
        ghost var done := [name + ":"] + FunctionLines(code[..i]);
        if "." <= inst {
          s := s + "\n" + inst;
        } else {
          s := s + "\n" + "    " + inst;
          AppendAssoc(before + "\n", "    ", inst);
        }
        assert s == before + "\n" + FunctionLine(inst);
        JoinAppend(done, FunctionLine(inst), "\n");
        assert FunctionLines(code[..i + 1]) == FunctionLines(code[..i]) + [FunctionLine(inst)];
        AppendAssoc([name + ":"], FunctionLines(code[..i]), [FunctionLine(inst)]);
        i := i + 1;
      }
      assert code[..i] == code;
    }
  }

  // ---------------------------------------------------------------- constants

  /** A named piece of data, its length, and how it is written in the listing. */
  datatype Constant = Constant(name: string, data: string, length: nat, asm: string)

  /** `Constant(name, data, asm)`: the length is the data's, and a missing or empty `asm` falls back to the data. */
  function NewConstant(name: string, data: string, asm: Option<string>): (c: Constant)
    ensures c.name == name && c.data == data && c.length == |data|
    ensures asm.None? || asm == Some("") ==> c.asm == data
    ensures asm.Some? && asm.value != "" ==> c.asm == asm.value
  {
    var text := if asm.Some? && asm.value != "" then asm.value else data;
    Constant(name, data, |data|, text)
  }

  /**
   * `Constant.fasm`: the line `name db asm`, which, read back at its spaces,
   * gives the name, `db`, and the words of the data.
   */
  function ConstantLine(c: Constant): (line: string)
    ensures ' ' !in c.name ==> Split(line, ' ') == [c.name, "db"] + Split(c.asm, ' ')
  {
    ConstantLineParts(c.name, c.asm);
    c.name + " db " + c.asm
  }

  /** A `db` line whose name has no space splits at its spaces into the name, `db`, and the data's words. */
  lemma ConstantLineParts(name: string, asm: string)
    ensures ' ' !in name ==> Split(name + " db " + asm, ' ') == [name, "db"] + Split(asm, ' ')
  {
    if ' ' !in name {
      var rest := "db" + [' '] + asm;
      assert name + " db " + asm == name + [' '] + rest by {
        assert " db " == [' '] + "db" + [' '];
        AppendAssoc(name, [' '] + "db" + [' '], asm);
        AppendAssoc(name, [' '], "db" + [' '] + asm);
      }
      SplitAtSeparator(name, ' ', rest);
      SplitAtSeparator("db", ' ', asm);
      assert [name] + (["db"] + Split(asm, ' ')) == [name, "db"] + Split(asm, ' ');
    }
  }

  // ------------------------------------------------------------------ modules

  /** What a symbol name resolves to. */
  datatype Symbol = FunctionSymbol(fn: Function) | ConstantSymbol(cn: Constant)

  /** The position of the first occurrence of `name`, if there is one. */
  function FirstIndex(names: seq<string>, name: string): (r: Option<nat>)
    ensures r.None? <==> name !in names
    ensures r.Some? ==> r.value < |names| && names[r.value] == name
    ensures r.Some? ==> forall j :: 0 <= j < r.value ==> names[j] != name
  {
    if |names| == 0 then None
    else if names[0] == name then Some(0)
    else match FirstIndex(names[1..], name)
      case None => None
      case Some(i) => Some(i + 1)
  }

  function FunctionNames(fs: seq<Function>): seq<string>
  {
    seq(|fs|, k requires 0 <= k < |fs| => fs[k].name)
  }

  function ConstantNames(cs: seq<Constant>): seq<string>
  {
    seq(|cs|, k requires 0 <= k < |cs| => cs[k].name)
  }

  /** Symbol lookup: the first function with the name, else the first constant, else an unknown-name error. */
  function Lookup(fs: seq<Function>, cs: seq<Constant>, name: string): Result<Symbol, Error>
  {
    match FirstIndex(FunctionNames(fs), name)
    case Some(i) => Ok(FunctionSymbol(fs[i]))
    case None =>
      match FirstIndex(ConstantNames(cs), name)
      case Some(i) => Ok(ConstantSymbol(cs[i]))
      case None => Err(UnknownSymbol(name))
  }

  /** An occurrence with no earlier occurrence is the first one. */
  lemma FirstIndexIs(names: seq<string>, name: string, i: nat)
    requires i < |names| && names[i] == name
    requires forall j :: 0 <= j < i ==> names[j] != name
    ensures FirstIndex(names, name) == Some(i)
  {
    var k := FirstIndex(names, name).value;
    assert !(k < i) && !(i < k);
  }

  /** The lookup fails, naming the symbol, exactly when neither list has the name. */
  lemma LookupFails(fs: seq<Function>, cs: seq<Constant>, name: string)
    ensures Lookup(fs, cs, name).Err? <==>
              (forall i :: 0 <= i < |fs| ==> fs[i].name != name) && (forall i :: 0 <= i < |cs| ==> cs[i].name != name)
    ensures Lookup(fs, cs, name).Err? ==> Lookup(fs, cs, name).error == UnknownSymbol(name)
  {
    var fnames := FunctionNames(fs);
    var cnames := ConstantNames(cs);
    if name in fnames {
      var k :| 0 <= k < |fnames| && fnames[k] == name;
      assert fs[k].name == name;
    }
    if name in cnames {
      var k :| 0 <= k < |cnames| && cnames[k] == name;
      assert cs[k].name == name;
    }
    forall i | 0 <= i < |fs| && fs[i].name == name
      ensures name in fnames
    {
      assert fnames[i] == name;
    }
    forall i | 0 <= i < |cs| && cs[i].name == name
      ensures name in cnames
    {
      assert cnames[i] == name;
    }
  }

  /** Functions are searched first, and the earliest function with the name wins. */
  lemma LookupFunction(fs: seq<Function>, cs: seq<Constant>, name: string, i: nat)
    requires i < |fs| && fs[i].name == name
    requires forall j :: 0 <= j < i ==> fs[j].name != name
    ensures Lookup(fs, cs, name) == Ok(FunctionSymbol(fs[i]))
  {
    var fnames := FunctionNames(fs);
    forall j | 0 <= j < i
      ensures fnames[j] != name
    {
      assert fnames[j] == fs[j].name;
    }
    FirstIndexIs(fnames, name, i);
  }

  /** With no function of that name, the earliest constant with the name wins. */
  lemma LookupConstant(fs: seq<Function>, cs: seq<Constant>, name: string, i: nat)
    requires forall j :: 0 <= j < |fs| ==> fs[j].name != name
    requires i < |cs| && cs[i].name == name
    requires forall j :: 0 <= j < i ==> cs[j].name != name
    ensures Lookup(fs, cs, name) == Ok(ConstantSymbol(cs[i]))
  {
    var fnames := FunctionNames(fs);
    var cnames := ConstantNames(cs);
    forall j | 0 <= j < |fnames|
      ensures fnames[j] != name
    {
      assert fnames[j] == fs[j].name;
    }
    forall j | 0 <= j < i
      ensures cnames[j] != name
    {
      assert cnames[j] == cs[j].name;
    }
    FirstIndexIs(cnames, name, i);
  }

  /** `n` + "\n" for each line, in order. */
  function Lines(ls: seq<string>): string
  {
    if |ls| == 0 then "" else ls[0] + "\n" + Lines(ls[1..])
  }

  lemma {:induction false} LinesAppend(ls: seq<string>, last: string)
    ensures Lines(ls + [last]) == Lines(ls) + last + "\n"
    decreases |ls|
  {
    if |ls| > 0 {
      assert (ls + [last])[1..] == ls[1..] + [last];
      LinesAppend(ls[1..], last);
    }
  }

  lemma {:induction false} LinesConcat(a: seq<string>, b: seq<string>)
    ensures Lines(a + b) == Lines(a) + Lines(b)
    decreases |a|
  {
    if |a| > 0 {
      assert (a + b)[0] == a[0];
      assert (a + b)[1..] == a[1..] + b;
      LinesConcat(a[1..], b);
      calc {
        Lines(a + b);
        a[0] + "\n" + Lines(a[1..] + b);
        a[0] + "\n" + (Lines(a[1..]) + Lines(b));
        { AppendAssoc(a[0] + "\n", Lines(a[1..]), Lines(b)); }
        a[0] + "\n" + Lines(a[1..]) + Lines(b);
      }
    } else {
      assert a + b == b;
    }
  }

  /** Writing one more line after some lines gives those lines and it. */
  lemma WriteLine(start: string, done: seq<string>, line: string)
    ensures start + Lines(done) + Join([line], " ") + "\n" == start + Lines(done + [line])
  {
    LinesAppend(done, line);
    calc {
      start + Lines(done) + Join([line], " ") + "\n";
      start + Lines(done) + line + "\n";
      { AppendAssoc(start, Lines(done), line); }
      start + (Lines(done) + line) + "\n";
      { AppendAssoc(start, Lines(done) + line, "\n"); }
      start + (Lines(done) + line + "\n");
    }
  }

  /** Lines written after lines are the lines of both lists. */
  lemma LinesThen(start: string, a: seq<string>, b: seq<string>)
    ensures start + Lines(a) + Lines(b) == start + Lines(a + b)
  {
    LinesConcat(a, b);
    AppendAssoc(start, Lines(a), Lines(b));
  }

  /** Lines are the same text as their join with an empty last line. */
  lemma {:induction false} LinesAsJoin(ls: seq<string>)
    ensures Lines(ls) == Join(ls + [""], "\n")
    decreases |ls|
  {
    if |ls| > 0 {
      assert (ls + [""])[1..] == ls[1..] + [""];
      LinesAsJoin(ls[1..]);
    }
  }

  /** Text without newlines, written as lines, splits back into those lines and a final empty one. */
  lemma LinesSplit(ls: seq<string>)
    requires forall k :: 0 <= k < |ls| ==> '\n' !in ls[k]
    ensures Split(Lines(ls), '\n') == ls + [""]
  {
    LinesAsJoin(ls);
    SplitJoin(ls + [""], '\n');
  }

  /** The lines before the functions: the format, the entry point when one is set, the executable segment. */
  function Header(entry: Option<string>): seq<string>
  {
    ["format ELF64 executable"]
    + (if entry.Some? then ["entry " + entry.value] else [])
    + ["segment readable executable"]
  }

  /** The lines of the listing before backpatching, in output order. */
  function ListingLines(entry: Option<string>, functionTexts: seq<string>, constantLines: seq<string>): seq<string>
  {
    Header(entry) + functionTexts + ["segment readable writable"] + constantLines
  }

  /** The header has an `entry` line exactly when an entry point is set. */
  lemma HeaderText(entry: Option<string>)
    ensures entry.Some? ==>
              Lines(Header(entry)) == "format ELF64 executable\n" + "entry " + entry.value + "\n" + "segment readable executable\n"
    ensures entry.None? ==>
              Lines(Header(entry)) == "format ELF64 executable\n" + "segment readable executable\n"
  {
    var last := ["segment readable executable"];
    assert Lines(last) == "segment readable executable\n" by {
      assert last[1..] == [];
    }
    if entry.Some? {
      var h := Header(entry);
      assert h[1..] == ["entry " + entry.value] + last;
      assert h[1..][1..] == last;
    } else {
      assert Header(entry)[1..] == last;
    }
  }

  /**
   * The listing starts with the header, then the executable segment's
   * functions, then the writable segment with every constant, each line ended
   * by a newline.
   */
  lemma ListingLayout(entry: Option<string>, functionTexts: seq<string>, constantLines: seq<string>)
    ensures Lines(ListingLines(entry, functionTexts, constantLines))
            == Lines(Header(entry)) + Lines(functionTexts) + "segment readable writable\n" + Lines(constantLines)
  {
    var w := ["segment readable writable"];
    assert Lines(w) == "segment readable writable\n" by {
      assert w[1..] == [];
    }
    var h := Header(entry);
    var all := ListingLines(entry, functionTexts, constantLines);
    assert all == h + functionTexts + w + constantLines;
    AppendAssoc(h + functionTexts, w, constantLines);
    AppendAssoc(h, functionTexts, w + constantLines);
    assert all == h + (functionTexts + (w + constantLines));
    LinesConcat(h, functionTexts + (w + constantLines));
    LinesConcat(functionTexts, w + constantLines);
    LinesConcat(w, constantLines);
    var hs, fs, ws, cs := Lines(h), Lines(functionTexts), Lines(w), Lines(constantLines);
    assert Lines(all) == hs + (fs + (ws + cs));
    AppendAssoc(hs, fs, ws + cs);
    AppendAssoc(hs + fs, ws, cs);
  }

  /** The placeholder a constant's length replaces. */
  function Placeholder(name: string): string
  {
    "$$" + name + ".len$$"
  }

  /** The backpatch loop: for each constant in turn, every placeholder of its name becomes its length. */
  function Backpatch(text: string, cs: seq<Constant>): string
    decreases |cs|
  {
    if |cs| == 0 then text
    else Backpatch(ReplaceAll(text, Placeholder(cs[0].name), IntToString(cs[0].length)), cs[1..])
  }

  /** A listing without any placeholder is left as it is. */
  lemma {:induction false} BackpatchNoPlaceholders(text: string, cs: seq<Constant>)
    requires forall k :: 0 <= k < |cs| ==> !Occurs(text, Placeholder(cs[k].name))
    ensures Backpatch(text, cs) == text
    decreases |cs|
  {
    if |cs| > 0 {
      ReplaceAbsent(text, Placeholder(cs[0].name), IntToString(cs[0].length));
      BackpatchNoPlaceholders(text, cs[1..]);
    }
  }

  /** A single placeholder of a constant is replaced by that constant's length and nothing else changes. */
  lemma BackpatchOne(before: string, c: Constant, after: string)
    requires !Occurs(before + Placeholder(c.name)[..|Placeholder(c.name)| - 1], Placeholder(c.name))
    requires !Occurs(after, Placeholder(c.name))
    ensures Backpatch(before + Placeholder(c.name) + after, [c]) == before + IntToString(c.length) + after
  {
    ReplaceSingle(before, Placeholder(c.name), after, IntToString(c.length));
  }

  /** The listing of each function, in order. */
  function Listings(fs: seq<Function>): (r: seq<string>)
    reads fs
    ensures |r| == |fs|
    ensures forall k :: 0 <= k < |fs| ==> r[k] == RenderFunction(fs[k].name, fs[k].code)
  {
    if |fs| == 0 then [] else [RenderFunction(fs[0].name, fs[0].code)] + Listings(fs[1..])
  }

  /** A program under construction: its functions, its constants and its entry point. */
  class Module {
    const name: string
    var functions: seq<Function>
    var constants: seq<Constant>
    var entryPoint: Option<Function>

    /** The entry point, when set, is one of the module's functions. */
    predicate Valid()
      reads this
    {
      entryPoint.Some? ==> entryPoint.value in functions
    }

    constructor(name: string)
      ensures this.name == name && functions == [] && constants == [] && entryPoint == None
      ensures Valid()
    {
      this.name := name;
      functions := [];
      constants := [];
      entryPoint := None;
    }

    /** `add_function`. */
    method AddFunction(fn: Function)
      modifies this
      requires Valid()
      ensures functions == old(functions) + [fn]
      ensures constants == old(constants) && entryPoint == old(entryPoint)
      ensures Valid()
    {
      functions := functions + [fn];
    }

    /** `add_constant`. */
    method AddConstant(cn: Constant)
      modifies this
      requires Valid()
      ensures constants == old(constants) + [cn]
      ensures functions == old(functions) && entryPoint == old(entryPoint)
      ensures Valid()
    {
      constants := constants + [cn];
    }

    /** `find_symbol`: two searches, functions first. */
    method FindSymbol(symbol: string) returns (r: Result<Symbol, Error>)
      ensures r == Lookup(functions, constants, symbol)
    {
      var i := 0;
      while i < |functions|
        invariant 0 <= i <= |functions|
        invariant forall j :: 0 <= j < i ==> functions[j].name != symbol
      {
        if functions[i].name == symbol {
          LookupFunction(functions, constants, symbol, i);
          return Ok(FunctionSymbol(functions[i]));
        }
        i := i + 1;
      }
      i := 0;
      while i < |constants|
        invariant 0 <= i <= |constants|
        invariant forall j :: 0 <= j < i ==> constants[j].name != symbol
      {
        if constants[i].name == symbol {
          LookupConstant(functions, constants, symbol, i);
          return Ok(ConstantSymbol(constants[i]));
        }
        i := i + 1;
      }
      LookupFails(functions, constants, symbol);
      r := Err(UnknownSymbol(symbol));
    }

    /**
     * `set_entry_point`: a name that resolves to a function becomes the entry
     * point; a constant or an unknown name fails and leaves it as it was.
     */
    method SetEntryPoint(symbol: string) returns (o: Outcome<Error>)
      modifies this
      requires Valid()
      ensures functions == old(functions) && constants == old(constants)
      ensures var found := Lookup(functions, constants, symbol);
              && (found.Ok? && found.value.FunctionSymbol? ==> o.Pass? && entryPoint == Some(found.value.fn))
              && (found.Ok? && found.value.ConstantSymbol? ==> o == Fail(Raised("")) && entryPoint == old(entryPoint))
              && (found.Err? ==> o == Fail(found.error) && entryPoint == old(entryPoint))
      ensures Valid()
    {
      var found := FindSymbol(symbol);
      if found.Err? {
        return Fail(found.error);
      }
      match found.value
      case FunctionSymbol(f) =>
        var fnames := FunctionNames(functions);
        var k := FirstIndex(fnames, symbol).value;
        assert f == functions[k];
        entryPoint := Some(f);
        o := Pass;
      case ConstantSymbol(_) =>
        o := Fail(Raised(""));
    }

    /** The entry point's name, if one is set. */
    function EntryName(): Option<string>
      reads this
    {
      if entryPoint.Some? then Some(entryPoint.value.name) else None
    }

    /** The listing of each function, in order. */
    function FunctionTexts(): seq<string>
      reads this, functions
    {
      Listings(functions)
    }

    /** The line of each constant, in order. */
    function ConstantLines(): seq<string>
      reads this
    {
      seq(|constants|, k requires 0 <= k < |constants| reads this => ConstantLine(constants[k]))
    }

    /** The format line, the entry line when an entry point is set, and the executable segment's line. */
    method EmitHeader(code: WBuffer)
      modifies code
      ensures code.buf == old(code.buf) + Lines(Header(EntryName()))
    {
      ghost var start := code.buf;
      assert start + Lines([]) == start;
      WriteLine(start, [], "format ELF64 executable");
      code.Write(["format ELF64 executable"], " ", "\n");
      ghost var done := ["format ELF64 executable"];
      if entryPoint.Some? {
        WriteLine(start, done, "entry " + entryPoint.value.name);
        code.Write(["entry " + entryPoint.value.name], " ", "\n");
        done := done + ["entry " + entryPoint.value.name];
      }
      WriteLine(start, done, "segment readable executable");
      code.Write(["segment readable executable"], " ", "\n");
      done := done + ["segment readable executable"];
      assert done == Header(EntryName());
    }

    /** The executable segment: each function's listing on its own line, in order. */
    method EmitFunctions(code: WBuffer)
      modifies code
      ensures code.buf == old(code.buf) + Lines(FunctionTexts())
    {
      ghost var texts := FunctionTexts();
      ghost var start := code.buf;
      assert start + Lines(texts[..0]) == start;
      var i := 0;
      while i < |functions|
        invariant 0 <= i <= |functions|
        invariant code.buf == start + Lines(texts[..i])
      {
        var text := functions[i].Fasm();
        assert text == texts[i];
        WriteLine(start, texts[..i], text);
        code.Write([text], " ", "\n");
        assert texts[..i + 1] == texts[..i] + [text];
        i := i + 1;
      }
      assert texts[..i] == texts;
    }

    /** The writable segment: each constant's line, in order. */
    method EmitConstants(code: WBuffer)
      modifies code
      ensures code.buf == old(code.buf) + Lines(ConstantLines())
    {
      ghost var lines := ConstantLines();
      ghost var start := code.buf;
      assert start + Lines(lines[..0]) == start;
      var i := 0;
      while i < |constants|
        invariant 0 <= i <= |constants|
        invariant code.buf == start + Lines(lines[..i])
      {
        WriteLine(start, lines[..i], ConstantLine(constants[i]));
        code.Write([ConstantLine(constants[i])], " ", "\n");
        assert lines[..i + 1] == lines[..i] + [ConstantLine(constants[i])];
        i := i + 1;
      }
      assert lines[..i] == lines;
    }

    /** The backpatch loop over the constants, in order. */
    method FillLengths(code: WBuffer)
      modifies code
      ensures code.buf == Backpatch(old(code.buf), constants)
    {
      var i := 0;
      while i < |constants|
        invariant 0 <= i <= |constants|
        invariant Backpatch(old(code.buf), constants) == Backpatch(code.buf, constants[i..])
      {
        code.Replace(Placeholder(constants[i].name), IntToString(constants[i].length));
        assert constants[i..][1..] == constants[i + 1..];
        i := i + 1;
      }
    }

    /** Both segments after the header: the functions, the writable segment's line, the constants. */
    method EmitSegments(code: WBuffer)
      modifies code
      ensures code.buf == old(code.buf) + Lines(FunctionTexts() + ["segment readable writable"] + ConstantLines())
    {
      ghost var start := code.buf;
      ghost var texts := FunctionTexts();
      ghost var lines := ConstantLines();
      ghost var head := texts + ["segment readable writable"];
      EmitFunctions(code);
      assert code.buf == start + Lines(texts);
      WriteLine(start, texts, "segment readable writable");
      code.Write(["segment readable writable"], " ", "\n");
      assert code.buf == start + Lines(head);
      EmitConstants(code);
      assert code.buf == start + Lines(head) + Lines(lines);
      LinesThen(start, head, lines);
    }

    /** Everything `fasm` writes before backpatching: the header, then both segments. */
    method EmitListing(code: WBuffer)
      modifies code
      ensures code.buf == old(code.buf) + Lines(ListingLines(EntryName(), FunctionTexts(), ConstantLines()))
    {
      ghost var start := code.buf;
      ghost var header := Header(EntryName());
      ghost var texts := FunctionTexts();
      ghost var lines := ConstantLines();
      ghost var body := texts + ["segment readable writable"] + lines;
      EmitHeader(code);
      assert code.buf == start + Lines(header);
      EmitSegments(code);
      assert code.buf == start + Lines(header) + Lines(body);
      LinesThen(start, header, body);
      AppendAssoc(header + texts, ["segment readable writable"], lines);
      AppendAssoc(header, texts, ["segment readable writable"] + lines);
      AppendAssoc(texts, ["segment readable writable"], lines);
      assert ListingLines(EntryName(), texts, lines) == header + body;
    }

    /** `fasm`: the listing of the whole module, with every constant's length filled in. */
    method Fasm() returns (s: string)
      ensures s == Backpatch(Lines(ListingLines(EntryName(), FunctionTexts(), ConstantLines())), constants)
    {
      var code := new WBuffer();
      EmitListing(code);
      assert code.buf == Lines(ListingLines(EntryName(), FunctionTexts(), ConstantLines()));
      FillLengths(code);
      s := code.buf;
    }
  }
}
