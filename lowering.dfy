/**
 * Lowering of the parse tree into the abstract syntax tree: one function per
 * grammar rule, dispatched on the rule name by `LowerAny`. Every structural
 * check of atree.py (`assert_eq`, `assert`, an explicit `raise`, and the
 * Python errors that indexing, attribute access and tuple unpacking raise)
 * becomes an `Err` of the matching kind, produced at the same point of the
 * evaluation order, so the first failing check decides the error.
 *
 * Each function also promises the shape of what it builds (see `Ast`), and
 * that promise rests on the promises of the calls it makes.
 */
module Lowering {
  import opened Wrappers
  import opened Errors
  import opened Text
  import opened Cst
  import opened Ast

  type Lowered = Result<AstNode, Error>

  /** The matched texts of a list of nodes, in order. */
  function Texts(ns: seq<CNode>): (ts: seq<string>)
    ensures |ts| == |ns| && forall i :: 0 <= i < |ns| ==> ts[i] == ns[i].text
  {
    seq(|ns|, i requires 0 <= i < |ns| => ns[i].text)
  }

  // ------------------------------------------------------------------ import

  /** `ex_s_import`: only the imported identifier is kept. */
  function LowerImport(n: CNode): (r: Lowered)
    ensures r.Ok? ==> IsImport(r.value)
  {
    var rule :- ElementName(n);
    :- AssertEq(rule, "s_import");
    :- ExpectChildName(n, 0, "k_import");
    var ident :- Child(n, 1);
    var identRule :- ElementName(ident);
    if identRule == "r_identifier" then Ok(AstNode(Import, [NameNode(ident.text)], NoValue))
    else Err(Raised(""))
  }

  // -------------------------------------------------------------------- name

  /** `ex_s_name`: a bare identifier keeps the node's text, a dotted list is joined with `.`. */
  function LowerName(n: CNode): (r: Lowered)
    ensures r.Ok? ==> IsNameNode(r.value)
  {
    var first :- Child(n, 0);
    if ClassName(first) == "Regex" then Ok(NameNode(n.text))
    else if ClassName(first) == "List" then Ok(NameNode(Join(Texts(first.kids), ".")))
    else Err(Raised("invalid name"))
  }

  // ------------------------------------------------------------------ binop

  /** The operator tokens of the grammar, and the symbol each one lowers to. */
  function OperatorSymbol(token: string): Option<string>
  {
    if token == "t_plus" then Some("+")
    else if token == "t_minus" then Some("-")
    else if token == "t_times" then Some("*")
    else if token == "t_slash" then Some("/")
    else if token == "t_and" then Some("&")
    else if token == "t_or" then Some("|")
    else None
  }

  /** `ex_s_binop`: the operator token under the node becomes a `binop` node carrying its symbol. */
  function LowerBinop(n: CNode): (r: Lowered)
    ensures r.Ok? ==> IsBinop(r.value)
  {
    var token :- Child(n, 0);
    var tokenName :- ElementName(token);
    var symbol := OperatorSymbol(tokenName);
    if symbol.Some? then Ok(AstNode(Binop, [], Text(symbol.value)))
    else Err(Raised("invalid binop"))
  }

  // -------------------------------------------------------------- expression

  /** String literals drop a leading double quote and a trailing single quote. */
  function StringLiteralValue(text: string): string
  {
    RemoveSuffix(RemovePrefix(text, "\""), "'")
  }

  /** Character literals drop a leading and a trailing single quote. */
  function CharLiteralValue(text: string): string
  {
    RemoveSuffix(RemovePrefix(text, "'"), "'")
  }

  /** The first alternative of an expression: a name or a literal. */
  function LowerValue(e: CNode): (r: Lowered)
    ensures r.Ok? ==> IsExpr(r.value)
  {
    if HasName(e, "s_name") then LowerName(e)
    else LowerLiteral(e)
  }

  /** An integer literal: its decimal value, or the conversion error `int()` raises. */
  function LowerInteger(text: string): (r: Lowered)
    ensures r.Ok? ==> IsExpr(r.value)
  {
    match ParseInt(text)
    case Some(v) => Ok(AstNode(Integer, [], Int(v)))
    case None => Err(NotAnInteger(text))
  }

  /** The literal alternatives of a value, tried in the grammar's order after a name. */
  function LowerLiteral(e: CNode): (r: Lowered)
    ensures r.Ok? ==> IsExpr(r.value)
  {
    if HasName(e, "r_int") then LowerInteger(e.text)
    else if HasName(e, "r_float") then Ok(AstNode(Float, [], FloatLiteral(e.text)))
    else if HasName(e, "r_string") then Ok(AstNode(String, [], Text(StringLiteralValue(e.text))))
    else if HasName(e, "r_char") then Ok(AstNode(Char, [], Text(CharLiteralValue(e.text))))
    else Err(Raised("invalid expression: invalid value"))
  }

  /**
   * `ex_s_expr`: the alternative that matched decides: a value, a parenthesised
   * expression (unwrapped), a binary expression (left, operator, right, lowered
   * in that order), or a parenthesised list (not implemented).
   */
  function LowerExpr(n: CNode): (r: Lowered)
    ensures r.Ok? ==> IsExpr(r.value)
    decreases n
  {
    var p :- Child(n, 0);
    var c :- Child(p, 0);
    if HasName(c, "Choice") then
      var e :- Child(c, 0);
      LowerValue(e)
    else if HasName(c, "Sequence") then LowerSequence(c)
    else if HasName(c, "s_name") then LowerName(c)
    else Err(Raised("invalid expression"))
  }

  /** The `Sequence` alternatives of an expression: `( expr )`, `( list )` and `left op right`. */
  function LowerSequence(c: CNode): (r: Lowered)
    ensures r.Ok? ==> IsExpr(r.value)
    decreases c, 1
  {
    var e0 :- Child(c, 0);
    if HasName(e0, "t_open_paren") then
      var e1 :- Child(c, 1);
      if HasName(e1, "This") then LowerExpr(e1)
      else if HasName(e1, "List") then Err(Raised("unimplemented"))
      else Err(Raised("invalid expression"))
    else if HasName(e0, "This") then LowerBinary(c, e0)
    else Err(Raised("invalid expression"))
  }

  /** `left op right`, whose left operand `e0` is the first child of `c`. */
  function LowerBinary(c: CNode, e0: CNode): (r: Lowered)
    requires |c.kids| > 0 && e0 == c.kids[0]
    ensures r.Ok? ==> IsExpr(r.value)
    decreases c, 0
  {
    var left :- LowerExpr(e0);
    var opNode :- Child(c, 1);
    var op :- LowerBinop(opNode);
    var rightNode :- Child(c, 2);
    var right :- LowerExpr(rightNode);
    Ok(AstNode(BinopExpr, [op, left, right], NoValue))
  }

  // ---------------------------------------------------- function declaration

  /** The nodes of a list whose grammar element is a `Sequence`, in order. */
  function Sequences(ns: seq<CNode>): (r: seq<CNode>)
    ensures |r| <= |ns|
  {
    if |ns| == 0 then []
    else if ClassName(ns[0]) == "Sequence" then [ns[0]] + Sequences(ns[1..])
    else Sequences(ns[1..])
  }

  /** One `identifier : type` parameter. */
  function LowerParam(arg: CNode): (r: Result<Param, Error>)
    ensures r.Ok? ==> IsExpr(r.value.typ)
  {
    var kids := arg.kids;
    :- ExpectChildName(arg, 0, "r_identifier");
    var ident := kids[0].text;
    :- ExpectChildName(arg, 1, "t_colon");
    :- ExpectChildName(arg, 2, "s_expr");
    var typ :- LowerExpr(kids[2]);
    Ok(Param(ident, typ))
  }

  /** The parameters from the `i`-th child of the parameter list on; other children are skipped. */
  function LowerParams(list: CNode, i: nat): (r: Result<seq<Param>, Error>)
    requires i <= |list.kids|
    ensures r.Ok? ==> forall j :: 0 <= j < |r.value| ==> IsExpr(r.value[j].typ)
    decreases |list.kids| - i
  {
    if i == |list.kids| then Ok([])
    else if ClassName(list.kids[i]) == "Sequence" then
      var param :- LowerParam(list.kids[i]);
      var rest :- LowerParams(list, i + 1);
      Ok([param] + rest)
    else LowerParams(list, i + 1)
  }

  /** `ex_s_fndecl`: `( parameters ) return-type`. */
  function LowerFnDecl(n: CNode): (r: Lowered)
    ensures r.Ok? ==> IsFnDecl(r.value)
  {
    var kids := n.kids;
    :- ExpectChildName(n, 0, "t_open_paren");
    var list :- Child(n, 1);
    :- AssertEq(ClassName(list), "List");
    var params :- LowerParams(list, 0);
    :- ExpectChildName(n, 2, "t_close_paren");
    :- ExpectChildName(n, 3, "s_expr");
    var ret :- LowerExpr(kids[3]);
    Ok(AstNode(FnDecl, [ret], Params(params)))
  }

  // -------------------------------------------------------------- statements

  /** `ex_s_vardec`: `name : type`, unpacked from exactly three children. */
  function LowerVarDec(n: CNode): (r: Lowered)
    ensures r.Ok? ==> IsStatement(r.value) && r.value.kind == VarDeclaration
  {
    if |n.kids| != 3 then Err(UnpackMismatch)
    else
      var typ :- LowerExpr(n.kids[2]);
      var decl := AstNode(VarDeclaration, [NameNode(n.kids[0].text), typ], NoValue);
      assert IsNameNode(decl.children[0]) && IsExpr(decl.children[1]);
      Ok(decl)
  }

  /** `ex_s_vardef`: `name : type = value`, unpacked from exactly five children. */
  function LowerVarDef(n: CNode): (r: Lowered)
    ensures r.Ok? ==> IsStatement(r.value) && r.value.kind == VarDefinition
  {
    if |n.kids| != 5 then Err(UnpackMismatch)
    else
      var typ :- LowerExpr(n.kids[2]);
      var expr :- LowerExpr(n.kids[4]);
      Ok(AstNode(VarDefinition, [NameNode(n.kids[0].text), typ, expr], NoValue))
  }

  /** `ex_s_varass`: `name = value`. */
  function LowerVarAss(n: CNode): (r: Lowered)
    ensures r.Ok? ==> IsStatement(r.value) && r.value.kind == VarAssignment
  {
    var kids := n.kids;
    :- ExpectChildName(n, 0, "s_name");
    :- ExpectChildName(n, 1, "t_equal");
    :- ExpectChildName(n, 2, "s_expr");
    var name :- LowerName(kids[0]);
    var expr :- LowerExpr(kids[2]);
    Ok(AstNode(VarAssignment, [name, expr], NoValue))
  }

  /** The statement inside one `Repeat` entry of a scope: the first child of its first child. */
  function EntryStatement(entry: CNode): Result<CNode, Error>
  {
    var choice :- Child(entry, 0);
    Child(choice, 0)
  }

  /** One scope entry, dispatched on the rule name of its statement. */
  function LowerStatement(stmt: CNode): (r: Lowered)
    ensures r.Ok? ==> IsStatement(r.value)
  {
    var rule :- ElementName(stmt);
    if rule == "s_expr" then LowerExpr(stmt)
    else if rule == "s_vardec" then LowerVarDec(stmt)
    else if rule == "s_vardef" then LowerVarDef(stmt)
    else if rule == "s_varass" then LowerVarAss(stmt)
    else Err(Raised("invalid scope"))
  }

  /** One scope entry: its statement, lowered. */
  function LowerEntry(entry: CNode): (r: Lowered)
    ensures r.Ok? ==> IsStatement(r.value)
  {
    var stmt :- EntryStatement(entry);
    LowerStatement(stmt)
  }

  /** The scope entries from the `i`-th on. */
  function LowerEntries(rep: CNode, i: nat): (r: Result<seq<AstNode>, Error>)
    requires i <= |rep.kids|
    ensures r.Ok? ==> forall j :: 0 <= j < |r.value| ==> IsStatement(r.value[j])
    decreases |rep.kids| - i
  {
    if i == |rep.kids| then Ok([])
    else
      var first :- LowerEntry(rep.kids[i]);
      var rest :- LowerEntries(rep, i + 1);
      Ok([first] + rest)
  }

  /** `ex_s_scope`: `{` then the `;`-terminated entries; nothing after them is read. */
  function LowerScope(n: CNode): (r: Lowered)
    ensures r.Ok? ==> IsScope(r.value)
  {
    var rule :- ElementName(n);
    :- AssertEq(rule, "s_scope");
    :- ExpectChildName(n, 0, "t_open_brace");
    var rep :- Child(n, 1);
    var code :- LowerEntries(rep, 0);
    Ok(AstNode(Scope, code, NoValue))
  }

  // ----------------------------------------------------- function definition

  /** `ex_s_fndef`: `fn name declaration scope`. */
  function LowerFnDef(n: CNode): (r: Lowered)
    ensures r.Ok? ==> IsFnDef(r.value)
  {
    var rule :- ElementName(n);
    :- AssertEq(rule, "s_fndef");
    :- ExpectChildName(n, 0, "k_fn");
    :- ExpectChildName(n, 1, "r_identifier");
    var name := n.kids[1].text;
    :- ExpectChildName(n, 2, "s_fndecl");
    var decl :- LowerFnDecl(n.kids[2]);
    :- ExpectChildName(n, 3, "s_scope");
    var scope :- LowerScope(n.kids[3]);
    Ok(AstNode(FnDef, [decl, scope], Text(name)))
  }

  // --------------------------------------------------- modules and the file

  /** `ex_s_module`: `module name {` and the entries of the body, each through the dispatch. */
  function LowerModule(n: CNode): (r: Lowered)
    ensures r.Ok? ==> IsModule(r.value)
    decreases n, 1, 0
  {
    var kids := n.kids;
    :- ExpectChildName(n, 0, "k_module");
    :- ExpectChildName(n, 1, "r_identifier");
    var name := NameNode(kids[1].text);
    :- ExpectChildName(n, 2, "t_open_brace");
    var body :- Child(n, 3);
    var items :- LowerEach(body, 0);
    Ok(AstNode(Module, items, Node(name)))
  }

  /** The children of a module body from the `i`-th on, each through the dispatch. */
  function LowerEach(body: CNode, i: nat): (r: Result<seq<AstNode>, Error>)
    requires i <= |body.kids|
    ensures r.Ok? ==> forall j :: 0 <= j < |r.value| ==> IsTopLevel(r.value[j])
    decreases body, 0, |body.kids| - i
  {
    if i == |body.kids| then Ok([])
    else
      var first :- LowerAny(body.kids[i]);
      var rest :- LowerEach(body, i + 1);
      Ok([first] + rest)
  }

  /** The imports of the file from the `i`-th on. */
  function LowerImports(imports: CNode, i: nat): (r: Result<seq<AstNode>, Error>)
    requires i <= |imports.kids|
    ensures r.Ok? ==> forall j :: 0 <= j < |r.value| ==> IsImport(r.value[j])
    decreases |imports.kids| - i
  {
    if i == |imports.kids| then Ok([])
    else
      var first :- LowerImport(imports.kids[i]);
      var rest :- LowerImports(imports, i + 1);
      Ok([first] + rest)
  }

  /** The modules of the file from the `i`-th on. */
  function LowerModules(modules: CNode, i: nat): (r: Result<seq<AstNode>, Error>)
    requires i <= |modules.kids|
    ensures r.Ok? ==> forall j :: 0 <= j < |r.value| ==> IsModule(r.value[j])
    decreases modules, 0, |modules.kids| - i
  {
    if i == |modules.kids| then Ok([])
    else
      var first :- LowerModule(modules.kids[i]);
      var rest :- LowerModules(modules, i + 1);
      Ok([first] + rest)
  }

  /** `ex_s_start`: every import, then every module, as the children of one `src_file`. */
  function LowerStart(n: CNode): (r: Lowered)
    ensures r.Ok? ==> IsSrcFile(r.value)
    decreases n, 1, 0
  {
    var top :- Child(n, 0);
    var importList :- Child(top, 0);
    :- AssertEq(ClassName(importList), "Repeat");
    var imports :- LowerImports(importList, 0);
    var moduleList :- Child(top, 1);
    :- AssertEq(ClassName(moduleList), "Repeat");
    var modules :- LowerModules(moduleList, 0);
    var file := AstNode(SrcFile, imports + modules, NoValue);
    assert ImportsThenModules(file, |imports|);
    Ok(file)
  }

  /** `ex_s_any`: the dispatch on the rule name; any other rule is rejected. */
  function LowerAny(n: CNode): (r: Lowered)
    ensures r.Ok? ==> IsTopLevel(r.value)
    decreases n, 2, 0
  {
    var rule :- ElementName(n);
    if rule == "s_import" then LowerImport(n)
    else if rule == "s_module" then LowerModule(n)
    else if rule == "START" then LowerStart(n)
    else if rule == "s_fndef" then LowerFnDef(n)
    else if rule == "s_fndecl" then LowerFnDecl(n)
    else if rule == "s_scope" then LowerScope(n)
    else Err(Raised("UNHANDLED: '" + rule + "'"))
  }

  // ------------------------------------------------- the list-building loops

  /** `xs` in front of a successful list; an error stays the error. */
  function Prepend<T>(xs: seq<T>, r: Result<seq<T>, Error>): Result<seq<T>, Error>
  {
    if r.Ok? then Ok(xs + r.value) else r
  }

  lemma PrependNothing<T>(r: Result<seq<T>, Error>)
    ensures Prepend([], r) == r
  {
    if r.Ok? {
      assert [] + r.value == r.value;
    }
  }

  lemma PrependAll<T>(xs: seq<T>)
    ensures Prepend(xs, Ok([])) == Ok(xs)
  {
    assert xs + [] == xs;
  }

  lemma PrependTwice<T>(xs: seq<T>, ys: seq<T>, r: Result<seq<T>, Error>)
    ensures Prepend(xs, Prepend(ys, r)) == Prepend(xs + ys, r)
  {
    if r.Ok? {
      assert xs + (ys + r.value) == xs + ys + r.value;
    }
  }

  /** `ex_s_name` as written: the `List` form collects the segment texts in a loop, then joins them. */
  method BuildName(n: CNode) returns (r: Lowered)
    ensures r == LowerName(n)
  {
    if |n.kids| == 0 {
      return Err(IndexOutOfRange);
    }
    var first := n.kids[0];
    if ClassName(first) == "Regex" {
      return Ok(NameNode(n.text));
    } else if ClassName(first) == "List" {
      var segments: seq<string> := [];
      var i := 0;
      while i < |first.kids|
        invariant 0 <= i <= |first.kids|
        invariant segments == Texts(first.kids[..i])
      {
        segments := segments + [first.kids[i].text];
        i := i + 1;
      }
      assert first.kids[..i] == first.kids;
      return Ok(NameNode(Join(segments, ".")));
    } else {
      return Err(Raised("invalid name"));
    }
  }

  /** `ex_s_fndecl` as written: the parameters are appended one `Sequence` child at a time. */
  method BuildFnDecl(n: CNode) returns (r: Lowered)
    ensures r == LowerFnDecl(n)
  {
    var open := ExpectChildName(n, 0, "t_open_paren");
    if open.Fail? {
      return Err(open.error);
    }
    if |n.kids| < 2 {
      return Err(IndexOutOfRange);
    }
    var list := n.kids[1];
    if ClassName(list) != "List" {
      return Err(AssertionFailed);
    }
    var args: seq<Param> := [];
    var i := 0;
    PrependNothing(LowerParams(list, 0));
    while i < |list.kids|
      invariant 0 <= i <= |list.kids|
      invariant LowerParams(list, 0) == Prepend(args, LowerParams(list, i))
    {
      var arg := list.kids[i];
      if ClassName(arg) == "Sequence" {
        var param := LowerParam(arg);
        if param.Err? {
          return Err(param.error);
        }
        PrependTwice(args, [param.value], LowerParams(list, i + 1));
        args := args + [param.value];
      }
      i := i + 1;
    }
    PrependAll(args);
    assert LowerParams(list, 0) == Ok(args);
    var close := ExpectChildName(n, 2, "t_close_paren");
    if close.Fail? {
      return Err(close.error);
    }
    var ret := ExpectChildName(n, 3, "s_expr");
    if ret.Fail? {
      return Err(ret.error);
    }
    var returnType := LowerExpr(n.kids[3]);
    if returnType.Err? {
      return Err(returnType.error);
    }
    return Ok(AstNode(FnDecl, [returnType.value], Params(args)));
  }

  /** `ex_s_scope` as written: each entry is dispatched on its statement's rule and appended. */
  method BuildScope(n: CNode) returns (r: Lowered)
    ensures r == LowerScope(n)
  {
    var rule := ElementName(n);
    if rule.Err? {
      return Err(rule.error);
    }
    if rule.value != "s_scope" {
      return Err(AssertionFailed);
    }
    var open := ExpectChildName(n, 0, "t_open_brace");
    if open.Fail? {
      return Err(open.error);
    }
    if |n.kids| < 2 {
      return Err(IndexOutOfRange);
    }
    var rep := n.kids[1];
    var code: seq<AstNode> := [];
    var i := 0;
    PrependNothing(LowerEntries(rep, 0));
    while i < |rep.kids|
      invariant 0 <= i <= |rep.kids|
      invariant LowerEntries(rep, 0) == Prepend(code, LowerEntries(rep, i))
    {
      var lowered := BuildEntry(rep.kids[i]);
      if lowered.Err? {
        return Err(lowered.error);
      }
      PrependTwice(code, [lowered.value], LowerEntries(rep, i + 1));
      code := code + [lowered.value];
      i := i + 1;
    }
    PrependAll(code);
    return Ok(AstNode(Scope, code, NoValue));
  }

  /** The body of the scope loop: reach the entry's statement and dispatch on its rule name. */
  method BuildEntry(entry: CNode) returns (r: Lowered)
    ensures r == LowerEntry(entry)
  {
    var stmt := EntryStatement(entry);
    if stmt.Err? {
      return Err(stmt.error);
    }
    var rule := ElementName(stmt.value);
    if rule.Err? {
      return Err(rule.error);
    }
    if rule.value == "s_expr" {
      r := LowerExpr(stmt.value);
    } else if rule.value == "s_vardec" {
      r := LowerVarDec(stmt.value);
    } else if rule.value == "s_vardef" {
      r := LowerVarDef(stmt.value);
    } else if rule.value == "s_varass" {
      r := LowerVarAss(stmt.value);
    } else {
      r := Err(Raised("invalid scope"));
    }
  }

  /** `ex_s_start` as written: one list, the imports appended first, then the modules. */
  method BuildSrcFile(n: CNode) returns (r: Lowered)
    ensures r == LowerStart(n)
  {
    if |n.kids| == 0 {
      return Err(IndexOutOfRange);
    }
    var top := n.kids[0];
    if |top.kids| == 0 {
      return Err(IndexOutOfRange);
    }
    var importList := top.kids[0];
    if ClassName(importList) != "Repeat" {
      return Err(AssertionFailed);
    }
    var imports := AppendImports([], importList);
    PrependNothing(LowerImports(importList, 0));
    if imports.Err? {
      return Err(imports.error);
    }
    var children := imports.value;
    if |top.kids| < 2 {
      return Err(IndexOutOfRange);
    }
    var moduleList := top.kids[1];
    if ClassName(moduleList) != "Repeat" {
      return Err(AssertionFailed);
    }
    var all := AppendModules(children, moduleList);
    if all.Err? {
      return Err(all.error);
    }
    children := all.value;
    return Ok(AstNode(SrcFile, children, NoValue));
  }

  /** The import loop of `ex_s_start`: each import appended to `children` in turn. */
  method AppendImports(children: seq<AstNode>, importList: CNode) returns (r: Result<seq<AstNode>, Error>)
    ensures r == Prepend(children, LowerImports(importList, 0))
  {
    var acc := children;
    ghost var done: seq<AstNode> := [];
    var i := 0;
    PrependNothing(LowerImports(importList, 0));
    while i < |importList.kids|
      invariant 0 <= i <= |importList.kids|
      invariant acc == children + done
      invariant LowerImports(importList, 0) == Prepend(done, LowerImports(importList, i))
    {
      var imp := LowerImport(importList.kids[i]);
      if imp.Err? {
        return Err(imp.error);
      }
      PrependTwice(done, [imp.value], LowerImports(importList, i + 1));
      done := done + [imp.value];
      acc := acc + [imp.value];
      i := i + 1;
    }
    PrependAll(done);
    return Ok(acc);
  }

  /** The module loop of `ex_s_start`: each module appended to `children` in turn. */
  method AppendModules(children: seq<AstNode>, moduleList: CNode) returns (r: Result<seq<AstNode>, Error>)
    ensures r == Prepend(children, LowerModules(moduleList, 0))
  {
    var acc := children;
    ghost var done: seq<AstNode> := [];
    var j := 0;
    PrependNothing(LowerModules(moduleList, 0));
    while j < |moduleList.kids|
      invariant 0 <= j <= |moduleList.kids|
      invariant acc == children + done
      invariant LowerModules(moduleList, 0) == Prepend(done, LowerModules(moduleList, j))
    {
      var m := LowerModule(moduleList.kids[j]);
      if m.Err? {
        return Err(m.error);
      }
      PrependTwice(done, [m.value], LowerModules(moduleList, j + 1));
      done := done + [m.value];
      acc := acc + [m.value];
      j := j + 1;
    }
    PrependAll(done);
    return Ok(acc);
  }
}
