/**
 * What lowering promises, stated over all parse trees: the value of a dotted
 * name, the operator table, how each expression form lowers, the order and
 * number of parameters, scope entries and file entries, the parts of the tree
 * that are never read, and the dispatch on rule names.
 */
module LoweringProperties {
  import opened Wrappers
  import opened Errors
  import opened Text
  import opened Cst
  import opened Ast
  import opened Lowering

  // -------------------------------------------------------------------- lists

  /**
   * Lowering each node of a list in turn and collecting the results, stopping
   * at the first failure: the shape shared by the loops over parameters,
   * imports, modules and module bodies.
   */
  function MapAll<T>(f: CNode -> Result<T, Error>, ns: seq<CNode>): Result<seq<T>, Error>
  {
    if |ns| == 0 then Ok([])
    else
      var first :- f(ns[0]);
      var rest :- MapAll(f, ns[1..]);
      Ok([first] + rest)
  }

  /** A list lowers exactly when every one of its nodes does. */
  lemma {:induction false} MapAllExactly<T>(f: CNode -> Result<T, Error>, ns: seq<CNode>)
    ensures MapAll(f, ns).Ok? <==> forall j :: 0 <= j < |ns| ==> f(ns[j]).Ok?
  {
    if |ns| > 0 {
      MapAllExactly(f, ns[1..]);
      assert forall j :: 1 <= j < |ns| ==> ns[j] == ns[1..][j - 1];
    }
  }

  /** A lowered list has one result per node, each that node's lowering, in order. */
  lemma {:induction false} MapAllInOrder<T>(f: CNode -> Result<T, Error>, ns: seq<CNode>, xs: seq<T>)
    requires MapAll(f, ns) == Ok(xs)
    ensures |xs| == |ns|
    ensures forall j :: 0 <= j < |ns| ==> f(ns[j]) == Ok(xs[j])
  {
    if |ns| > 0 {
      var rest := MapAll(f, ns[1..]).value;
      assert xs == [f(ns[0]).value] + rest;
      MapAllInOrder(f, ns[1..], rest);
      forall j | 1 <= j < |ns|
        ensures f(ns[j]) == Ok(xs[j])
      {
        assert ns[j] == ns[1..][j - 1] && xs[j] == rest[j - 1];
      }
    }
  }

  /** A lowered list placed between other results keeps each node's lowering at its position. */
  lemma {:induction false} MapAllWithin<T>(f: CNode -> Result<T, Error>, ns: seq<CNode>, xs: seq<T>, before: seq<T>, after: seq<T>)
    requires MapAll(f, ns) == Ok(xs)
    ensures |xs| == |ns|
    ensures forall j :: 0 <= j < |ns| ==> f(ns[j]) == Ok((before + xs + after)[|before| + j])
  {
    MapAllInOrder(f, ns, xs);
    forall j | 0 <= j < |ns|
      ensures f(ns[j]) == Ok((before + xs + after)[|before| + j])
    {
      assert (before + xs + after)[|before| + j] == xs[j];
    }
  }

  // -------------------------------------------------------------------- names

  /**
   * A bare identifier lowers to the node's whole text; a list lowers to the
   * texts of all its children joined with `.`, and when no child's text
   * contains a dot the value splits back into exactly those texts, in order;
   * anything else is rejected.
   */
  lemma NameForms(n: CNode)
    ensures |n.kids| == 0 ==> LowerName(n) == Err(IndexOutOfRange)
    ensures |n.kids| > 0 && ClassName(n.kids[0]) == "Regex" ==> LowerName(n) == Ok(NameNode(n.text))
    ensures |n.kids| > 0 && ClassName(n.kids[0]) == "List" ==>
              LowerName(n) == Ok(NameNode(Join(Texts(n.kids[0].kids), ".")))
    ensures |n.kids| > 0 && ClassName(n.kids[0]) != "Regex" && ClassName(n.kids[0]) != "List" ==>
              LowerName(n) == Err(Raised("invalid name"))
    ensures && |n.kids| > 0 && ClassName(n.kids[0]) == "List" && |n.kids[0].kids| > 0
            && (forall i :: 0 <= i < |n.kids[0].kids| ==> '.' !in n.kids[0].kids[i].text)
            ==> Split(LowerName(n).value.value.text, '.') == Texts(n.kids[0].kids)
  {
    if |n.kids| > 0 && ClassName(n.kids[0]) == "List" && |n.kids[0].kids| > 0 {
      var segments := Texts(n.kids[0].kids);
      if forall i :: 0 <= i < |segments| ==> '.' !in segments[i] {
        SplitJoin(segments, '.');
      }
    }
  }

  /**
   * A dotted name's list keeps its `.` delimiters as children of their own,
   * and every child is joined with `.`: the identifiers come out separated by
   * `...` rather than by `.`.
   */
  lemma {:induction false} DottedNameKeepsDelimiters(n: CNode, segments: seq<string>)
    requires |n.kids| > 0 && ClassName(n.kids[0]) == "List"
    requires |segments| >= 1 && Texts(n.kids[0].kids) == Interleave(segments, ".")
    ensures LowerName(n) == Ok(NameNode(Join(segments, "...")))
  {
    NameForms(n);
    JoinDotted(segments);
  }

  /** The name `a.b`, whose list holds `a`, the delimiter and `b`, lowers to `a...b`. */
  lemma TwoSegmentName(n: CNode, a: string, b: string)
    requires |n.kids| > 0 && ClassName(n.kids[0]) == "List"
    requires Texts(n.kids[0].kids) == [a, ".", b]
    ensures LowerName(n) == Ok(NameNode(a + "..." + b))
  {
    assert Interleave([a, b], ".") == [a, "."] + Interleave([b], ".");
    DottedNameKeepsDelimiters(n, [a, b]);
    JoinTwo(a, b, "...");
  }

  // ---------------------------------------------------------------- operators

  const OperatorTokens: seq<string> := ["t_plus", "t_minus", "t_times", "t_slash", "t_and", "t_or"]
  const OperatorSymbols: seq<string> := ["+", "-", "*", "/", "&", "|"]

  /**
   * The six operator tokens map one-to-one onto the six symbols, position by
   * position; an operator node lowers exactly when its token is one of them,
   * and then carries that token's symbol.
   */
  lemma OperatorTable(n: CNode)
    ensures forall i :: 0 <= i < |OperatorTokens| ==> OperatorSymbol(OperatorTokens[i]) == Some(OperatorSymbols[i])
    ensures forall t :: OperatorSymbol(t).Some? <==> t in OperatorTokens
    ensures forall s :: s in BinopSymbols <==> s in OperatorSymbols
    ensures LowerBinop(n).Ok? <==> |n.kids| > 0 && n.kids[0].name.Some? && n.kids[0].name.value in OperatorTokens
    ensures LowerBinop(n).Ok? ==> LowerBinop(n).value == AstNode(Binop, [], Text(OperatorSymbol(n.kids[0].name.value).value))
    ensures |n.kids| > 0 && n.kids[0].name.Some? && n.kids[0].name.value !in OperatorTokens ==>
              LowerBinop(n) == Err(Raised("invalid binop"))
  {
  }

  /** Distinct tokens never lower to the same symbol. */
  lemma OperatorSymbolInjective(t1: string, t2: string)
    requires OperatorSymbol(t1).Some? && OperatorSymbol(t1) == OperatorSymbol(t2)
    ensures t1 == t2
  {
  }

  // -------------------------------------------------------------- expressions

  /** The node holding the alternative an expression matched. */
  predicate HasAlternative(n: CNode)
  {
    |n.kids| > 0 && |n.kids[0].kids| > 0
  }

  function Alternative(n: CNode): CNode
    requires HasAlternative(n)
  {
    n.kids[0].kids[0]
  }

  /**
   * `( expr )` lowers to exactly what the inner expression lowers to; a
   * parenthesised list is always rejected as unimplemented.
   */
  lemma {:induction false} ParenthesisedExpr(n: CNode)
    requires HasAlternative(n) && HasName(Alternative(n), "Sequence")
    requires |Alternative(n).kids| >= 2 && HasName(Alternative(n).kids[0], "t_open_paren")
    ensures HasName(Alternative(n).kids[1], "This") ==> LowerExpr(n) == LowerExpr(Alternative(n).kids[1])
    ensures HasName(Alternative(n).kids[1], "List") ==> LowerExpr(n) == Err(Raised("unimplemented"))
  {
  }

  /**
   * `left op right` lowers to a `binop_expr` whose children are, in this order,
   * the operator, the lowered left side and the lowered right side; it lowers
   * exactly when all three do, and a failing left side is reported first.
   */
  lemma {:induction false} BinaryExpr(n: CNode)
    requires HasAlternative(n) && HasName(Alternative(n), "Sequence")
    requires |Alternative(n).kids| >= 3 && HasName(Alternative(n).kids[0], "This")
    ensures var c := Alternative(n);
            LowerExpr(n).Ok? <==> LowerExpr(c.kids[0]).Ok? && LowerBinop(c.kids[1]).Ok? && LowerExpr(c.kids[2]).Ok?
    ensures var c := Alternative(n);
            LowerExpr(n).Ok? ==>
              LowerExpr(n).value == AstNode(BinopExpr, [LowerBinop(c.kids[1]).value, LowerExpr(c.kids[0]).value, LowerExpr(c.kids[2]).value], NoValue)
    ensures var c := Alternative(n);
            LowerExpr(c.kids[0]).Err? ==> LowerExpr(n) == LowerExpr(c.kids[0])
  {
    var c := Alternative(n);
    assert LowerExpr(n) == LowerSequence(c);
    assert LowerSequence(c) == LowerBinary(c, c.kids[0]);
  }

  /** A lowered binary expression has exactly three children, and its first is a `binop` with one of the six symbols. */
  lemma {:induction false} BinaryExprShape(n: CNode)
    requires LowerExpr(n).Ok? && LowerExpr(n).value.kind == BinopExpr
    ensures |LowerExpr(n).value.children| == 3
    ensures LowerExpr(n).value.children[0].kind == Binop
    ensures LowerExpr(n).value.children[0].value.text in BinopSymbols
  {
  }

  /** An integer literal written as `str(i)` lowers to the integer `i`. */
  lemma IntegerLiteral(e: CNode, i: int)
    requires HasName(e, "r_int") && e.text == IntToString(i)
    ensures LowerValue(e) == Ok(AstNode(Integer, [], Int(i)))
  {
    IntRoundTrip(i);
  }

  /**
   * A string literal loses its opening double quote but keeps its closing one:
   * the suffix removed is a single quote, which the literal does not end with.
   */
  lemma StringLiteralKeepsClosingQuote(s: string)
    ensures StringLiteralValue("\"" + s + "\"") == s + "\""
  {
    var t := "\"" + s + "\"";
    assert "\"" <= t;
    assert t[1..] == s + "\"";
    var u := s + "\"";
    assert u[|u| - 1..] == "\"";
  }

  /** A character literal `'c'` lowers to the one character `c`. */
  lemma CharLiteralValueIsChar(c: char)
    ensures CharLiteralValue("'" + [c] + "'") == [c]
  {
    var t := "'" + [c] + "'";
    assert "'" <= t;
    assert t[1..] == [c] + "'";
  }

  // ------------------------------------------------- function declarations

  /** The `Sequence` children from the `i`-th on: the `i`-th child when it is one, then the rest. */
  lemma SequencesStep(ns: seq<CNode>, i: nat)
    requires i < |ns|
    ensures ClassName(ns[i]) == "Sequence" ==> Sequences(ns[i..]) == [ns[i]] + Sequences(ns[i + 1..])
    ensures ClassName(ns[i]) != "Sequence" ==> Sequences(ns[i..]) == Sequences(ns[i + 1..])
  {
    assert ns[i..][1..] == ns[i + 1..];
  }

  /**
   * The parameter loop skips every child that is not a `Sequence` and lowers
   * the others in turn, stopping at the first failure.
   */
  lemma {:induction false} ParamsAreMap(list: CNode, i: nat)
    requires i <= |list.kids|
    ensures LowerParams(list, i) == MapAll(LowerParam, Sequences(list.kids[i..]))
    decreases |list.kids| - i
  {
    if i < |list.kids| {
      ParamsAreMap(list, i + 1);
      SequencesStep(list.kids, i);
      var k := list.kids[i];
      if ClassName(k) == "Sequence" {
        var args := [k] + Sequences(list.kids[i + 1..]);
        assert args[0] == k && args[1..] == Sequences(list.kids[i + 1..]);
      }
    } else {
      assert Sequences(list.kids[i..]) == [];
    }
  }

  /**
   * The parameters from the `i`-th child on lower exactly when every
   * `Sequence` child among them does; the other children are never read.
   */
  lemma {:induction false} ParamsLowerExactly(list: CNode, i: nat)
    requires i <= |list.kids|
    ensures var args := Sequences(list.kids[i..]);
            LowerParams(list, i).Ok? <==> forall j :: 0 <= j < |args| ==> LowerParam(args[j]).Ok?
  {
    ParamsAreMap(list, i);
    MapAllExactly(LowerParam, Sequences(list.kids[i..]));
  }

  /**
   * The parameters from the `i`-th child on, once lowered, are one per
   * `Sequence` child, in order, each that child's lowering.
   */
  lemma {:induction false} ParamsInOrder(list: CNode, i: nat, params: seq<Param>)
    requires i <= |list.kids| && LowerParams(list, i) == Ok(params)
    ensures var args := Sequences(list.kids[i..]);
            && |params| == |args|
            && forall j :: 0 <= j < |args| ==> LowerParam(args[j]) == Ok(params[j])
  {
    ParamsAreMap(list, i);
    MapAllInOrder(LowerParam, Sequences(list.kids[i..]), params);
  }

  /** A parameter that lowers is `identifier : type`, with the identifier's text and the lowered type. */
  lemma ParamForm(arg: CNode)
    requires LowerParam(arg).Ok?
    ensures |arg.kids| >= 3 && LowerExpr(arg.kids[2]).Ok?
    ensures arg.kids[0].name == Some("r_identifier") && arg.kids[1].name == Some("t_colon")
    ensures arg.kids[2].name == Some("s_expr")
    ensures LowerParam(arg).value == Param(arg.kids[0].text, LowerExpr(arg.kids[2]).value)
  {
  }

  /**
   * A lowered declaration has one child, the lowered return type, and one
   * (identifier, lowered type) pair per `Sequence` child of the parameter list,
   * in source order.
   */
  lemma FnDeclLayout(n: CNode)
    requires LowerFnDecl(n).Ok?
    ensures |n.kids| >= 4
    ensures && n.kids[0].name == Some("t_open_paren") && ClassName(n.kids[1]) == "List"
            && n.kids[2].name == Some("t_close_paren") && n.kids[3].name == Some("s_expr")
    ensures LowerFnDecl(n).value.children == [LowerExpr(n.kids[3]).value]
    ensures var args := Sequences(n.kids[1].kids);
            var params := LowerFnDecl(n).value.value.params;
            && |params| == |args|
            && forall j :: 0 <= j < |args| ==> LowerParam(args[j]) == Ok(params[j])
  {
    ParamsInOrder(n.kids[1], 0, LowerFnDecl(n).value.value.params);
    assert n.kids[1].kids[0..] == n.kids[1].kids;
  }

  // ------------------------------------------------------------------- scopes

  /**
   * The scope entries from the `i`-th on lower exactly when each of them does,
   * and then give one statement per entry, in order.
   */
  lemma {:induction false} EntriesInOrder(rep: CNode, i: nat)
    requires i <= |rep.kids|
    ensures LowerEntries(rep, i).Ok? <==> forall j :: i <= j < |rep.kids| ==> LowerEntry(rep.kids[j]).Ok?
    ensures LowerEntries(rep, i).Ok? ==>
              && |LowerEntries(rep, i).value| == |rep.kids| - i
              && forall j :: i <= j < |rep.kids| ==> LowerEntries(rep, i).value[j - i] == LowerEntry(rep.kids[j]).value
    decreases |rep.kids| - i
  {
    if i < |rep.kids| {
      EntriesInOrder(rep, i + 1);
      if !LowerEntry(rep.kids[i]).Ok? {
        assert LowerEntries(rep, i).Err?;
      } else if LowerEntries(rep, i + 1).Err? {
        assert LowerEntries(rep, i).Err?;
      } else {
        var tail := LowerEntries(rep, i + 1).value;
        var all := LowerEntries(rep, i).value;
        assert all == [LowerEntry(rep.kids[i]).value] + tail;
        forall j | i < j < |rep.kids|
          ensures all[j - i] == LowerEntry(rep.kids[j]).value
        {
          assert all[j - i] == tail[j - (i + 1)];
        }
      }
    }
  }

  /** A lowered scope has exactly one child per `;`-terminated entry, in order. */
  lemma ScopeLayout(n: CNode)
    requires LowerScope(n).Ok?
    ensures |n.kids| >= 2
    ensures n.name == Some("s_scope") && n.kids[0].name == Some("t_open_brace")
    ensures |LowerScope(n).value.children| == |n.kids[1].kids|
    ensures forall j :: 0 <= j < |n.kids[1].kids| ==>
              LowerEntry(n.kids[1].kids[j]).Ok? && LowerScope(n).value.children[j] == LowerEntry(n.kids[1].kids[j]).value
  {
    var rep := n.kids[1];
    EntriesInOrder(rep, 0);
    var code := LowerEntries(rep, 0).value;
    assert LowerScope(n) == Ok(AstNode(Scope, code, NoValue));
    forall j | 0 <= j < |rep.kids|
      ensures LowerEntry(rep.kids[j]).Ok? && code[j] == LowerEntry(rep.kids[j]).value
    {
      assert code[j - 0] == LowerEntry(rep.kids[j]).value;
    }
  }

  /**
   * A scope reads only its own rule name and its first two children: the
   * optional trailing expression and the closing brace are never lowered.
   */
  lemma ScopeIgnoresTrailing(n: CNode, m: CNode)
    requires n.name == m.name && |n.kids| >= 2 && |m.kids| >= 2
    requires n.kids[0] == m.kids[0] && n.kids[1] == m.kids[1]
    ensures LowerScope(n) == LowerScope(m)
  {
  }

  /** The rule names a scope entry may carry. */
  const StatementRules: set<string> := {"s_expr", "s_vardec", "s_vardef", "s_varass"}

  /** A scope entry goes to the handler of its rule; any other rule is rejected. */
  lemma {:induction false} StatementDispatch(stmt: CNode)
    ensures stmt.name == Some("s_expr") ==> LowerStatement(stmt) == LowerExpr(stmt)
    ensures stmt.name == Some("s_vardec") ==> LowerStatement(stmt) == LowerVarDec(stmt)
    ensures stmt.name == Some("s_vardef") ==> LowerStatement(stmt) == LowerVarDef(stmt)
    ensures stmt.name == Some("s_varass") ==> LowerStatement(stmt) == LowerVarAss(stmt)
    ensures stmt.name.Some? && stmt.name.value !in StatementRules ==> LowerStatement(stmt) == Err(Raised("invalid scope"))
    ensures stmt.name.None? ==> LowerStatement(stmt) == Err(NoElementName)
  {
  }

  // --------------------------------------------------------------- statements

  /**
   * A declaration needs exactly three children and a type that lowers; it is
   * then the first child's text as a name, and the third child lowered as
   * the type.
   */
  lemma VarDecLayout(n: CNode)
    ensures |n.kids| != 3 ==> LowerVarDec(n) == Err(UnpackMismatch)
    ensures LowerVarDec(n).Ok? <==> |n.kids| == 3 && LowerExpr(n.kids[2]).Ok?
    ensures LowerVarDec(n).Ok? ==>
              LowerVarDec(n).value == AstNode(VarDeclaration, [NameNode(n.kids[0].text), LowerExpr(n.kids[2]).value], NoValue)
  {
  }

  /**
   * A definition needs exactly five children; the type is lowered before the
   * value, and the result is the first child's text as a name, the third
   * child lowered as the type and the fifth lowered as the value, in that
   * order.
   */
  lemma VarDefLayout(n: CNode)
    ensures |n.kids| != 5 ==> LowerVarDef(n) == Err(UnpackMismatch)
    ensures |n.kids| == 5 && LowerExpr(n.kids[2]).Err? ==> LowerVarDef(n) == Err(LowerExpr(n.kids[2]).error)
    ensures LowerVarDef(n).Ok? <==> |n.kids| == 5 && LowerExpr(n.kids[2]).Ok? && LowerExpr(n.kids[4]).Ok?
    ensures LowerVarDef(n).Ok? ==>
              LowerVarDef(n).value
              == AstNode(VarDefinition, [NameNode(n.kids[0].text), LowerExpr(n.kids[2]).value, LowerExpr(n.kids[4]).value], NoValue)
  {
  }

  /**
   * An assignment needs a name, `=` and an expression as its first three
   * children, and both the name and the expression to lower; it is then the
   * lowered name and the lowered expression, in that order.
   */
  lemma VarAssLayout(n: CNode)
    ensures LowerVarAss(n).Ok? <==>
              && |n.kids| >= 3
              && n.kids[0].name == Some("s_name") && n.kids[1].name == Some("t_equal") && n.kids[2].name == Some("s_expr")
              && LowerName(n.kids[0]).Ok? && LowerExpr(n.kids[2]).Ok?
    ensures LowerVarAss(n).Ok? ==>
              LowerVarAss(n).value == AstNode(VarAssignment, [LowerName(n.kids[0]).value, LowerExpr(n.kids[2]).value], NoValue)
  {
  }

  // ----------------------------------------------------- function definition

  /**
   * A lowered definition is `fn name declaration scope` checked part by part;
   * it carries the identifier's text, and its children are the lowered
   * declaration and the lowered scope, in that order.
   */
  lemma FnDefLayout(n: CNode)
    requires LowerFnDef(n).Ok?
    ensures n.name == Some("s_fndef") && |n.kids| >= 4
    ensures && n.kids[0].name == Some("k_fn") && n.kids[1].name == Some("r_identifier")
            && n.kids[2].name == Some("s_fndecl") && n.kids[3].name == Some("s_scope")
    ensures LowerFnDecl(n.kids[2]).Ok? && LowerScope(n.kids[3]).Ok?
    ensures LowerFnDef(n).value
            == AstNode(FnDef, [LowerFnDecl(n.kids[2]).value, LowerScope(n.kids[3]).value], Text(n.kids[1].text))
  {
  }

  // ------------------------------------------------------------------ modules

  /** The comprehension over a module body lowers each entry in turn through the dispatch, stopping at the first failure. */
  lemma {:induction false} EachIsMap(body: CNode, i: nat)
    requires i <= |body.kids|
    ensures LowerEach(body, i) == MapAll(LowerAny, body.kids[i..])
    decreases |body.kids| - i
  {
    if i < |body.kids| {
      EachIsMap(body, i + 1);
      assert body.kids[i..][1..] == body.kids[i + 1..];
    }
  }

  /** The entries of a module body lower exactly when each of them does. */
  lemma {:induction false} EachLowersExactly(body: CNode)
    ensures LowerEach(body, 0).Ok? <==> forall j :: 0 <= j < |body.kids| ==> LowerAny(body.kids[j]).Ok?
  {
    EachIsMap(body, 0);
    assert body.kids[0..] == body.kids;
    MapAllExactly(LowerAny, body.kids);
  }

  /** The lowered entries of a module body: one per entry, each that entry's lowering, in order. */
  lemma {:induction false} EachInOrder(body: CNode, items: seq<AstNode>)
    requires LowerEach(body, 0) == Ok(items)
    ensures |items| == |body.kids|
    ensures forall j :: 0 <= j < |body.kids| ==> LowerAny(body.kids[j]) == Ok(items[j])
  {
    EachIsMap(body, 0);
    assert body.kids[0..] == body.kids;
    MapAllInOrder(LowerAny, body.kids, items);
  }

  /**
   * A lowered module is `module name {` checked part by part; it carries the
   * identifier as a name node, and has one child per entry of its body, each
   * that entry through the dispatch, in order.
   */
  lemma {:induction false} ModuleLayout(n: CNode, m: AstNode)
    requires LowerModule(n) == Ok(m)
    ensures |n.kids| >= 4
    ensures && n.kids[0].name == Some("k_module") && n.kids[1].name == Some("r_identifier")
            && n.kids[2].name == Some("t_open_brace")
    ensures m.kind == Module && m.value == Node(NameNode(n.kids[1].text))
    ensures |m.children| == |n.kids[3].kids|
    ensures forall j :: 0 <= j < |n.kids[3].kids| ==> Ok(m.children[j]) == LowerAny(n.kids[3].kids[j])
  {
    var body := n.kids[3];
    assert LowerEach(body, 0) == Ok(m.children);
    EachInOrder(body, m.children);
  }

  // --------------------------------------------------------- imports, files

  /** A lowered import is an `import` node around one `name` node holding the identifier, and nothing else. */
  lemma ImportKeepsOnlyName(n: CNode)
    requires LowerImport(n).Ok?
    ensures |n.kids| >= 2
    ensures && n.name == Some("s_import") && n.kids[0].name == Some("k_import")
            && n.kids[1].name == Some("r_identifier")
    ensures LowerImport(n).value == AstNode(Import, [NameNode(n.kids[1].text)], NoValue)
  {
  }

  /** An import reads only its rule name and its first two children: the `from` path is never read. */
  lemma ImportIgnoresPath(n: CNode, m: CNode)
    requires n.name == m.name && |n.kids| >= 2 && |m.kids| >= 2
    requires n.kids[0] == m.kids[0] && n.kids[1] == m.kids[1]
    ensures LowerImport(n) == LowerImport(m)
  {
  }

  /** The import loop lowers each import in turn, stopping at the first failure. */
  lemma {:induction false} ImportsAreMap(imports: CNode, i: nat)
    requires i <= |imports.kids|
    ensures LowerImports(imports, i) == MapAll(LowerImport, imports.kids[i..])
    decreases |imports.kids| - i
  {
    if i < |imports.kids| {
      ImportsAreMap(imports, i + 1);
      assert imports.kids[i..][1..] == imports.kids[i + 1..];
    }
  }

  /** The imports of a file lower exactly when each of them does. */
  lemma {:induction false} ImportsLowerExactly(imports: CNode)
    ensures LowerImports(imports, 0).Ok? <==> forall j :: 0 <= j < |imports.kids| ==> LowerImport(imports.kids[j]).Ok?
  {
    ImportsAreMap(imports, 0);
    assert imports.kids[0..] == imports.kids;
    MapAllExactly(LowerImport, imports.kids);
  }

  /** The lowered imports of a file: one per import, each that import's lowering, in order. */
  lemma {:induction false} ImportsInOrder(imports: CNode, lowered: seq<AstNode>)
    requires LowerImports(imports, 0) == Ok(lowered)
    ensures |lowered| == |imports.kids|
    ensures forall j :: 0 <= j < |imports.kids| ==> LowerImport(imports.kids[j]) == Ok(lowered[j])
  {
    ImportsAreMap(imports, 0);
    assert imports.kids[0..] == imports.kids;
    MapAllInOrder(LowerImport, imports.kids, lowered);
  }

  /** The module loop lowers each module in turn, stopping at the first failure. */
  lemma {:induction false} ModulesAreMap(modules: CNode, i: nat)
    requires i <= |modules.kids|
    ensures LowerModules(modules, i) == MapAll(LowerModule, modules.kids[i..])
    decreases |modules.kids| - i
  {
    if i < |modules.kids| {
      ModulesAreMap(modules, i + 1);
      assert modules.kids[i..][1..] == modules.kids[i + 1..];
    }
  }

  /** The modules of a file lower exactly when each of them does. */
  lemma {:induction false} ModulesLowerExactly(modules: CNode)
    ensures LowerModules(modules, 0).Ok? <==> forall j :: 0 <= j < |modules.kids| ==> LowerModule(modules.kids[j]).Ok?
  {
    ModulesAreMap(modules, 0);
    assert modules.kids[0..] == modules.kids;
    MapAllExactly(LowerModule, modules.kids);
  }

  /** The lowered modules of a file: one per module, each that module's lowering, in order. */
  lemma {:induction false} ModulesInOrder(modules: CNode, ms: seq<AstNode>)
    requires LowerModules(modules, 0) == Ok(ms)
    ensures |ms| == |modules.kids|
    ensures forall j :: 0 <= j < |modules.kids| ==> LowerModule(modules.kids[j]) == Ok(ms[j])
  {
    ModulesAreMap(modules, 0);
    assert modules.kids[0..] == modules.kids;
    MapAllInOrder(LowerModule, modules.kids, ms);
  }

  /**
   * A lowered file has one child per import followed by one child per module:
   * as many children as imports and modules together, each import's lowering
   * at its position and then each module's.
   */
  lemma {:induction false} SrcFileLayout(n: CNode, file: AstNode)
    requires LowerStart(n) == Ok(file)
    ensures |n.kids| >= 1 && |n.kids[0].kids| >= 2
    ensures var imports := n.kids[0].kids[0];
            var modules := n.kids[0].kids[1];
            && |file.children| == |imports.kids| + |modules.kids|
            && (forall j :: 0 <= j < |imports.kids| ==> Ok(file.children[j]) == LowerImport(imports.kids[j]))
            && (forall j :: 0 <= j < |modules.kids| ==> Ok(file.children[|imports.kids| + j]) == LowerModule(modules.kids[j]))
  {
    StartChildren(n, file);
    FileParts(n.kids[0].kids[0], n.kids[0].kids[1], file.children);
  }

  /** Children made of lowered imports then lowered modules hold each one at its position. */
  lemma {:induction false} FileParts(imports: CNode, modules: CNode, children: seq<AstNode>)
    requires LowerImports(imports, 0).Ok? && LowerModules(modules, 0).Ok?
    requires children == LowerImports(imports, 0).value + LowerModules(modules, 0).value
    ensures |children| == |imports.kids| + |modules.kids|
    ensures forall j :: 0 <= j < |imports.kids| ==> Ok(children[j]) == LowerImport(imports.kids[j])
    ensures forall j :: 0 <= j < |modules.kids| ==> Ok(children[|imports.kids| + j]) == LowerModule(modules.kids[j])
  {
    var lowered := LowerImports(imports, 0).value;
    var ms := LowerModules(modules, 0).value;
    FileImports(imports, lowered, ms, children);
    FileModules(modules, lowered, ms, children, |imports.kids|);
  }

  /** The imports' lowerings come first in a file's children, position by position. */
  lemma {:induction false} FileImports(imports: CNode, lowered: seq<AstNode>, ms: seq<AstNode>, children: seq<AstNode>)
    requires LowerImports(imports, 0) == Ok(lowered) && children == lowered + ms
    ensures |lowered| == |imports.kids|
    ensures forall j :: 0 <= j < |imports.kids| ==> Ok(children[j]) == LowerImport(imports.kids[j])
  {
    ImportsAreMap(imports, 0);
    assert imports.kids[0..] == imports.kids;
    assert children == [] + lowered + ms;
    MapAllWithin(LowerImport, imports.kids, lowered, [], ms);
  }

  /** The modules' lowerings follow the imports' in a file's children, position by position. */
  lemma {:induction false} FileModules(modules: CNode, lowered: seq<AstNode>, ms: seq<AstNode>, children: seq<AstNode>, offset: nat)
    requires LowerModules(modules, 0) == Ok(ms) && children == lowered + ms && offset == |lowered|
    ensures |ms| == |modules.kids|
    ensures forall j :: 0 <= j < |modules.kids| ==> Ok(children[offset + j]) == LowerModule(modules.kids[j])
  {
    ModulesAreMap(modules, 0);
    assert modules.kids[0..] == modules.kids;
    assert children == lowered + ms + [];
    MapAllWithin(LowerModule, modules.kids, ms, lowered, []);
  }

  /** A lowered file's children are the lowered imports followed by the lowered modules. */
  lemma {:induction false} StartChildren(n: CNode, file: AstNode)
    requires LowerStart(n) == Ok(file)
    ensures |n.kids| >= 1 && |n.kids[0].kids| >= 2
    ensures LowerImports(n.kids[0].kids[0], 0).Ok? && LowerModules(n.kids[0].kids[1], 0).Ok?
    ensures file.children == LowerImports(n.kids[0].kids[0], 0).value + LowerModules(n.kids[0].kids[1], 0).value
  {
  }

  // ----------------------------------------------------------------- dispatch

  /** The rule names the top-level dispatch handles. */
  const TopLevelRules: set<string> := {"s_import", "s_module", "START", "s_fndef", "s_fndecl", "s_scope"}

  /** The dispatch hands each of its six rules to that rule's handler and rejects every other rule by name. */
  lemma {:induction false} AnyDispatch(n: CNode)
    ensures n.name == Some("s_import") ==> LowerAny(n) == LowerImport(n)
    ensures n.name == Some("s_module") ==> LowerAny(n) == LowerModule(n)
    ensures n.name == Some("START") ==> LowerAny(n) == LowerStart(n)
    ensures n.name == Some("s_fndef") ==> LowerAny(n) == LowerFnDef(n)
    ensures n.name == Some("s_fndecl") ==> LowerAny(n) == LowerFnDecl(n)
    ensures n.name == Some("s_scope") ==> LowerAny(n) == LowerScope(n)
    ensures n.name.Some? && n.name.value !in TopLevelRules ==>
              LowerAny(n) == Err(Raised("UNHANDLED: '" + n.name.value + "'"))
    ensures n.name.None? ==> LowerAny(n) == Err(NoElementName)
  {
  }
}
