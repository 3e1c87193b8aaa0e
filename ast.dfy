/**
 * The abstract syntax tree lowering produces: one node type with a tag, an
 * ordered list of children and an optional payload, as in atree.py, plus
 * the shape each tag is meant to have and the `to_dict` projection.
 */
module Ast {
  import opened Wrappers

  datatype AstType =
    | Import | Name | Module | SrcFile | FnDecl | Integer | String | Float | Char
    | Binop | FnDef | BinopExpr | Scope | VarAssignment | VarDefinition | VarDeclaration

  /** One declared parameter of a function: its identifier and its lowered type expression. */
  datatype Param = Param(ident: string, typ: AstNode)

  /**
   * The payload. A float literal keeps its source text (floating point is not
   * modelled); a module carries its name as a `name` node; a function
   * declaration carries its parameter list.
   */
  datatype Value =
    | NoValue
    | Text(text: string)
    | Int(number: int)
    | FloatLiteral(literal: string)
    | Node(node: AstNode)
    | Params(params: seq<Param>)

  datatype AstNode = AstNode(kind: AstType, children: seq<AstNode>, value: Value)

  /** A `name` node: no children, the dotted name as its payload. */
  function NameNode(s: string): AstNode
  {
    AstNode(Name, [], Text(s))
  }

  /** The six operator symbols a `binop` node can carry. */
  const BinopSymbols: set<string> := {"+", "-", "*", "/", "&", "|"}

  // ------------------------------------------------------------------ shapes

  predicate IsNameNode(a: AstNode)
  {
    a.kind == Name && a.children == [] && a.value.Text?
  }

  predicate IsBinop(a: AstNode)
  {
    a.kind == Binop && a.children == [] && a.value.Text? && a.value.text in BinopSymbols
  }

  /** A lowered expression: a literal, a name, or `binop_expr` of an operator and two expressions. */
  predicate IsExpr(a: AstNode)
    decreases a
  {
    match a.kind
    case Name => IsNameNode(a)
    case Integer => a.children == [] && a.value.Int?
    case Float => a.children == [] && a.value.FloatLiteral?
    case String => a.children == [] && a.value.Text?
    case Char => a.children == [] && a.value.Text?
    case BinopExpr =>
      && |a.children| == 3 && a.value == NoValue
      && IsBinop(a.children[0]) && IsExpr(a.children[1]) && IsExpr(a.children[2])
    case _ => false
  }

  /** An entry of a scope: an expression or one of the three variable statements. */
  predicate IsStatement(a: AstNode)
  {
    || IsExpr(a)
    || (a.kind == VarDeclaration && a.value == NoValue && |a.children| == 2
        && IsNameNode(a.children[0]) && IsExpr(a.children[1]))
    || (a.kind == VarDefinition && a.value == NoValue && |a.children| == 3
        && IsNameNode(a.children[0]) && IsExpr(a.children[1]) && IsExpr(a.children[2]))
    || (a.kind == VarAssignment && a.value == NoValue && |a.children| == 2
        && IsNameNode(a.children[0]) && IsExpr(a.children[1]))
  }

  predicate IsScope(a: AstNode)
  {
    && a.kind == Scope && a.value == NoValue
    && forall i :: 0 <= i < |a.children| ==> IsStatement(a.children[i])
  }

  predicate IsFnDecl(a: AstNode)
  {
    && a.kind == FnDecl && |a.children| == 1 && IsExpr(a.children[0])
    && a.value.Params?
    && forall i :: 0 <= i < |a.value.params| ==> IsExpr(a.value.params[i].typ)
  }

  predicate IsFnDef(a: AstNode)
  {
    && a.kind == FnDef && a.value.Text? && |a.children| == 2
    && IsFnDecl(a.children[0]) && IsScope(a.children[1])
  }

  predicate IsImport(a: AstNode)
  {
    a.kind == Import && a.value == NoValue && |a.children| == 1 && IsNameNode(a.children[0])
  }

  /**
   * A module: its name as a `name` node payload, and children that are whatever
   * the top-level dispatch produced for its entries.
   */
  predicate IsModule(a: AstNode)
    decreases a, 1
  {
    && a.kind == Module && a.value.Node? && IsNameNode(a.value.node)
    && forall i :: 0 <= i < |a.children| ==> IsTopLevel(a.children[i])
  }

  /** A source file: all imports first, then all modules. */
  predicate IsSrcFile(a: AstNode)
    decreases a, 1
  {
    && a.kind == SrcFile && a.value == NoValue
    && exists k :: 0 <= k <= |a.children| && ImportsThenModules(a, k)
  }

  predicate ImportsThenModules(a: AstNode, k: nat)
    requires k <= |a.children|
    decreases a, 0
  {
    && (forall i :: 0 <= i < k ==> IsImport(a.children[i]))
    && (forall i :: k <= i < |a.children| ==> IsModule(a.children[i]))
  }

  /** What the top-level dispatch can produce. */
  predicate IsTopLevel(a: AstNode)
    decreases a, 2
  {
    IsImport(a) || IsModule(a) || IsSrcFile(a) || IsFnDef(a) || IsFnDecl(a) || IsScope(a)
  }

  // ----------------------------------------------------------------- to_dict

  /** The dictionary `to_dict` builds: the tag, the children's dictionaries and, when asked for, the payload. */
  datatype Dict = Dict(kind: AstType, children: seq<Dict>, value: Option<Value>)

  /** `to_dict(include_value)`. */
  function ToDict(a: AstNode, includeValue: bool): Dict
    decreases a
  {
    Dict(a.kind,
         seq(|a.children|, i requires 0 <= i < |a.children| => ToDict(a.children[i], includeValue)),
         if includeValue then Some(a.value) else None)
  }

  /** Reads a dictionary back into a node; a missing payload reads as no payload. */
  function FromDict(d: Dict): AstNode
    decreases d
  {
    AstNode(d.kind,
            seq(|d.children|, i requires 0 <= i < |d.children| => FromDict(d.children[i])),
            if d.value.Some? then d.value.value else NoValue)
  }

  /** The tree with every payload dropped. */
  function Skeleton(a: AstNode): AstNode
    decreases a
  {
    AstNode(a.kind, seq(|a.children|, i requires 0 <= i < |a.children| => Skeleton(a.children[i])), NoValue)
  }

  /** With payloads, `to_dict` loses nothing: the node can be read back from it. */
  lemma {:induction false} DictRoundTrip(a: AstNode)
    ensures FromDict(ToDict(a, true)) == a
    decreases a
  {
    var d := ToDict(a, true);
    forall i | 0 <= i < |a.children| ensures FromDict(d.children[i]) == a.children[i] {
      DictRoundTrip(a.children[i]);
    }
    assert FromDict(d).children == a.children;
  }

  /** Without payloads, `to_dict` keeps exactly the tags and the tree shape. */
  lemma {:induction false} DictWithoutValues(a: AstNode)
    ensures FromDict(ToDict(a, false)) == Skeleton(a)
    decreases a
  {
    var d := ToDict(a, false);
    forall i | 0 <= i < |a.children| ensures FromDict(d.children[i]) == Skeleton(a.children[i]) {
      DictWithoutValues(a.children[i]);
    }
    assert FromDict(d).children == Skeleton(a).children;
  }
}
