/**
 * The parse tree handed to lowering by the grammar engine. Lowering reads four
 * things of a node: the name of its grammar element (only rules bound to a
 * grammar attribute have one), the class of that element (`Regex`, `List`,
 * `Sequence`, `Choice`, `This`, `Repeat`, ...), the text it matched and its
 * children. Children are whatever the engine reports, delimiter nodes of a
 * `List` included.
 */
module Cst {
  import opened Wrappers
  import opened Errors

  datatype CNode = CNode(name: Option<string>, cls: string, text: string, kids: seq<CNode>)

  /** `get_element_name`: the class of the node's grammar element. */
  function ClassName(n: CNode): (c: string)
    ensures n.name.None? ==> forall s :: HasName(n, s) <==> s == c
  {
    n.cls
  }

  /**
   * `hasname`: the element's name when it has one, else its class, equals
   * `s`. A named element is compared by its name alone, so it never matches
   * its class name unless the two coincide.
   */
  predicate HasName(n: CNode, s: string): (b: bool)
    ensures n.name.Some? ==> (b <==> ElementName(n) == Ok(s))
  {
    (if n.name.Some? then n.name.value else n.cls) == s
  }

  /** `n.element.name`, which raises on an element without a name. */
  function ElementName(n: CNode): (r: Result<string, Error>)
    ensures r.Ok? <==> n.name.Some?
    ensures r.Ok? ==> r.value == n.name.value
    ensures r.Err? ==> r.error == NoElementName
  {
    if n.name.Some? then Ok(n.name.value) else Err(NoElementName)
  }

  /** `n.children[i]`, which raises past the end. */
  function Child(n: CNode, i: nat): (r: Result<CNode, Error>)
    ensures r.Ok? <==> i < |n.kids|
    ensures r.Ok? ==> r.value == n.kids[i]
    ensures r.Err? ==> r.error == IndexOutOfRange
  {
    if i < |n.kids| then Ok(n.kids[i]) else Err(IndexOutOfRange)
  }

  /** `assert_eq(left, right)` on strings, and the `assert left == right` statements. */
  function AssertEq(left: string, right: string): (o: Outcome<Error>)
    ensures o.Pass? <==> left == right
    ensures o.Fail? ==> o.error == AssertionFailed
  {
    Need(left == right, AssertionFailed)
  }

  /**
   * `assert_eq(n.children[i].element.name, s)`: the child must exist, carry a
   * name, and that name must be `s`, checked in that order.
   */
  function ExpectChildName(n: CNode, i: nat, s: string): (o: Outcome<Error>)
    ensures o.Pass? <==> i < |n.kids| && n.kids[i].name == Some(s)
  {
    if i >= |n.kids| then Fail(IndexOutOfRange)
    else if n.kids[i].name.None? then Fail(NoElementName)
    else AssertEq(n.kids[i].name.value, s)
  }
}
