/** The exceptions the compiler front end and backend raise, one constructor per kind. */
module Errors {

  datatype Error =
    /** `assert` or `assert_eq` failed: the parse tree does not have the shape lowering expects. */
    | AssertionFailed
    /** `raise Exception(message)`; `Exception()` has the empty message. */
    | Raised(message: string)
    /** `children[i]` (or a list index) past the end of the list. */
    | IndexOutOfRange
    /** `element.name` read on a grammar element that carries no name. */
    | NoElementName
    /** `int(text)` rejected the text. */
    | NotAnInteger(text: string)
    /** Tuple unpacking of `children` met a list of the wrong length. */
    | UnpackMismatch
    /** `NameError(name)` from a failed symbol lookup. */
    | UnknownSymbol(name: string)
}
