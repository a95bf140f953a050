/** Base vocabulary of the syntax-tree layer: the value-type tags, the node
    kind tags, tokens, the located syntax error, and the two pure helpers
    `IntToBool` and `TypeName` (the rendering behind `Expression::Type`). */
module AstTypes {

  /** The value type of an expression. The source stores it as a plain `int`
      compared against four enumerators; `Unlisted(code)` stands for any tag
      value that is none of the four. */
  datatype ExprType = Void | Int | Float | Bool | Unlisted(code: int)

  /** The node kind tag every node carries from construction on. */
  datatype NodeType =
    | UnknownNode | StmtNode | ExprNode
    | ConstantNode | IdentifierNode | AccessNode
    | LogNode | RelNode | AriNode | UnaryNode
    | SeqNode | AssignNode | IfNode | WhileNode | DoWhileNode

  /** A scanned token; only its lexeme is used by this layer. */
  datatype Token = Token(lexeme: string)

  /** The one error kind: the scanner's current line and a message. */
  datatype SyntaxError = SyntaxError(line: int, msg: string)

  datatype Option<T> = None | Some(value: T)

  /** Outcome of a checked constructor: the new node, or the error it throws. */
  datatype Result<T> = Ok(value: T) | Err(error: SyntaxError)

  /** The three type tags that have a name of their own. */
  predicate IsNamed(t: ExprType) {
    t == Int || t == Float || t == Bool
  }

  /** C++ `intToBool`: zero is false, every other value is true. */
  function IntToBool(value: int): (b: bool)
    ensures b ==> value != 0
    ensures !b ==> value == 0
  {
    value != 0
  }

  /** `Expression::Type`: the diagnostic name of a type tag; every tag other
      than the three named ones falls back to "void". */
  function TypeName(t: ExprType): (s: string)
    ensures s == "int" || s == "float" || s == "bool" || s == "void"
    ensures s == "void" <==> !IsNamed(t)
    ensures s == "int" <==> t == Int
    ensures s == "float" <==> t == Float
    ensures s == "bool" <==> t == Bool
  {
    match t
    case Int => "int"
    case Float => "float"
    case Bool => "bool"
    case _ => "void"
  }

  /** Distinct named tags are rendered distinctly, so a diagnostic identifies
      the type of a named operand uniquely. */
  lemma TypeNameInjective(a: ExprType, b: ExprType)
    requires IsNamed(a) || IsNamed(b)
    requires TypeName(a) == TypeName(b)
    ensures a == b
  {
  }
}
