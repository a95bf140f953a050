/** Worked constructions: a parser building small trees bottom-up through the
    checked constructors, with the outcomes the static semantics promises. */
module Scenarios {
  import opened AstTypes
  import opened Diagnostics
  import opened Ast

  /** `3 + true`: succeeds with type int, and the bool constant is rewritten
      to int. */
  method IntPlusBool() returns (r: Result<Expr>, right: Expr)
    ensures r.Ok? && r.value.ty == Int
    ensures right.ty == Int
  {
    var three := new Expr.Constant(Int, Token("3"));
    right := new Expr.Constant(Bool, Token("true"));
    r := BuildArithmetic(Int, Token("+"), three, right, 1);
  }

  /** `1.0 < 2`: a float never meets an int. */
  method FloatLessInt() returns (r: Result<Expr>)
    ensures r.Err? && r.error.line == 7
  {
    var one := new Expr.Constant(Float, Token("1.0"));
    var two := new Expr.Constant(Int, Token("2"));
    r := BuildRelational(Token("<"), one, two, 7);
  }

  /** `a and b` with `a` an int: `a` is promoted and the node is boolean. */
  method IntAndBool() returns (r: Result<Expr>, left: Expr)
    ensures r.Ok? && r.value.ty == Bool
    ensures left.ty == Bool
  {
    left := new Expr.Identifier(Int, Token("a"));
    var b := new Expr.Identifier(Bool, Token("b"));
    r := BuildLogical(Token("and"), left, b, 3);
  }

  /** `x + y` with `x` a float and `y` a bool fails, and the message names
      the operator and both operands with their types. */
  method FloatPlusBool() returns (r: Result<Expr>)
    ensures r.Err?
    ensures Contains(r.error.msg, "'+'") && Contains(r.error.msg, "x:float") && Contains(r.error.msg, "y:bool")
  {
    var x := new Expr.Identifier(Float, Token("x"));
    var y := new Expr.Identifier(Bool, Token("y"));
    r := BuildArithmetic(Float, Token("+"), x, y, 2);
    FloatPlusBoolMessage(r.error.msg);
  }

  /** The message of that failure, at the level of characters. */
  lemma FloatPlusBoolMessage(msg: string)
    requires msg == IncompatiblePair("+", "x", Float, "y", Bool)
    ensures Contains(msg, "'+'") && Contains(msg, "x:float") && Contains(msg, "y:bool")
  {
    IncompatiblePairMentions("+", "x", Float, "y", Bool);
    assert Quoted("+") == "'+'";
    assert Tagged("x", Float) == "x:float";
    assert Tagged("y", Bool) == "y:bool";
  }

  /** `flag = 1` with `flag` a bool: only the value is rewritten, to bool. */
  method BoolGetsInt() returns (r: Result<Stmt>, target: Expr, value: Expr)
    ensures r.Ok? && r.value.Kind() == AssignNode
    ensures target.ty == Bool && value.ty == Bool
  {
    target := new Expr.Identifier(Bool, Token("flag"));
    value := new Expr.Constant(Int, Token("1"));
    r := BuildAssign(target, value, 5);
  }
}
