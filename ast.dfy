/** The node taxonomy of ast.cpp and its checked constructors.

    Expressions are objects: a parent's constructor rewrites the `ty` field
    of its already-built children in place. Statements are values that hold
    their expressions. Each checked constructor is a method that takes the
    scanner's current line as a parameter and returns the new node or the
    SyntaxError the source throws; its child rewrites happen on both paths. */
module Ast {
  import opened AstTypes
  import opened Typing
  import opened Diagnostics

  /** An expression node. `kind`, `token` and the children are fixed at
      construction; only `ty` changes afterwards, and only through the
      checked constructor of the node's parent. The children are `[id, expr]`
      for Access, `[expr1, expr2]` for the binary operators and `[expr]` for
      UnaryExpr. */
  class Expr {
    const kind: NodeType
    var ty: ExprType
    const token: Token
    const operands: seq<Expr>

    /** `Expression(int ntype, int etype, Token *t)` together with the
        child pointers the derived node keeps. */
    constructor (ntype: NodeType, etype: ExprType, t: Token, children: seq<Expr>)
      ensures kind == ntype && ty == etype && token == t && operands == children
    {
      kind, ty, token, operands := ntype, etype, t, children;
    }

    /** `Expression(Token *t)`: a generic expression of type void. */
    constructor Plain(t: Token)
      ensures kind == ExprNode && ty == Void && token == t && operands == []
    {
      kind, ty, token, operands := ExprNode, Void, t, [];
    }

    constructor Constant(etype: ExprType, t: Token)
      ensures kind == ConstantNode && ty == etype && token == t && operands == []
    {
      kind, ty, token, operands := ConstantNode, etype, t, [];
    }

    constructor Identifier(etype: ExprType, t: Token)
      ensures kind == IdentifierNode && ty == etype && token == t && operands == []
    {
      kind, ty, token, operands := IdentifierNode, etype, t, [];
    }

    /** Access does no checking and leaves both children as they are. */
    constructor Access(etype: ExprType, t: Token, i: Expr, e: Expr)
      ensures kind == AccessNode && ty == etype && token == t && operands == [i, e]
    {
      kind, ty, token, operands := AccessNode, etype, t, [i, e];
    }

    /** `Expression::Name`: the token's lexeme. */
    function Name(): (n: string)
      ensures n == token.lexeme
    {
      token.lexeme
    }

    /** `Expression::Type`: the current type tag, rendered. */
    function Type(): (s: string)
      reads this
      ensures s == "void" <==> !IsNamed(ty)
      ensures s == "int" <==> ty == Int
      ensures s == "float" <==> ty == Float
      ensures s == "bool" <==> ty == Bool
    {
      TypeName(ty)
    }
  }

  /** A statement node. */
  datatype Stmt =
    | Bare                                  // Statement()
    | Seq(stmt: Stmt, stmts: Option<Stmt>)  // head and the rest, if any
    | Assign(id: Expr, expr: Expr)
    | If(expr: Expr, stmt: Stmt)
    | While(expr: Expr, stmt: Stmt)
    | DoWhile(stmt: Stmt, expr: Expr)
  {
    /** The node kind tag each statement constructor fixes; the tag alone
        tells the variants apart. */
    function Kind(): (k: NodeType)
      ensures k == StmtNode <==> Bare?
      ensures k == SeqNode <==> Seq?
      ensures k == AssignNode <==> Assign?
      ensures k == IfNode <==> If?
      ensures k == WhileNode <==> While?
      ensures k == DoWhileNode <==> DoWhile?
    {
      match this
      case Bare => StmtNode
      case Seq(_, _) => SeqNode
      case Assign(_, _) => AssignNode
      case If(_, _) => IfNode
      case While(_, _) => WhileNode
      case DoWhile(_, _) => DoWhileNode
    }
  }

  /** `Logical(t, e1, e2)`: promote int operands to bool, then require both
      to be bool; the node's type is bool. */
  method BuildLogical(t: Token, e1: Expr, e2: Expr, line: int) returns (r: Result<Expr>)
    modifies e1, e2
    ensures e1.ty == LogicalCheck(old(e1.ty), old(e2.ty)).left
    ensures e2.ty == LogicalCheck(old(e1.ty), old(e2.ty)).right
    ensures r.Ok? <==> LogicalCheck(old(e1.ty), old(e2.ty)).accepted
    ensures r.Ok? ==> fresh(r.value) && r.value.kind == LogNode && r.value.ty == Bool
                      && r.value.token == t && r.value.operands == [e1, e2]
    ensures r.Err? ==> r.error == SyntaxError(line, NonBooleanPair(t.lexeme, e1.Name(), e1.ty, e2.Name(), e2.ty))
  {
    if e1.ty == Int {
      e1.ty := Bool;
    }
    if e2.ty == Int {
      e2.ty := Bool;
    }
    if e1.ty != Bool || e2.ty != Bool {
      return Err(SyntaxError(line, NonBooleanPair(t.lexeme, e1.Name(), e1.ty, e2.Name(), e2.ty)));
    }
    var node := new Expr(LogNode, Bool, t, [e1, e2]);
    r := Ok(node);
  }

  /** `Relational(t, e1, e2)`: equal types pass, an int/bool pair is unified
      to int, anything else fails; the node's type is bool. */
  method BuildRelational(t: Token, e1: Expr, e2: Expr, line: int) returns (r: Result<Expr>)
    modifies e1, e2
    ensures e1.ty == UnifyCheck(old(e1.ty), old(e2.ty)).left
    ensures e2.ty == UnifyCheck(old(e1.ty), old(e2.ty)).right
    ensures r.Ok? <==> UnifyCheck(old(e1.ty), old(e2.ty)).accepted
    ensures r.Ok? ==> fresh(r.value) && r.value.kind == RelNode && r.value.ty == Bool
                      && r.value.token == t && r.value.operands == [e1, e2]
    ensures r.Err? ==> r.error == SyntaxError(line, IncompatiblePair(t.lexeme, e1.Name(), e1.ty, e2.Name(), e2.ty))
  {
    if e1.ty != e2.ty {
      if (e1.ty == Int && e2.ty == Bool) || (e1.ty == Bool && e2.ty == Int) {
        e1.ty := Int;
        e2.ty := Int;
      } else {
        return Err(SyntaxError(line, IncompatiblePair(t.lexeme, e1.Name(), e1.ty, e2.Name(), e2.ty)));
      }
    }
    var node := new Expr(RelNode, Bool, t, [e1, e2]);
    r := Ok(node);
  }

  /** `Arithmetic(etype, t, e1, e2)`: the same rule as Relational; the node
      takes the operands' common type after unification, whatever `etype`
      was passed. */
  method BuildArithmetic(etype: ExprType, t: Token, e1: Expr, e2: Expr, line: int) returns (r: Result<Expr>)
    modifies e1, e2
    ensures e1.ty == UnifyCheck(old(e1.ty), old(e2.ty)).left
    ensures e2.ty == UnifyCheck(old(e1.ty), old(e2.ty)).right
    ensures r.Ok? <==> UnifyCheck(old(e1.ty), old(e2.ty)).accepted
    ensures r.Ok? ==> fresh(r.value) && r.value.kind == AriNode && r.value.ty == e1.ty && r.value.ty == e2.ty
                      && r.value.token == t && r.value.operands == [e1, e2]
    ensures r.Ok? ==> r.value.ty == if old(e1.ty) == old(e2.ty) then old(e1.ty) else Int
    ensures r.Err? ==> r.error == SyntaxError(line, IncompatiblePair(t.lexeme, e1.Name(), e1.ty, e2.Name(), e2.ty))
  {
    var node := new Expr(AriNode, etype, t, [e1, e2]);
    if e1.ty != e2.ty {
      if (e1.ty == Int && e2.ty == Bool) || (e1.ty == Bool && e2.ty == Int) {
        e1.ty := Int;
        e2.ty := Int;
        node.ty := Int;
      } else {
        return Err(SyntaxError(line, IncompatiblePair(t.lexeme, e1.Name(), e1.ty, e2.Name(), e2.ty)));
      }
    } else {
      node.ty := e1.ty;
    }
    r := Ok(node);
  }

  /** `UnaryExpr(etype, t, e)`: promote an int operand to bool, then require
      bool; the node keeps the `etype` it was given. An operand that fails was
      never int, so a failure leaves it untouched and reports its own type. */
  method BuildUnary(etype: ExprType, t: Token, e: Expr, line: int) returns (r: Result<Expr>)
    modifies e
    ensures e.ty == UnaryCheck(old(e.ty)).operand
    ensures r.Ok? <==> UnaryCheck(old(e.ty)).accepted
    ensures r.Ok? ==> fresh(r.value) && r.value.kind == UnaryNode && r.value.ty == etype
                      && r.value.token == t && r.value.operands == [e]
    ensures r.Err? ==> e.ty == old(e.ty)
    ensures r.Err? ==> r.error == SyntaxError(line, NonBooleanSingle(t.lexeme, e.Name(), old(e.ty)))
  {
    if e.ty == Int {
      e.ty := Bool;
    }
    if e.ty != Bool {
      return Err(SyntaxError(line, NonBooleanSingle(t.lexeme, e.Name(), e.ty)));
    }
    var node := new Expr(UnaryNode, etype, t, [e]);
    r := Ok(node);
  }

  /** `Assign(i, e)`: equal types pass, an int/bool pair gives the value the
      target's type, anything else fails; the target is never rewritten. */
  method BuildAssign(i: Expr, e: Expr, line: int) returns (r: Result<Stmt>)
    modifies e
    ensures i.ty == AssignCheck(old(i.ty), old(e.ty)).left
    ensures e.ty == AssignCheck(old(i.ty), old(e.ty)).right
    ensures r.Ok? <==> AssignCheck(old(i.ty), old(e.ty)).accepted
    ensures r.Ok? ==> r.value == Assign(i, e)
    ensures r.Err? ==> r.error == SyntaxError(line, IncompatiblePair("=", i.Name(), i.ty, e.Name(), e.ty))
  {
    if i.ty != e.ty {
      if (i.ty == Int && e.ty == Bool) || (i.ty == Bool && e.ty == Int) {
        e.ty := i.ty;
      } else {
        return Err(SyntaxError(line, IncompatiblePair("=", i.Name(), i.ty, e.Name(), e.ty)));
      }
    }
    r := Ok(Assign(i, e));
  }

  /** A failing Logical node reports its operands after promotion: an int
      operand shows up as bool in the message, any other operand as it was. */
  lemma LogicalFailureShowsPromotedTypes(lexeme: string, n1: string, t1: ExprType, n2: string, t2: ExprType)
    requires !LogicalCheck(t1, t2).accepted
    ensures var c := LogicalCheck(t1, t2);
      var m := NonBooleanPair(lexeme, n1, c.left, n2, c.right);
      (t1 == Int ==> Contains(m, n1 + ":bool")) && (t1 != Int ==> Contains(m, Tagged(n1, t1))) &&
      (t2 == Int ==> Contains(m, n2 + ":bool")) && (t2 != Int ==> Contains(m, Tagged(n2, t2)))
  {
    var c := LogicalCheck(t1, t2);
    NonBooleanPairMentions(lexeme, n1, c.left, n2, c.right);
    assert t1 == Int ==> Tagged(n1, c.left) == n1 + ":bool";
    assert t2 == Int ==> Tagged(n2, c.right) == n2 + ":bool";
  }
}
