/** The static semantics the checked constructors of ast.cpp run, as pure
    functions on type tags. Each check takes the operand types as found and
    returns the operand types as the constructor leaves them (on the failure
    path too) together with whether construction succeeds. The builders in
    module Ast are proved against these functions. */
module Typing {
  import opened AstTypes

  /** Operand types after a two-operand check, and its verdict. */
  datatype Binary = Binary(left: ExprType, right: ExprType, accepted: bool)

  /** Operand type after a one-operand check, and its verdict. */
  datatype Single = Single(operand: ExprType, accepted: bool)

  /** The types a boolean operator takes: bool itself, and int by promotion. */
  predicate IsBoolish(t: ExprType) {
    t == Int || t == Bool
  }

  /** The one coercible mismatch: an int and a bool, in either order. */
  predicate IntBoolPair(t1: ExprType, t2: ExprType) {
    {t1, t2} == {Int, Bool}
  }

  /** The unconditional int-to-bool upgrade applied to each operand of a
      logical or unary operator before its check. */
  function Promote(t: ExprType): (r: ExprType)
    ensures IsBoolish(t) ==> r == Bool
    ensures !IsBoolish(t) ==> r == t
  {
    if t == Int then Bool else t
  }

  /** `Logical`: each int operand becomes bool, any other operand is left
      alone; the node succeeds exactly when both operands were int or bool,
      and the rewrites stay in place when it fails. */
  function LogicalCheck(t1: ExprType, t2: ExprType): (r: Binary)
    ensures r.accepted <==> IsBoolish(t1) && IsBoolish(t2)
    ensures IsBoolish(t1) ==> r.left == Bool
    ensures !IsBoolish(t1) ==> r.left == t1
    ensures IsBoolish(t2) ==> r.right == Bool
    ensures !IsBoolish(t2) ==> r.right == t2
    ensures r.accepted ==> r.left == Bool && r.right == Bool
  {
    var a := Promote(t1);
    var b := Promote(t2);
    Binary(a, b, a == Bool && b == Bool)
  }

  /** The operand check `Relational` and `Arithmetic` share: equal types pass
      untouched, void and unlisted tags included; an int/bool pair becomes
      int/int; every other mismatch fails without any rewrite. */
  function UnifyCheck(t1: ExprType, t2: ExprType): (r: Binary)
    ensures r.accepted <==> t1 == t2 || IntBoolPair(t1, t2)
    ensures t1 == t2 ==> r.left == t1 && r.right == t2
    ensures IntBoolPair(t1, t2) ==> r.left == Int && r.right == Int
    ensures !r.accepted ==> r.left == t1 && r.right == t2
    ensures r.accepted ==> r.left == r.right
  {
    if t1 != t2 then
      if (t1 == Int && t2 == Bool) || (t1 == Bool && t2 == Int) then
        Binary(Int, Int, true)
      else
        Binary(t1, t2, false)
    else
      Binary(t1, t2, true)
  }

  /** `UnaryExpr`: an int operand becomes bool; the node succeeds exactly
      when the operand was int or bool. A rejected operand was never int, so
      rejection leaves it untouched. */
  function UnaryCheck(t: ExprType): (r: Single)
    ensures r.accepted <==> IsBoolish(t)
    ensures IsBoolish(t) ==> r.operand == Bool
    ensures !IsBoolish(t) ==> r.operand == t
    ensures !r.accepted ==> r.operand == t
  {
    var a := Promote(t);
    Single(a, a == Bool)
  }

  /** `Assign`: the target's type wins. The target is never rewritten; the
      value takes the target's type exactly when they form an int/bool pair;
      any other mismatch fails without a rewrite. */
  function AssignCheck(tid: ExprType, texpr: ExprType): (r: Binary)
    ensures r.left == tid
    ensures r.accepted <==> tid == texpr || IntBoolPair(tid, texpr)
    ensures r.accepted ==> r.right == tid
    ensures r.right != texpr ==> IntBoolPair(tid, texpr)
    ensures !r.accepted ==> r.right == texpr
  {
    if tid != texpr then
      if (tid == Int && texpr == Bool) || (tid == Bool && texpr == Int) then
        Binary(tid, tid, true)
      else
        Binary(tid, texpr, false)
    else
      Binary(tid, texpr, true)
  }

  // ---------------------------------------------------------------------
  // Relations between the checks
  // ---------------------------------------------------------------------

  /** Relational/Arithmetic do not depend on operand order. */
  lemma UnifySymmetric(t1: ExprType, t2: ExprType)
    ensures UnifyCheck(t2, t1) == Binary(UnifyCheck(t1, t2).right, UnifyCheck(t1, t2).left, UnifyCheck(t1, t2).accepted)
  {
  }

  /** Checking an accepted node's operands again accepts them as they are:
      once built, a node is well-typed and needs no further coercion. */
  lemma ChecksAreStable(t1: ExprType, t2: ExprType)
    ensures var c := LogicalCheck(t1, t2); c.accepted ==> LogicalCheck(c.left, c.right) == c
    ensures var c := UnifyCheck(t1, t2); c.accepted ==> UnifyCheck(c.left, c.right) == c
    ensures var c := AssignCheck(t1, t2); c.accepted ==> AssignCheck(c.left, c.right) == c
    ensures var c := UnaryCheck(t1); c.accepted ==> UnaryCheck(c.operand) == c
  {
  }

  /** A float operand is never rewritten by any check, and a float meets
      only another float. */
  lemma FloatNeverCoerced(t: ExprType)
    ensures LogicalCheck(Float, t).left == Float && !LogicalCheck(Float, t).accepted
    ensures LogicalCheck(t, Float).right == Float && !LogicalCheck(t, Float).accepted
    ensures UnaryCheck(Float) == Single(Float, false)
    ensures UnifyCheck(Float, t).accepted <==> t == Float
    ensures UnifyCheck(t, Float).accepted <==> t == Float
    ensures UnifyCheck(Float, t).left == Float && UnifyCheck(t, Float).right == Float
    ensures AssignCheck(Float, t).accepted <==> t == Float
    ensures AssignCheck(t, Float).accepted <==> t == Float
    ensures AssignCheck(t, Float).right == Float
  {
  }

  /** Void is rejected by the boolean operators, and by the others unless it
      is met by void itself: the source compares the two tags only for
      equality, so a void/void pair passes. */
  lemma VoidOperands(t: ExprType)
    ensures !LogicalCheck(Void, t).accepted && !LogicalCheck(t, Void).accepted
    ensures !UnaryCheck(Void).accepted
    ensures UnifyCheck(Void, t).accepted <==> t == Void
    ensures UnifyCheck(t, Void).accepted <==> t == Void
    ensures AssignCheck(Void, t).accepted <==> t == Void
    ensures AssignCheck(t, Void).accepted <==> t == Void
  {
  }

  /** The two unification disciplines differ on an int/bool pair: the
      symmetric one settles on int, the assignment on the target's type. */
  lemma AssignVersusUnify(tid: ExprType, texpr: ExprType)
    requires IntBoolPair(tid, texpr)
    ensures UnifyCheck(tid, texpr) == Binary(Int, Int, true)
    ensures AssignCheck(tid, texpr) == Binary(tid, tid, true)
    ensures tid == Bool ==> AssignCheck(tid, texpr).right != UnifyCheck(tid, texpr).right
  {
  }
}
