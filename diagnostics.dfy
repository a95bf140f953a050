/** The messages the checked constructors put into a SyntaxError, and what
    each message is guaranteed to mention: the operator's lexeme in quotes and
    `name:type` of every operand. */
module Diagnostics {
  import opened AstTypes

  /** `p` occurs in `s` starting at index `i`. */
  predicate OccursAt(s: string, p: string, i: int) {
    0 <= i <= |s| - |p| && s[i..i + |p|] == p
  }

  /** `p` occurs in `s` as a contiguous slice. */
  predicate Contains(s: string, p: string) {
    exists i | 0 <= i <= |s| - |p| :: OccursAt(s, p, i)
  }

  /** The operator lexeme as a message quotes it. */
  function Quoted(lexeme: string): string {
    "'" + lexeme + "'"
  }

  /** One operand as a message shows it: `Name():Type()`. */
  function Tagged(name: string, t: ExprType): string {
    name + ":" + TypeName(t)
  }

  /** The message of `Logical`: two operands that are not boolean. */
  function NonBooleanPair(lexeme: string, n1: string, t1: ExprType, n2: string, t2: ExprType): (m: string)
    ensures Quoted(lexeme) <= m
    ensures |m| >= 2 && m[|m| - 2..] == ") "
  {
    Quoted(lexeme) + " usado com operandos não booleanos (" + Tagged(n1, t1) + ") (" + Tagged(n2, t2) + ") "
  }

  /** The message of `Relational`, `Arithmetic` and `Assign` (whose lexeme
      is "="): two operands of incompatible types. */
  function IncompatiblePair(lexeme: string, n1: string, t1: ExprType, n2: string, t2: ExprType): (m: string)
    ensures Quoted(lexeme) <= m
    ensures |m| >= 2 && m[|m| - 2..] == ") "
  {
    Quoted(lexeme) + " usado com operandos de tipos incompatíveis (" + Tagged(n1, t1) + ") (" + Tagged(n2, t2) + ") "
  }

  /** The message of `UnaryExpr`: one operand that is not boolean. */
  function NonBooleanSingle(lexeme: string, n: string, t: ExprType): (m: string)
    ensures Quoted(lexeme) <= m
    ensures |m| >= 1 && m[|m| - 1] == ')'
  {
    Quoted(lexeme) + " usado com operando não booleano (" + Tagged(n, t) + ")"
  }

  /** Whatever surrounds it, a piece is found in the whole. */
  lemma ContainsPiece(a: string, p: string, b: string)
    ensures Contains(a + p + b, p)
  {
    var s := a + p + b;
    assert s[|a|..|a| + |p|] == p;
    assert OccursAt(s, p, |a|);
  }

  /** The shape shared by the two-operand messages. */
  lemma PairMentions(q: string, phrase: string, x: string, y: string)
    ensures var m := q + phrase + x + ") (" + y + ") ";
      Contains(m, q) && Contains(m, x) && Contains(m, y)
  {
    var m := q + phrase + x + ") (" + y + ") ";
    ContainsPiece([], q, phrase + x + ") (" + y + ") ");
    assert m == [] + q + (phrase + x + ") (" + y + ") ");
    ContainsPiece(q + phrase, x, ") (" + y + ") ");
    assert m == (q + phrase) + x + (") (" + y + ") ");
    ContainsPiece(q + phrase + x + ") (", y, ") ");
  }

  lemma NonBooleanPairMentions(lexeme: string, n1: string, t1: ExprType, n2: string, t2: ExprType)
    ensures var m := NonBooleanPair(lexeme, n1, t1, n2, t2);
      Contains(m, Quoted(lexeme)) && Contains(m, Tagged(n1, t1)) && Contains(m, Tagged(n2, t2))
  {
    PairMentions(Quoted(lexeme), " usado com operandos não booleanos (", Tagged(n1, t1), Tagged(n2, t2));
  }

  lemma IncompatiblePairMentions(lexeme: string, n1: string, t1: ExprType, n2: string, t2: ExprType)
    ensures var m := IncompatiblePair(lexeme, n1, t1, n2, t2);
      Contains(m, Quoted(lexeme)) && Contains(m, Tagged(n1, t1)) && Contains(m, Tagged(n2, t2))
  {
    PairMentions(Quoted(lexeme), " usado com operandos de tipos incompatíveis (", Tagged(n1, t1), Tagged(n2, t2));
  }

  /** The shape of the one-operand message. */
  lemma SingleMentions(q: string, phrase: string, x: string)
    ensures var m := q + phrase + x + ")";
      Contains(m, q) && Contains(m, x)
  {
    var m := q + phrase + x + ")";
    ContainsPiece([], q, phrase + x + ")");
    assert m == [] + q + (phrase + x + ")");
    ContainsPiece(q + phrase, x, ")");
  }

  lemma NonBooleanSingleMentions(lexeme: string, n: string, t: ExprType)
    ensures var m := NonBooleanSingle(lexeme, n, t);
      Contains(m, Quoted(lexeme)) && Contains(m, Tagged(n, t))
  {
    SingleMentions(Quoted(lexeme), " usado com operando não booleano (", Tagged(n, t));
  }
}
