# Construction-time type checking of a small language's syntax tree

This project models the syntax-tree layer of a small imperative language's
front end (`ast.cpp`). Nodes are built bottom-up by the parser. The
constructors of the logical, relational, arithmetic and unary operators
and of assignment are the only type checker the language has. Each one looks
at the type tags of its already-built children, may rewrite those tags in
place (the int↔bool coercion), sets its own type, or aborts with a
`SyntaxError` that carries the scanner's current line and a message naming
the operator and the operands.

Layout:

- `ast_types.dfy` (module `AstTypes`): the type tags (`Void`, `Int`, `Float`,
  `Bool`, and `Unlisted(code)` for any other value of the C++ `int` tag), the
  node kind tags, tokens, `SyntaxError`, `Result`, `intToBool` and the
  rendering of a type tag used by `Expression::Type`.
- `typing.dfy` (module `Typing`): the rule of each checked constructor as a
  pure function from the operand types found to the operand types left
  behind and the verdict. Relational and Arithmetic run the same operand
  check in the source and share one function for it, `UnifyCheck`; only
  Arithmetic then sets its own type from the result. The module also holds
  lemmas relating the rules.
- `diagnostics.dfy` (module `Diagnostics`): the three error messages, and
  lemmas that every message quotes the operator lexeme and shows
  `name:type` for every operand.
- `ast.dfy` (module `Ast`): the expression node as a class with a mutable `ty`
  field, the statement nodes as a datatype, and one method per checked
  constructor (`BuildLogical`, `BuildRelational`, `BuildArithmetic`,
  `BuildUnary`, `BuildAssign`). Each method rewrites its children's `ty` as
  the source does and is proved against the matching function of `Typing`.
  `Expr.Name()` is the token's lexeme (ast.cpp:34-36).
- `scenarios.dfy` (module `Scenarios`): small trees built through the checked
  constructors, with the results the semantics promises.

Behaviour of the code a reader might not expect:

- Relational, Arithmetic and Assign compare the two tags only for equality.
  So a void/void pair (or an equal pair of unlisted tags) is accepted without
  complaint (ast.cpp:109, 135, 193). `Typing.VoidOperands` states this.
- `UnaryExpr` never assigns its own type. The node keeps the `etype` it was
  given, not `bool` (ast.cpp:158-172).
- Logical promotes int operands before its check. When one operand is int
  and the other fails, that promotion stays in place on the failure path and
  the message shows the int operand as bool (ast.cpp:78-92).
- UnaryExpr promotes an int operand too, but an operand that fails the check
  was never int, so a failing UnaryExpr leaves its operand untouched and the
  message shows the original type (ast.cpp:162-171).
- Arithmetic overwrites the `etype` it was given on every success path
  (ast.cpp:141, 151).

Aliasing: none of the checked constructors needs its two children to be
distinct objects. When they are the same object the types are equal, so
either nothing is rewritten or the one promotion applies. The contracts
therefore hold without a distinctness precondition.

## Model

| member | source | states |
|---|---|---|
| AstTypes.IntToBool | ast.cpp:9-11 | zero converts to false and every other value to true |
| AstTypes.TypeName | ast.cpp:38-49 | the name is one of "int", "float", "bool", "void"; each of the first three is produced by exactly its own tag; "void" exactly for every tag that is not int, float or bool |
| AstTypes.TypeNameInjective | ast.cpp:38-49 | two tags with the same name, one of them named, are the same tag |
| Ast.Expr.Name | ast.cpp:34-36 | an expression's name is its token's lexeme |
| Ast.Expr.Type | ast.cpp:38-49 | an expression reports "int", "float" and "bool" exactly when its current tag is that type, and "void" exactly when it is none of the three |
| Typing.Promote | ast.cpp:78-84 | the pre-check of the boolean operators: an int or bool operand ends as bool, any other keeps its type |
| Typing.LogicalCheck | ast.cpp:74-93 | each int operand becomes bool and others are untouched; accepted iff both operands were int or bool; on acceptance both are bool; the rewrites happen whether or not it is accepted |
| Typing.UnifyCheck | ast.cpp:105-123 | accepted iff the types are equal or are {int, bool} in either order; equal types are left untouched; an int/bool pair becomes int/int; a rejected pair is left untouched; an accepted pair ends with equal types |
| Typing.UnaryCheck | ast.cpp:158-172 | an int operand becomes bool and others are untouched; accepted iff the operand was int or bool; a rejected operand is left untouched |
| Typing.AssignCheck | ast.cpp:189-205 | the target's type never changes; accepted iff the types are equal or an int/bool pair; on acceptance the value has the target's type; the value changes only for an int/bool pair |
| Typing.UnifySymmetric | ast.cpp:109-114 | swapping the operands of Relational/Arithmetic swaps the rewritten types and keeps the verdict |
| Typing.ChecksAreStable | ast.cpp:74-205 | re-checking the operands of an accepted node accepts them again with no rewrite, for all five rules |
| Typing.FloatNeverCoerced | ast.cpp:74-205 | a float operand is never rewritten; Logical and UnaryExpr always reject it; elsewhere a float is accepted only against a float |
| Typing.VoidOperands | ast.cpp:105-205 | Logical and UnaryExpr reject a void operand; Relational, Arithmetic and Assign accept a void operand exactly when the other is void too |
| Typing.AssignVersusUnify | ast.cpp:193-197 | on an int/bool pair Relational/Arithmetic settle on int/int, Assign on the target's type, and the two differ when the target is bool |
| Diagnostics.NonBooleanPair | ast.cpp:88-91 | the Logical message: it opens with the quoted operator lexeme and closes with ") " after the two `name:type` operands |
| Diagnostics.IncompatiblePair | ast.cpp:116-119 | the message of Relational, Arithmetic (ast.cpp:144-146) and Assign (ast.cpp:199-202, lexeme "="): it opens with the quoted lexeme and closes with ") " after the two `name:type` operands |
| Diagnostics.NonBooleanSingle | ast.cpp:168-170 | the UnaryExpr message: it opens with the quoted operator lexeme and closes with ")" after the one `name:type` operand |
| Diagnostics.NonBooleanPairMentions | ast.cpp:88-92 | the Logical message contains the quoted operator lexeme and `name:type` of both operands |
| Diagnostics.IncompatiblePairMentions | ast.cpp:116-120 | the Relational/Arithmetic/Assign message contains the quoted operator lexeme and `name:type` of both operands |
| Diagnostics.NonBooleanSingleMentions | ast.cpp:168-171 | the UnaryExpr message contains the quoted operator lexeme and `name:type` of the operand |
| Ast.Expr.constructor | ast.cpp:32 | the new node has exactly the kind, type, token and children given |
| Ast.Expr.Plain | ast.cpp:31 | a generic expression has kind EXPR and type void |
| Ast.Expr.Constant | ast.cpp:55 | kind CONSTANT with the given type and token, no children |
| Ast.Expr.Identifier | ast.cpp:61 | kind IDENTIFIER with the given type and token, no children |
| Ast.Expr.Access | ast.cpp:67-68 | kind ACCESS with the given type and token, children `[id, expr]`, and neither child is touched |
| Ast.Stmt.Kind | ast.cpp:179-225 | each statement variant has its fixed tag (STMT, SEQ, ASSIGN, IF_STMT, WHILE_STMT, DOWHILE_STMT), and the tag alone identifies the variant |
| Ast.BuildLogical | ast.cpp:74-93 | the children's new types are those of `LogicalCheck` on both paths; success iff accepted; on success a fresh LOG node of type bool over `[e1, e2]`; on failure a SyntaxError at the given line whose message shows the post-promotion types |
| Ast.BuildRelational | ast.cpp:105-123 | the children's new types are those of `UnifyCheck`; success iff accepted; on success a fresh REL node of type bool; on failure a SyntaxError at the given line with the incompatible-types message |
| Ast.BuildArithmetic | ast.cpp:131-152 | the children's new types are those of `UnifyCheck`; success iff accepted; on success a fresh ARI node whose type is the children's common type (the shared original type, or int after coercion), whatever `etype` was; on failure a SyntaxError at the given line |
| Ast.BuildUnary | ast.cpp:158-172 | the child's new type is that of `UnaryCheck` on both paths; success iff accepted; on success a fresh UNARY node that keeps `etype`; on failure (the operand was not int or bool) the operand is untouched and the SyntaxError at the given line shows its original type |
| Ast.BuildAssign | ast.cpp:189-205 | the target is not modified; the value's new type is that of `AssignCheck`; success iff accepted, giving `Assign(id, expr)`; on failure a SyntaxError at the given line whose message quotes "=" |
| Ast.LogicalFailureShowsPromotedTypes | ast.cpp:78-92 | a failing Logical message shows an int operand as `name:bool` and every other operand with its original type |
| Scenarios.IntPlusBool | ast.cpp:131-141 | `3 + true` succeeds with type int and the bool constant becomes int |
| Scenarios.FloatLessInt | ast.cpp:105-120 | `1.0 < 2` fails with a SyntaxError at the given line |
| Scenarios.IntAndBool | ast.cpp:74-84 | `a and b` with `a` an int succeeds with type bool and `a` becomes bool |
| Scenarios.FloatPlusBool | ast.cpp:143-147 | `x + y` with a float `x` and a bool `y` fails with a message containing `'+'`, `x:float` and `y:bool` |
| Scenarios.FloatPlusBoolMessage | ast.cpp:143-147 | the incompatible-types message for `+` over a float `x` and a bool `y` contains `'+'`, `x:float` and `y:bool` |
| Scenarios.BoolGetsInt | ast.cpp:193-197 | `flag = 1` with a bool `flag` succeeds and only the value is rewritten, to bool |

## Left out

- The global scanner (ast.cpp:6): the line number it would report is a parameter of every checked constructor.
- Message formatting is string concatenation. The wording is the source's. No character encoding is modelled; strings are sequences of characters.
- `ast.h`, `error.h` and the lexer are not part of this model. The numeric values of the type and kind enumerators are unknown. `Unlisted(code)` stands for a type tag value other than the four enumerators.
- Tokens are reduced to their lexeme. Null pointers, ownership and memory management are not modelled. Every child of a node is present, except that `Seq` may lack the rest of the list (`stmts`).
- The base constructors `Node()`, `Node(int)` and `Statement(int)` (ast.cpp:17-25) only initialise the tag for a derived node. Every node in the model is built by a concrete constructor, so no separate UNKNOWN node exists. `Statement()` is the `Stmt.Bare` variant.
- Statement nodes are values. The `Stmt.Assign` variant can also be written directly; `BuildAssign` is the checked way to build one, as the C++ constructor is.
- The evaluation or code generation of `If`, `While` and `DoWhile` belongs to later phases; this layer only builds the nodes.
- A failed C++ construction discards the half-built node. The model returns the error alone, so the discarded node never exists as a value.
