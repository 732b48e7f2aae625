# rs-compiler: type lattice and source-reconstructing printer, in Dafny

This project models two parts of the rs-compiler front end and proves
properties of them.

- **Typings** (`Typings.dfy`) covers the compiler's `Type` enumeration and
  its three operations:
  - the display name of each type;
  - the assignability relation, in which `Error` absorbs every mismatch;
  - parsing a type annotation's name back into a type.
- **Printer** (`Printer.dfy`) covers the `ASTPrinter` that turns a syntax
  tree back into styled source text. The class keeps the printer's two
  fields, the nesting depth `indent` and the accumulated `result`. Each
  `add_*` helper and each `visit_*` method becomes a method that appends to
  `result` exactly as the code does.
  - For every shape, a specification function (`RenderExpr`, `RenderStmt`)
    states what the printer appends for a node at a given depth. Each
    method is proved to append exactly that and to leave `indent` as it
    found it.
  - Lemmas then state the layout the printer produces: padding depth, line
    ends, separators, and what surrounds each shape.
- **Ast** (`Ast.dfy`) gives the statement and expression shapes, with the
  fields the printer reads.
- `Sequences.dfy` and `Wrappers.dfy` hold generic helpers: joining,
  concatenation and associativity lemmas, and `Option`.

The output is a list of pieces: one piece per uncoloured append, two per
coloured one (the style marker, then the text). A piece is either a style
marker (number, text, keyword, variable, boolean, type, reset) or a literal
text chunk. `Plain` drops the markers and gives the text a colourless device
would show.

The model keeps these details of the code:
- A parameter prints as `x: int`, with no space before the colon: the
  identifier is appended, then `:` and a space (printer.rs:84, 55-56).
- A parameter's identifier is appended with the text style, not the
  variable style (printer.rs:84).
- The literal written after `{` is a line break followed by eight spaces
  (printer.rs:24-27). The first statement of a block therefore shows eight
  more spaces than its depth (`FirstLinePadding`).
- `while` is a statement: its visit method takes a `WhileStmt`
  (printer.rs:100).

## Model

| member | source | states |
|---|---|---|
| Typings.Display | src/typings/mod.rs:14-26 | every type has a non-empty name |
| Typings.DisplayDistinct | src/typings/mod.rs:16-23 | two types share a name exactly when they are the same variant (all function types print `function`); `Error` prints `?` |
| Typings.DisplayIgnoresIndex | src/typings/mod.rs:21 | the name of a function type does not depend on its function index |
| Typings.IsAssignableTo | src/typings/mod.rs:29-37 | if either side is `Error`, the answer is true; if the answer is true, the two types are equal or one of them is `Error` |
| Typings.AssignableTable | src/typings/mod.rs:30-36 | assignable exactly when both are `Int`, both are `Bool`, or either is `Error` |
| Typings.IntAndBoolAssignableToThemselves | src/typings/mod.rs:31-32 | `Int` is assignable to `Int` and `Bool` to `Bool` |
| Typings.ErrorAbsorbs | src/typings/mod.rs:33-34 | `Error` is assignable to and from every type |
| Typings.NotAssignableExamples | src/typings/mod.rs:35 | `Void`, `Unresolved` and function types are not assignable even to themselves; `Int` and `Bool` are not assignable to each other |
| Typings.AssignableSymmetric | src/typings/mod.rs:29-37 | the relation is symmetric |
| Typings.FromStr | src/typings/mod.rs:38-45 | a parsed type is `Int`, `Bool` or `Void`, and its display name is the parsed string |
| Typings.FromStrAccepts | src/typings/mod.rs:39-44 | parsing succeeds exactly on `int`, `bool` and `void` |
| Typings.DisplayThenParse | src/typings/mod.rs:16-23 | parsing the name of `Int`, `Bool` or `Void` gives the type back; parsing the name of any other type fails |
| Printer.ASTPrinter.constructor | src/ast/printer.rs:60-65 | a new printer has depth 0 and an empty result |
| Printer.ASTPrinter.AddWhitespace | src/ast/printer.rs:20-22 | appends one space; depth unchanged |
| Printer.ASTPrinter.AddNewline | src/ast/printer.rs:23-28 | appends a line break followed by eight spaces; depth unchanged |
| Printer.ASTPrinter.AddKeyword | src/ast/printer.rs:29-32 | appends the keyword marker and the word |
| Printer.ASTPrinter.AddText | src/ast/printer.rs:33-36 | appends the text marker and the text |
| Printer.ASTPrinter.AddVariable | src/ast/printer.rs:37-40 | appends the variable marker and the name |
| Printer.ASTPrinter.AddPadding | src/ast/printer.rs:41-45 | appends exactly `indent` single spaces |
| Printer.PlainSpaces | src/ast/printer.rs:41-45 | the padding at depth n shows as n characters, all spaces |
| Printer.ASTPrinter.AddBoolean | src/ast/printer.rs:46-49 | appends the boolean marker and `true` or `false` |
| Printer.ASTPrinter.AddType | src/ast/printer.rs:50-53 | appends the type marker and the type's literal |
| Printer.ASTPrinter.AddTypeAnnotation | src/ast/printer.rs:54-58 | appends text `:`, a space, then the type's literal in the type style |
| Printer.ASTPrinter.VisitExpression | src/ast/printer.rs:69-222 | appends `RenderExpr` of any expression at the current depth, choosing the shape's visit method; depth unchanged |
| Printer.ASTPrinter.DoVisitStatement | src/ast/printer.rs:133 | appends `RenderStmtBody` of any statement; depth unchanged (the dispatch over statement shapes is the model's own, see "Left out") |
| Printer.ASTPrinter.VisitFuncExpr | src/ast/printer.rs:69-92 | appends `RenderExpr` of the function node at the current depth; depth unchanged |
| Printer.FuncWithoutParameters | src/ast/printer.rs:73-78 | with no parameters: `func`, two spaces, the body, and no parentheses |
| Printer.FuncWithParameters | src/ast/printer.rs:74-91 | with parameters: `func`, a space, `(`, the first parameter, each later one after `, `, then `)`, a space and the body |
| Printer.ParameterText | src/ast/printer.rs:84-85 | a parameter shows as its identifier, `: ` and its type's literal |
| Printer.FuncExample | src/ast/printer.rs:69-135 | the full piece sequence for `func(x:int, y:int) { return x = y }` at depth 0 |
| Printer.ASTPrinter.VisitReturnStatement | src/ast/printer.rs:93-99 | appends `RenderStmtBody` of the return statement; depth unchanged |
| Printer.ReturnForms | src/ast/printer.rs:93-99 | `return` alone, or `return`, a space and the value |
| Printer.ASTPrinter.VisitWhileStatement | src/ast/printer.rs:100-106 | appends `while`, a space, the condition, a space and the body |
| Printer.ASTPrinter.VisitBlockExpr | src/ast/printer.rs:107-117 | appends `RenderExpr` of the block; depth at exit equals depth at entry |
| Printer.BlockLayout | src/ast/printer.rs:107-117 | in a block at depth d, statement i is printed as its own line at depth d+1, between the lines of the statements before it and those after it |
| Printer.EmptyBlock | src/ast/printer.rs:107-117 | an empty block is `{`, the newline literal, the padding at depth d, and `}` |
| Printer.BlockCloses | src/ast/printer.rs:114-116 | a block at depth d ends with the padding at depth d followed by `}` |
| Printer.FirstLinePadding | src/ast/printer.rs:23-28 | the newline literal followed by padding n shows as a line break and n+8 spaces |
| Printer.ASTPrinter.VisitIfExpression | src/ast/printer.rs:118-130 | appends `RenderExpr` of the if node; depth unchanged |
| Printer.IfForms | src/ast/printer.rs:118-130 | `if`, condition, then-branch, each separated by a space; without an else branch, nothing else follows; with one, a space, `else`, a space and the else expression follow |
| Printer.ASTPrinter.VisitStatement | src/ast/printer.rs:131-135 | appends the padding at the current depth, the statement, the reset marker and a line break |
| Printer.StatementLine | src/ast/printer.rs:131-135 | a statement line shows as its padding, the statement text, and `\n` |
| Printer.StatementLinesAt | src/ast/printer.rs:111-113 | in the lines of a statement list, statement i's line comes after the lines of the statements before it and before the lines of those after it |
| Printer.ASTPrinter.VisitRecExpression | src/ast/printer.rs:136-138 | appends the keyword `rec` |
| Printer.RecForm | src/ast/printer.rs:136-138 | `rec` is printed as the keyword `rec` alone, and shows as `rec` |
| Printer.ErrorForm | src/ast/printer.rs:182-185 | an error node prints its raw span text, text-styled, and shows as exactly that text |
| Printer.ASTPrinter.VisitCallExpression | src/ast/printer.rs:139-150 | appends `RenderExpr` of the call; depth unchanged |
| Printer.CallArguments | src/ast/printer.rs:139-150 | the callee, `(`, the first argument, each later argument after `, `, then `)`; the argument part has n−1 separators |
| Printer.CallWithoutArguments | src/ast/printer.rs:139-150 | with no arguments: the callee, `(` and `)` |
| Printer.CallExample | src/ast/printer.rs:139-150 | `f(1, 2)`: no space before `(`, exactly one `, ` between the arguments |
| Printer.ASTPrinter.VisitAssignmentExpression | src/ast/printer.rs:151-162 | appends the variable, a space, text `=`, a space and the value |
| Printer.ASTPrinter.VisitVariableExpression | src/ast/printer.rs:163-174 | appends the variable marker and the identifier |
| Printer.ASTPrinter.VisitNumberExpression | src/ast/printer.rs:175-178 | appends the number marker and the number in decimal |
| Printer.DecimalRoundTrip | src/ast/printer.rs:175-178 | the decimal text of a number reads back as that number |
| Printer.ASTPrinter.VisitBooleanExpression | src/ast/printer.rs:179-181 | appends the boolean marker and `true` or `false` |
| Printer.ASTPrinter.VisitError | src/ast/printer.rs:182-185 | appends the text marker and the span's literal |
| Printer.ASTPrinter.VisitUnaryExpression | src/ast/printer.rs:186-193 | appends the operator, text-styled, then the operand |
| Printer.ASTPrinter.VisitBinaryExpression | src/ast/printer.rs:195-210 | appends the left side, a space, the operator, a space, the right side |
| Printer.ASTPrinter.VisitParenthesizedExpression | src/ast/printer.rs:211-222 | appends `(`, the inner expression, `)` |
| Printer.OperatorText | src/ast/printer.rs:186-222 | a unary operator hugs its operand; a binary operator has one space on each side; parentheses hug their content |

## Left out

- Colours: each terminal colour escape becomes an abstract style marker. A marker and its text are two pieces here, where the code writes them in one append. `Plain` gives the text without markers.
- The visitor's default dispatch and the arena of nodes are not part of this model. The tree is an inductive value. `VisitExpression` and `DoVisitStatement` dispatch over its shapes directly. Because the tree is a value, the model does not capture that the visitor receives a mutable arena, which the printer never changes.
- Let statements and any statement shapes beyond expression, return and while are not modelled.
- A function type carries an opaque natural index. The function table it points into is not modelled.
- Text spans, tokens and static type annotations keep only their literal text.
- Number literals are unbounded integers. Their width comes from code that is not part of this model. The decimal text is given by `Decimal`, in place of the host language's integer formatting.
- Formatter idempotence (print, reparse, print again) is not stated. It needs the lexer and parser, which are not part of this model.
- Printer.ASTPrinter.VisitBlockExpr: the code's unsigned decrement of the depth cannot underflow, because it always follows the matching increment. The model uses `nat` and proves the depth is restored, so no wrap-around is modelled.
