/** The source-reconstructing syntax-tree printer. It walks statements and
    expressions and appends style-tagged text to its result, keeping the
    current block nesting depth in `indent`.

    `RenderExpr` and `RenderStmt` say, as functions of a node and the depth
    it is printed at, exactly what the printer appends; the class
    `ASTPrinter` does the appending step by step, as in the code, and each of
    its methods is proved to append exactly that. */
module Printer {
  import opened Wrappers
  import opened Sequences
  import opened Ast

  // ---------------------------------------------------------------------
  // Output: text with abstract style markers

  /** The style categories: each marker colours the text that follows it;
      `Reset` ends a statement line. */
  datatype Style = Number | Text | Keyword | Variable | Boolean | Type | Reset

  /** What one append to the result adds: a style marker, or literal text. */
  datatype Piece = Mark(style: Style) | Lit(text: string)

  /** The result: the appended pieces in order. */
  type Output = seq<Piece>

  /** Text appended without a marker. */
  function Raw(s: string): Output
  {
    [Lit(s)]
  }

  /** A style marker followed by its text. */
  function Styled(st: Style, s: string): Output
  {
    [Mark(st), Lit(s)]
  }

  /** The padding at depth `n`: one space appended `n` times. */
  function Spaces(n: nat): (r: Output)
    ensures |r| == n
  {
    if n == 0 then [] else Spaces(n - 1) + Raw(" ")
  }

  /** The literal the printer writes after an opening brace: a line break
      followed by eight spaces. */
  const NewlineLiteral: string := "\n        "

  /** What ends each statement line: the reset marker and a line break. */
  const LineEnd: Output := [Mark(Reset), Lit("\n")]

  /** Between two arguments or two parameters: a comma, then a space. */
  const Separator: Output := Styled(Text, ",") + Raw(" ")

  /** The text of an output with its markers dropped, as a device without
      colours shows it. */
  function Plain(o: Output): string
  {
    if o == [] then []
    else (match o[0] case Lit(t) => t case Mark(_) => []) + Plain(o[1..])
  }

  // ---------------------------------------------------------------------
  // Decimal rendering of number literals

  function DigitChar(d: nat): (c: char)
    requires d < 10
    ensures '0' <= c <= '9'
    ensures c as int - '0' as int == d
  {
    "0123456789"[d]
  }

  /** The decimal digits of `n`, most significant first, with no leading zero. */
  function NatDecimal(n: nat): (s: string)
    ensures |s| >= 1
    ensures forall i :: 0 <= i < |s| ==> '0' <= s[i] <= '9'
    ensures s[0] == '0' ==> n == 0
  {
    if n < 10 then [DigitChar(n)] else NatDecimal(n / 10) + [DigitChar(n % 10)]
  }

  /** The decimal rendering of an integer, with a leading `-` when negative. */
  function Decimal(n: int): string
  {
    if n < 0 then "-" + NatDecimal(-n) else NatDecimal(n)
  }

  /** The value a string of decimal digits denotes. */
  function DigitsValue(s: string): int
  {
    if s == [] then 0 else DigitsValue(s[..|s| - 1]) * 10 + (s[|s| - 1] as int - '0' as int)
  }

  /** The value of a rendered number, read back. */
  function DecimalValue(s: string): int
  {
    if |s| > 0 && s[0] == '-' then -DigitsValue(s[1..]) else DigitsValue(s)
  }

  lemma {:induction false} NatDecimalValue(n: nat)
    ensures DigitsValue(NatDecimal(n)) == n
  {
    if n >= 10 {
      NatDecimalValue(n / 10);
      var s := NatDecimal(n);
      assert s[..|s| - 1] == NatDecimal(n / 10);
    }
  }

  /** A rendered number reads back as the number it renders. */
  lemma DecimalRoundTrip(n: int)
    ensures DecimalValue(Decimal(n)) == n
  {
    NatDecimalValue(if n < 0 then -n else n);
    if n < 0 {
      assert Decimal(n)[1..] == NatDecimal(-n);
    }
  }

  function BoolLiteral(b: bool): string
  {
    if b then "true" else "false"
  }

  // ---------------------------------------------------------------------
  // What the printer appends for each node, at block depth `indent`

  function RenderParameter(p: Parameter): Output
  {
    Styled(Text, p.identifier) + Styled(Text, ":") + Raw(" ") + Styled(Type, p.typeName)
  }

  /** The renderings of a list of parameters, one per element. */
  function RenderParameters(ps: seq<Parameter>): (r: seq<Output>)
    ensures |r| == |ps|
  {
    if ps == [] then [] else RenderParameters(ps[..|ps| - 1]) + [RenderParameter(ps[|ps| - 1])]
  }

  /** What the printer appends for an expression: leaves directly, every
      other shape through its own function below. */
  function RenderExpr(e: Expr, indent: nat): Output
    decreases e, 1
  {
    match e
    case NumberExpr(n) => Styled(Number, Decimal(n))
    case BoolExpr(b) => Styled(Boolean, BoolLiteral(b))
    case VarExpr(x) => Styled(Variable, x)
    case UnaryExpr(_, _) => RenderUnary(e, indent)
    case BinaryExpr(_, _, _) => RenderBinary(e, indent)
    case ParenthesizedExpr(_) => RenderParenthesized(e, indent)
    case AssignExpr(_, _) => RenderAssign(e, indent)
    case CallExpr(_, _) => RenderCall(e, indent)
    case BlockExpr(_) => RenderBlock(e, indent)
    case IfExpr(_, _, _) => RenderIf(e, indent)
    case FuncExpr(_, _) => RenderFunc(e, indent)
    case RecExpr => Styled(Keyword, "rec")
    case ErrorExpr(span) => Styled(Text, span)
  }

  function RenderUnary(e: Expr, indent: nat): Output
    requires e.UnaryExpr?
    decreases e, 0
  {
    Styled(Text, e.operator) + RenderExpr(e.operand, indent)
  }

  function RenderBinary(e: Expr, indent: nat): Output
    requires e.BinaryExpr?
    decreases e, 0
  {
    RenderExpr(e.left, indent) + Raw(" ") + Styled(Text, e.operator) + Raw(" ") + RenderExpr(e.right, indent)
  }

  function RenderParenthesized(e: Expr, indent: nat): Output
    requires e.ParenthesizedExpr?
    decreases e, 0
  {
    Styled(Text, "(") + RenderExpr(e.expression, indent) + Styled(Text, ")")
  }

  function RenderAssign(e: Expr, indent: nat): Output
    requires e.AssignExpr?
    decreases e, 0
  {
    Styled(Variable, e.identifier) + Raw(" ") + Styled(Text, "=") + Raw(" ") + RenderExpr(e.expression, indent)
  }

  function RenderCall(e: Expr, indent: nat): Output
    requires e.CallExpr?
    decreases e, 0
  {
    RenderExpr(e.callee, indent) + Styled(Text, "(")
    + Join(Separator, RenderEachExpr(e.arguments, indent)) + Styled(Text, ")")
  }

  function RenderBlock(e: Expr, indent: nat): Output
    requires e.BlockExpr?
    decreases e, 0
  {
    Styled(Text, "{") + Raw(NewlineLiteral) + Concat(RenderEachStmt(e.stmts, indent + 1))
    + Spaces(indent) + Styled(Text, "}")
  }

  function RenderIf(e: Expr, indent: nat): Output
    requires e.IfExpr?
    decreases e, 0
  {
    Styled(Keyword, "if") + Raw(" ") + RenderExpr(e.condition, indent) + Raw(" ")
    + RenderExpr(e.thenBranch, indent)
    + (match e.elseBranch
       case None => []
       case Some(x) => Raw(" ") + Styled(Keyword, "else") + Raw(" ") + RenderExpr(x, indent))
  }

  function RenderFunc(e: Expr, indent: nat): Output
    requires e.FuncExpr?
    decreases e, 0
  {
    Styled(Keyword, "func") + Raw(" ")
    + (if e.parameters == [] then Raw(" ")
       else Styled(Text, "(") + Join(Separator, RenderParameters(e.parameters)) + Styled(Text, ")") + Raw(" "))
    + RenderExpr(e.body, indent)
  }

  /** The renderings of a list of expressions, one per element. */
  function RenderEachExpr(es: seq<Expr>, indent: nat): (r: seq<Output>)
    decreases es
    ensures |r| == |es|
  {
    if es == [] then [] else RenderEachExpr(es[..|es| - 1], indent) + [RenderExpr(es[|es| - 1], indent)]
  }

  /** A statement line: padding, the statement, the line end. */
  function RenderStmt(s: Stmt, indent: nat): Output
    decreases s, 2
  {
    Spaces(indent) + RenderStmtBody(s, indent) + LineEnd
  }

  /** What the printer appends for a statement, without padding or line end. */
  function RenderStmtBody(s: Stmt, indent: nat): Output
    decreases s, 1
  {
    match s
    case ExpressionStmt(e) => RenderExpr(e, indent)
    case ReturnStmt(_) => RenderReturn(s, indent)
    case WhileStmt(_, _) => RenderWhile(s, indent)
  }

  function RenderReturn(s: Stmt, indent: nat): Output
    requires s.ReturnStmt?
    decreases s, 0
  {
    Styled(Keyword, "return")
    + (match s.returnValue case None => [] case Some(x) => Raw(" ") + RenderExpr(x, indent))
  }

  function RenderWhile(s: Stmt, indent: nat): Output
    requires s.WhileStmt?
    decreases s, 0
  {
    Styled(Keyword, "while") + Raw(" ") + RenderExpr(s.condition, indent) + Raw(" ") + RenderExpr(s.body, indent)
  }

  /** The lines of a list of statements, one per element. */
  function RenderEachStmt(ss: seq<Stmt>, indent: nat): (r: seq<Output>)
    decreases ss
    ensures |r| == |ss|
  {
    if ss == [] then [] else RenderEachStmt(ss[..|ss| - 1], indent) + [RenderStmt(ss[|ss| - 1], indent)]
  }

  // ---------------------------------------------------------------------
  // One more element of a list, as the printer's loops add them

  lemma ConcatStmtsSnoc(ss: seq<Stmt>, i: nat, indent: nat)
    requires i < |ss|
    ensures Concat(RenderEachStmt(ss[..i + 1], indent))
         == Concat(RenderEachStmt(ss[..i], indent)) + RenderStmt(ss[i], indent)
  {
    assert ss[..i + 1][..i] == ss[..i];
    ConcatSnoc(RenderEachStmt(ss[..i], indent), RenderStmt(ss[i], indent));
  }

  lemma JoinExprsSnoc(es: seq<Expr>, i: nat, indent: nat)
    requires i < |es|
    ensures Join(Separator, RenderEachExpr(es[..i + 1], indent))
         == Join(Separator, RenderEachExpr(es[..i], indent)) + (if i != 0 then Separator else [])
            + RenderExpr(es[i], indent)
  {
    assert es[..i + 1][..i] == es[..i];
    JoinSnoc(Separator, RenderEachExpr(es[..i], indent), RenderExpr(es[i], indent));
  }

  lemma JoinParametersSnoc(ps: seq<Parameter>, i: nat)
    requires i < |ps|
    ensures Join(Separator, RenderParameters(ps[..i + 1]))
         == Join(Separator, RenderParameters(ps[..i])) + (if i != 0 then Separator else [])
            + RenderParameter(ps[i])
  {
    assert ps[..i + 1][..i] == ps[..i];
    JoinSnoc(Separator, RenderParameters(ps[..i]), RenderParameter(ps[i]));
  }

  // ---------------------------------------------------------------------
  // Properties of the rendering

  /** Dropping markers commutes with appending. */
  lemma {:induction false} PlainAppend(a: Output, b: Output)
    ensures Plain(a + b) == Plain(a) + Plain(b)
  {
    if a != [] {
      assert (a + b)[1..] == a[1..] + b;
      PlainAppend(a[1..], b);
    } else {
      assert a + b == b;
    }
  }

  lemma PlainRaw(t: string)
    ensures Plain(Raw(t)) == t
  {
    assert Raw(t)[1..] == [];
  }

  lemma PlainStyled(st: Style, t: string)
    ensures Plain(Styled(st, t)) == t
  {
    assert Styled(st, t)[1..] == Raw(t);
    PlainRaw(t);
  }

  /** The padding at depth `n` shows as exactly `n` spaces. */
  lemma {:induction false} PlainSpaces(n: nat)
    ensures |Plain(Spaces(n))| == n
    ensures forall i :: 0 <= i < n ==> Plain(Spaces(n))[i] == ' '
  {
    if n > 0 {
      PlainSpaces(n - 1);
      PlainAppend(Spaces(n - 1), Raw(" "));
      PlainRaw(" ");
    }
  }

  /** The literal after an opening brace already holds eight spaces, so the
      first line of a block shows `8 + n` spaces before its statement where
      the later lines show `n`. */
  lemma FirstLinePadding(n: nat)
    ensures Plain(Raw(NewlineLiteral) + Spaces(n)) == "\n" + Plain(Spaces(8 + n))
  {
    PlainAppend(Raw(NewlineLiteral), Spaces(n));
    PlainRaw(NewlineLiteral);
    PlainSpaces(n);
    PlainSpaces(8 + n);
    assert Plain(Spaces(8 + n)) == "        " + Plain(Spaces(n));
  }

  /** A statement line shows as its padding, the statement, and a line break. */
  lemma StatementLine(s: Stmt, indent: nat)
    ensures Plain(RenderStmt(s, indent)) == Plain(Spaces(indent)) + Plain(RenderStmtBody(s, indent)) + "\n"
  {
    PlainAppend(Spaces(indent) + RenderStmtBody(s, indent), LineEnd);
    PlainAppend(Spaces(indent), RenderStmtBody(s, indent));
    assert LineEnd[1..] == Raw("\n");
    PlainRaw("\n");
  }

  /** The lines of the first `i` statements are the first `i` lines. */
  lemma {:induction false} RenderEachStmtPrefix(ss: seq<Stmt>, i: nat, indent: nat)
    requires i <= |ss|
    ensures RenderEachStmt(ss, indent)[..i] == RenderEachStmt(ss[..i], indent)
  {
    if i < |ss| {
      var n := |ss|;
      RenderEachStmtPrefix(ss[..n - 1], i, indent);
      assert ss[..n - 1][..i] == ss[..i];
    } else {
      assert ss[..i] == ss;
    }
  }

  /** The lines of the statements from `i` on are the lines from `i` on. */
  lemma {:induction false} RenderEachStmtSuffix(ss: seq<Stmt>, i: nat, indent: nat)
    requires i <= |ss|
    ensures RenderEachStmt(ss, indent)[i..] == RenderEachStmt(ss[i..], indent)
  {
    var n := |ss|;
    if i < n {
      RenderEachStmtSuffix(ss[..n - 1], i, indent);
      var t := ss[i..];
      assert t[..|t| - 1] == ss[..n - 1][i..];
      assert t[|t| - 1] == ss[n - 1];
    } else {
      assert ss[i..] == [];
    }
  }

  /** Line `i` of a list of statements is statement `i`'s line. */
  lemma RenderEachStmtAt(ss: seq<Stmt>, i: nat, indent: nat)
    requires i < |ss|
    ensures RenderEachStmt(ss, indent)[i] == RenderStmt(ss[i], indent)
  {
    RenderEachStmtPrefix(ss, i + 1, indent);
    assert ss[..i + 1][..i] == ss[..i];
  }

  /** Statement `i`'s line sits between the lines before it and those after it. */
  lemma StatementLinesAt(ss: seq<Stmt>, indent: nat, i: nat)
    requires i < |ss|
    ensures Concat(RenderEachStmt(ss, indent))
         == Concat(RenderEachStmt(ss[..i], indent)) + RenderStmt(ss[i], indent)
            + Concat(RenderEachStmt(ss[i + 1..], indent))
  {
    ConcatAt(RenderEachStmt(ss, indent), i);
    RenderEachStmtPrefix(ss, i, indent);
    RenderEachStmtSuffix(ss, i + 1, indent);
    RenderEachStmtAt(ss, i, indent);
  }

  /** In a block printed at depth `indent`, statement `i` is printed as a
      line at depth `indent + 1` (so padded by `indent + 1` spaces, see
      `RenderStmt`), between the lines of the statements before it and those
      after it; the block opens with `{` and the newline literal, and closes
      with the padding of depth `indent` and `}`. */
  lemma BlockLayout(ss: seq<Stmt>, indent: nat, i: nat)
    requires i < |ss|
    ensures RenderExpr(BlockExpr(ss), indent)
         == Styled(Text, "{") + Raw(NewlineLiteral)
            + Concat(RenderEachStmt(ss[..i], indent + 1))
            + RenderStmt(ss[i], indent + 1)
            + Concat(RenderEachStmt(ss[i + 1..], indent + 1))
            + Spaces(indent) + Styled(Text, "}")
  {
    StatementLinesAt(ss, indent + 1, i);
    Append3(Styled(Text, "{") + Raw(NewlineLiteral), Concat(RenderEachStmt(ss[..i], indent + 1)),
      RenderStmt(ss[i], indent + 1), Concat(RenderEachStmt(ss[i + 1..], indent + 1)));
  }

  /** An empty block is `{`, the newline literal, the padding and `}`. */
  lemma EmptyBlock(indent: nat)
    ensures RenderExpr(BlockExpr([]), indent)
         == Styled(Text, "{") + Raw(NewlineLiteral) + Spaces(indent) + Styled(Text, "}")
  {
  }

  /** The block's own padding is restored: the closing brace is preceded by
      exactly the padding of the depth the block is printed at. */
  lemma BlockCloses(ss: seq<Stmt>, indent: nat)
    ensures var out := RenderExpr(BlockExpr(ss), indent);
      |out| >= indent + 2 && out[|out| - indent - 2..] == Spaces(indent) + Styled(Text, "}")
  {
    var out := RenderExpr(BlockExpr(ss), indent);
    var front := Styled(Text, "{") + Raw(NewlineLiteral) + Concat(RenderEachStmt(ss, indent + 1));
    AppendAssoc(front, Spaces(indent), Styled(Text, "}"));
  }

  /** The renderings of all but the first expression follow the first's. */
  lemma {:induction false} RenderEachExprFirst(es: seq<Expr>, indent: nat)
    requires |es| >= 1
    ensures RenderEachExpr(es, indent)[0] == RenderExpr(es[0], indent)
    ensures RenderEachExpr(es, indent)[1..] == RenderEachExpr(es[1..], indent)
  {
    var n := |es|;
    if n > 1 {
      RenderEachExprFirst(es[..n - 1], indent);
      var t := es[1..];
      assert t[..|t| - 1] == es[..n - 1][1..];
      assert t[|t| - 1] == es[n - 1];
      assert es[..n - 1][0] == es[0];
    } else {
      assert es[..0] == [];
    }
  }

  /** A call with arguments prints the callee, `(`, the first argument, then
      every further argument preceded by one separator, then `)`: no separator
      before the first argument, and n - 1 of them for n arguments. */
  lemma CallArguments(callee: Expr, args: seq<Expr>, indent: nat)
    requires |args| >= 1
    ensures RenderExpr(CallExpr(callee, args), indent)
         == RenderExpr(callee, indent) + Styled(Text, "(") + RenderExpr(args[0], indent)
            + Concat(Prefixed(Separator, RenderEachExpr(args[1..], indent))) + Styled(Text, ")")
    ensures |Join(Separator, RenderEachExpr(args, indent))|
         == TotalLength(RenderEachExpr(args, indent)) + (|args| - 1) * |Separator|
  {
    var parts := RenderEachExpr(args, indent);
    JoinAsPrefixed(Separator, parts);
    RenderEachExprFirst(args, indent);
    JoinLength(Separator, parts);
    AppendAssoc(RenderExpr(callee, indent) + Styled(Text, "("), parts[0], Concat(Prefixed(Separator, parts[1..])));
  }

  /** A call without arguments prints the callee followed by `(` and `)`. */
  lemma CallWithoutArguments(callee: Expr, indent: nat)
    ensures RenderExpr(CallExpr(callee, []), indent)
         == RenderExpr(callee, indent) + Styled(Text, "(") + Styled(Text, ")")
  {
  }

  /** A parameter shows as its identifier, `:`, a space and its type's literal:
      no space before the colon. */
  lemma ParameterText(p: Parameter)
    ensures Plain(RenderParameter(p)) == p.identifier + ": " + p.typeName
  {
    var a, b, c, d := Styled(Text, p.identifier), Styled(Text, ":"), Raw(" "), Styled(Type, p.typeName);
    PlainAppend(a + b + c, d);
    PlainAppend(a + b, c);
    PlainAppend(a, b);
    PlainStyled(Text, p.identifier);
    PlainStyled(Text, ":");
    PlainRaw(" ");
    PlainStyled(Type, p.typeName);
  }

  /** Without parameters, `func` is followed by two spaces and the body, with
      no parentheses. */
  lemma FuncWithoutParameters(body: Expr, indent: nat)
    ensures RenderExpr(FuncExpr([], body), indent)
         == Styled(Keyword, "func") + Raw(" ") + Raw(" ") + RenderExpr(body, indent)
  {
  }

  /** With parameters, `func`, a space, `(`, the parameters with the same
      separator rule as call arguments, `)`, a space, then the body. */
  lemma FuncWithParameters(ps: seq<Parameter>, body: Expr, indent: nat)
    requires |ps| >= 1
    ensures RenderExpr(FuncExpr(ps, body), indent)
         == Styled(Keyword, "func") + Raw(" ") + Styled(Text, "(") + RenderParameter(ps[0])
            + Concat(Prefixed(Separator, RenderParameters(ps[1..]))) + Styled(Text, ")") + Raw(" ")
            + RenderExpr(body, indent)
  {
    var parts := RenderParameters(ps);
    JoinAsPrefixed(Separator, parts);
    RenderParametersFirst(ps);
    var ks, open, first, rest := Styled(Keyword, "func") + Raw(" "), Styled(Text, "("), parts[0],
      Concat(Prefixed(Separator, parts[1..]));
    Append4(ks, open, Join(Separator, parts), Styled(Text, ")"), Raw(" "));
    AppendAssoc(ks + open, first, rest);
  }

  lemma {:induction false} RenderParametersFirst(ps: seq<Parameter>)
    requires |ps| >= 1
    ensures RenderParameters(ps)[0] == RenderParameter(ps[0])
    ensures RenderParameters(ps)[1..] == RenderParameters(ps[1..])
  {
    var n := |ps|;
    if n > 1 {
      RenderParametersFirst(ps[..n - 1]);
      var t := ps[1..];
      assert t[..|t| - 1] == ps[..n - 1][1..];
      assert t[|t| - 1] == ps[n - 1];
      assert ps[..n - 1][0] == ps[0];
    } else {
      assert ps[..0] == [];
    }
  }

  /** `return` alone, or `return`, a space and the value. */
  lemma ReturnForms(value: Expr, indent: nat)
    ensures RenderStmtBody(ReturnStmt(None), indent) == Styled(Keyword, "return")
    ensures RenderStmtBody(ReturnStmt(Some(value)), indent)
         == Styled(Keyword, "return") + Raw(" ") + RenderExpr(value, indent)
  {
  }

  /** Without an else branch nothing follows the then-branch; with one, a
      space, `else`, a space and the else expression follow it. */
  lemma IfForms(c: Expr, t: Expr, x: Expr, indent: nat)
    ensures var head := Styled(Keyword, "if") + Raw(" ") + RenderExpr(c, indent) + Raw(" ")
              + RenderExpr(t, indent);
      RenderExpr(IfExpr(c, t, None), indent) == head &&
      RenderExpr(IfExpr(c, t, Some(x)), indent)
        == head + (Raw(" ") + Styled(Keyword, "else") + Raw(" ") + RenderExpr(x, indent))
  {
    var head := Styled(Keyword, "if") + Raw(" ") + RenderExpr(c, indent) + Raw(" ")
      + RenderExpr(t, indent);
    assert RenderExpr(IfExpr(c, t, None), indent) == head + [];
    assert head + [] == head;
  }

  /** The self-reference marker is printed as the keyword `rec` alone. */
  lemma RecForm(indent: nat)
    ensures RenderExpr(RecExpr, indent) == Styled(Keyword, "rec")
    ensures Plain(RenderExpr(RecExpr, indent)) == "rec"
  {
    PlainStyled(Keyword, "rec");
  }

  /** An error node is printed as its raw text in the text style. */
  lemma ErrorForm(span: string, indent: nat)
    ensures RenderExpr(ErrorExpr(span), indent) == Styled(Text, span)
    ensures Plain(RenderExpr(ErrorExpr(span), indent)) == span
  {
    PlainStyled(Text, span);
  }

  /** The operator of a unary expression is immediately followed by its
      operand; a binary operator has one space on each side; parentheses
      hug their content. */
  lemma OperatorText(op: string, a: Expr, b: Expr, indent: nat)
    ensures Plain(RenderExpr(UnaryExpr(op, a), indent)) == op + Plain(RenderExpr(a, indent))
    ensures Plain(RenderExpr(BinaryExpr(a, op, b), indent))
         == Plain(RenderExpr(a, indent)) + " " + op + " " + Plain(RenderExpr(b, indent))
    ensures Plain(RenderExpr(ParenthesizedExpr(a), indent)) == "(" + Plain(RenderExpr(a, indent)) + ")"
  {
    var ra, rb := RenderExpr(a, indent), RenderExpr(b, indent);
    PlainAppend(Styled(Text, op), ra);
    PlainStyled(Text, op);
    var l := ra + Raw(" ") + Styled(Text, op) + Raw(" ");
    PlainAppend(l, rb);
    PlainAppend(ra + Raw(" ") + Styled(Text, op), Raw(" "));
    PlainAppend(ra + Raw(" "), Styled(Text, op));
    PlainAppend(ra, Raw(" "));
    PlainRaw(" ");
    PlainAppend(Styled(Text, "(") + ra, Styled(Text, ")"));
    PlainAppend(Styled(Text, "("), ra);
    PlainStyled(Text, "(");
    PlainStyled(Text, ")");
  }

  /** A call to `f` with arguments 1 and 2 prints as `f(1, 2)`: the callee,
      `(` with no space before it, `1`, one `, `, `2`, then `)`. */
  lemma CallExample()
    ensures RenderExpr(CallExpr(VarExpr("f"), [NumberExpr(1), NumberExpr(2)]), 0)
         == Styled(Variable, "f") + Styled(Text, "(")
            + (Styled(Number, "1") + Separator + Styled(Number, "2")) + Styled(Text, ")")
  {
    var args := [NumberExpr(1), NumberExpr(2)];
    var one, two := Styled(Number, "1"), Styled(Number, "2");
    assert Decimal(1) == "1" && Decimal(2) == "2";
    assert args[..1] == [NumberExpr(1)];
    assert RenderEachExpr(args, 0) == [one, two];
    assert [one, two][1..] == [two];
    assert Join(Separator, [one, two]) == one + Separator + two;
  }

  /** `func(x:int, y:int) { return x = y }` prints as `func`, a space, `(`,
      each parameter as text `x`, `:`, a space and type `int`, separated by
      `, `, then `)`, a space and the block: `{`, the newline literal, one
      space of padding, `return`, a space, `x = y` and the line end, then `}`
      with no padding at depth 0. */
  lemma FuncExample()
    ensures
      var x, y := Parameter("x", "int"), Parameter("y", "int");
      var assign := AssignExpr("x", VarExpr("y"));
      var block := BlockExpr([ReturnStmt(Some(assign))]);
      RenderExpr(FuncExpr([x, y], block), 0)
        == Styled(Keyword, "func") + Raw(" ")
           + (Styled(Text, "(")
              + ((Styled(Text, "x") + Styled(Text, ":") + Raw(" ") + Styled(Type, "int"))
                 + Separator
                 + (Styled(Text, "y") + Styled(Text, ":") + Raw(" ") + Styled(Type, "int")))
              + Styled(Text, ")") + Raw(" "))
           + (Styled(Text, "{") + Raw(NewlineLiteral)
              + (Raw(" ")
                 + (Styled(Keyword, "return") + (Raw(" ")
                    + (Styled(Variable, "x") + Raw(" ") + Styled(Text, "=") + Raw(" ")
                       + Styled(Variable, "y"))))
                 + LineEnd)
              + Styled(Text, "}"))
  {
    var x, y := Parameter("x", "int"), Parameter("y", "int");
    var assign := AssignExpr("x", VarExpr("y"));
    var ret := ReturnStmt(Some(assign));
    var ps := [x, y];
    assert ps[..1] == [x];
    var rx, ry := RenderParameter(x), RenderParameter(y);
    assert RenderParameters(ps) == [rx, ry];
    assert [rx, ry][1..] == [ry];
    assert Join(Separator, [rx, ry]) == rx + Separator + ry;
    assert Spaces(1) == Raw(" ");
    assert RenderEachStmt([ret], 1) == [RenderStmt(ret, 1)];
    assert Concat([RenderStmt(ret, 1)]) == RenderStmt(ret, 1);
    var line := RenderStmt(ret, 1);
    assert line == Raw(" ") + RenderStmtBody(ret, 1) + LineEnd;
    var open := Styled(Text, "{") + Raw(NewlineLiteral) + line;
    assert Spaces(0) == [];
    assert open + Spaces(0) == open;
    var block := BlockExpr([ret]);
    assert RenderExpr(block, 0) == open + Styled(Text, "}");
    assert RenderStmtBody(ret, 1) == Styled(Keyword, "return") + (Raw(" ") + RenderExpr(assign, 1));
    assert RenderExpr(assign, 1) == Styled(Variable, "x") + Raw(" ") + Styled(Text, "=") + Raw(" ")
                                    + Styled(Variable, "y");
    assert rx == Styled(Text, "x") + Styled(Text, ":") + Raw(" ") + Styled(Type, "int");
    assert RenderExpr(FuncExpr(ps, block), 0)
        == Styled(Keyword, "func") + Raw(" ")
           + (Styled(Text, "(") + (rx + Separator + ry) + Styled(Text, ")") + Raw(" "))
           + RenderExpr(block, 0);
  }

  // ---------------------------------------------------------------------
  // The printer object

  class ASTPrinter {
    var indent: nat
    var result: Output

    constructor ()
      ensures indent == 0 && result == []
    {
      indent := 0;
      result := [];
    }

    method AddWhitespace()
      modifies this
      ensures indent == old(indent) && result == old(result) + Raw(" ")
    {
      result := result + Raw(" ");
    }

    method AddNewline()
      modifies this
      ensures indent == old(indent) && result == old(result) + Raw(NewlineLiteral)
    {
      result := result + Raw(NewlineLiteral);
    }

    method AddKeyword(keyword: string)
      modifies this
      ensures indent == old(indent) && result == old(result) + Styled(Keyword, keyword)
    {
      result := result + Styled(Keyword, keyword);
    }

    method AddText(text: string)
      modifies this
      ensures indent == old(indent) && result == old(result) + Styled(Text, text)
    {
      result := result + Styled(Text, text);
    }

    method AddVariable(variable: string)
      modifies this
      ensures indent == old(indent) && result == old(result) + Styled(Variable, variable)
    {
      result := result + Styled(Variable, variable);
    }

    /** One space per nesting level. */
    method AddPadding()
      modifies this
      ensures indent == old(indent) && result == old(result) + Spaces(indent)
    {
      for i := 0 to indent
        invariant indent == old(indent)
        invariant result == old(result) + Spaces(i)
      {
        result := result + Raw(" ");
      }
    }

    method AddBoolean(boolean: bool)
      modifies this
      ensures indent == old(indent) && result == old(result) + Styled(Boolean, BoolLiteral(boolean))
    {
      result := result + Styled(Boolean, BoolLiteral(boolean));
    }

    method AddType(typeName: string)
      modifies this
      ensures indent == old(indent) && result == old(result) + Styled(Type, typeName)
    {
      result := result + Styled(Type, typeName);
    }

    /** `:`, a space, then the annotation's literal in the type style. */
    method AddTypeAnnotation(typeName: string)
      modifies this
      ensures indent == old(indent)
      ensures result == old(result) + Styled(Text, ":") + Raw(" ") + Styled(Type, typeName)
    {
      AddText(":");
      AddWhitespace();
      AddType(typeName);
    }

    // -- dispatch over the closed set of shapes

    method VisitExpression(e: Expr)
      modifies this
      decreases e, 1
      ensures indent == old(indent) && result == old(result) + RenderExpr(e, indent)
    {
      match e
      case NumberExpr(_) => VisitNumberExpression(e);
      case BoolExpr(_) => VisitBooleanExpression(e);
      case VarExpr(_) => VisitVariableExpression(e);
      case UnaryExpr(_, _) => VisitUnaryExpression(e);
      case BinaryExpr(_, _, _) => VisitBinaryExpression(e);
      case ParenthesizedExpr(_) => VisitParenthesizedExpression(e);
      case AssignExpr(_, _) => VisitAssignmentExpression(e);
      case CallExpr(_, _) => VisitCallExpression(e);
      case BlockExpr(_) => VisitBlockExpr(e);
      case IfExpr(_, _, _) => VisitIfExpression(e);
      case FuncExpr(_, _) => VisitFuncExpr(e);
      case RecExpr => VisitRecExpression(e);
      case ErrorExpr(span) => VisitError(span);
    }

    method DoVisitStatement(s: Stmt)
      modifies this
      decreases s, 1
      ensures indent == old(indent) && result == old(result) + RenderStmtBody(s, indent)
    {
      match s
      case ExpressionStmt(e) => VisitExpression(e);
      case ReturnStmt(_) => VisitReturnStatement(s);
      case WhileStmt(_, _) => VisitWhileStatement(s);
    }

    // -- one method per shape

    method VisitFuncExpr(f: Expr)
      requires f.FuncExpr?
      modifies this
      decreases f, 0
      ensures indent == old(indent) && result == old(result) + RenderExpr(f, indent)
    {
      ghost var r0 := result;
      AddKeyword("func");
      AddWhitespace();
      ghost var r1 := result;
      var ps := f.parameters;
      var areParametersEmpty := ps == [];
      if !areParametersEmpty {
        AddText("(");
      } else {
        AddWhitespace();
      }
      ghost var start := result;
      for i := 0 to |ps|
        invariant indent == old(indent)
        invariant result == start + Join(Separator, RenderParameters(ps[..i]))
      {
        ghost var before := Join(Separator, RenderParameters(ps[..i]));
        if i != 0 {
          AddText(",");
          AddWhitespace();
          AppendAssoc(start + before, Styled(Text, ","), Raw(" "));
        }
        ghost var sep := if i != 0 then Separator else [];
        ghost var r2 := result;
        AddText(ps[i].identifier);
        AddTypeAnnotation(ps[i].typeName);
        Append4(r2, Styled(Text, ps[i].identifier), Styled(Text, ":"), Raw(" "), Styled(Type, ps[i].typeName));
        Append3(start, before, sep, RenderParameter(ps[i]));
        JoinParametersSnoc(ps, i);
      }
      assert ps[..|ps|] == ps;
      if !areParametersEmpty {
        AddText(")");
        AddWhitespace();
        Append4(r1, Styled(Text, "("), Join(Separator, RenderParameters(ps)), Styled(Text, ")"), Raw(" "));
      }
      ghost var middle := if ps == [] then Raw(" ")
        else Styled(Text, "(") + Join(Separator, RenderParameters(ps)) + Styled(Text, ")") + Raw(" ");
      assert result == r1 + middle;
      VisitExpression(f.body);
      Append4(r0, Styled(Keyword, "func"), Raw(" "), middle, RenderExpr(f.body, indent));
    }

    method VisitReturnStatement(r: Stmt)
      requires r.ReturnStmt?
      modifies this
      decreases r, 0
      ensures indent == old(indent) && result == old(result) + RenderStmtBody(r, indent)
    {
      ghost var r0 := result;
      AddKeyword("return");
      if r.returnValue.Some? {
        AddWhitespace();
        VisitExpression(r.returnValue.value);
        AppendAssoc(r0 + Styled(Keyword, "return"), Raw(" "), RenderExpr(r.returnValue.value, indent));
        AppendAssoc(r0, Styled(Keyword, "return"), Raw(" ") + RenderExpr(r.returnValue.value, indent));
      }
    }

    method VisitWhileStatement(w: Stmt)
      requires w.WhileStmt?
      modifies this
      decreases w, 0
      ensures indent == old(indent) && result == old(result) + RenderStmtBody(w, indent)
    {
      ghost var r0 := result;
      AddKeyword("while");
      AddWhitespace();
      VisitExpression(w.condition);
      AddWhitespace();
      VisitExpression(w.body);
      Append5(r0, Styled(Keyword, "while"), Raw(" "), RenderExpr(w.condition, indent), Raw(" "), RenderExpr(w.body, indent));
    }

    /** The statements are printed one level deeper; the depth is restored
        before the closing brace. */
    method VisitBlockExpr(b: Expr)
      requires b.BlockExpr?
      modifies this
      decreases b, 0
      ensures indent == old(indent) && result == old(result) + RenderExpr(b, indent)
    {
      ghost var r0 := result;
      AddText("{");
      AddNewline();
      indent := indent + 1;
      ghost var start := result;
      var ss := b.stmts;
      for i := 0 to |ss|
        invariant indent == old(indent) + 1
        invariant result == start + Concat(RenderEachStmt(ss[..i], indent))
      {
        VisitStatement(ss[i]);
        AppendAssoc(start, Concat(RenderEachStmt(ss[..i], indent)), RenderStmt(ss[i], indent));
        ConcatStmtsSnoc(ss, i, indent);
      }
      assert ss[..|ss|] == ss;
      indent := indent - 1;
      AddPadding();
      AddText("}");
      Append5(r0, Styled(Text, "{"), Raw(NewlineLiteral), Concat(RenderEachStmt(ss, indent + 1)),
        Spaces(indent), Styled(Text, "}"));
    }

    method VisitIfExpression(e: Expr)
      requires e.IfExpr?
      modifies this
      decreases e, 0
      ensures indent == old(indent) && result == old(result) + RenderExpr(e, indent)
    {
      ghost var r0 := result;
      AddKeyword("if");
      AddWhitespace();
      VisitExpression(e.condition);
      AddWhitespace();
      VisitExpression(e.thenBranch);
      ghost var head := Styled(Keyword, "if") + Raw(" ") + RenderExpr(e.condition, indent)
        + Raw(" ") + RenderExpr(e.thenBranch, indent);
      Append5(r0, Styled(Keyword, "if"), Raw(" "), RenderExpr(e.condition, indent), Raw(" "), RenderExpr(e.thenBranch, indent));
      if e.elseBranch.Some? {
        AddWhitespace();
        AddKeyword("else");
        AddWhitespace();
        VisitExpression(e.elseBranch.value);
        Append4(r0 + head, Raw(" "), Styled(Keyword, "else"), Raw(" "), RenderExpr(e.elseBranch.value, indent));
        AppendAssoc(r0, head, Raw(" ") + Styled(Keyword, "else") + Raw(" ") + RenderExpr(e.elseBranch.value, indent));
      }
    }

    /** Padding, the statement, then the reset marker and a line break. */
    method VisitStatement(s: Stmt)
      modifies this
      decreases s, 2
      ensures indent == old(indent) && result == old(result) + RenderStmt(s, indent)
    {
      ghost var r0 := result;
      AddPadding();
      DoVisitStatement(s);
      result := result + LineEnd;
      Append3(r0, Spaces(indent), RenderStmtBody(s, indent), LineEnd);
    }

    /** The self-reference marker: its target is not printed. */
    method VisitRecExpression(e: Expr)
      requires e.RecExpr?
      modifies this
      decreases e, 0
      ensures indent == old(indent) && result == old(result) + RenderExpr(e, indent)
    {
      AddKeyword("rec");
    }

    method VisitCallExpression(call: Expr)
      requires call.CallExpr?
      modifies this
      decreases call, 0
      ensures indent == old(indent) && result == old(result) + RenderExpr(call, indent)
    {
      ghost var r0 := result;
      VisitExpression(call.callee);
      AddText("(");
      ghost var start := result;
      var args := call.arguments;
      for i := 0 to |args|
        invariant indent == old(indent)
        invariant result == start + Join(Separator, RenderEachExpr(args[..i], indent))
      {
        ghost var before := Join(Separator, RenderEachExpr(args[..i], indent));
        if i != 0 {
          AddText(",");
          AddWhitespace();
          AppendAssoc(start + before, Styled(Text, ","), Raw(" "));
        }
        ghost var sep := if i != 0 then Separator else [];
        VisitExpression(args[i]);
        Append3(start, before, sep, RenderExpr(args[i], indent));
        JoinExprsSnoc(args, i, indent);
      }
      assert args[..|args|] == args;
      AddText(")");
      Append4(r0, RenderExpr(call.callee, indent), Styled(Text, "("),
        Join(Separator, RenderEachExpr(args, indent)), Styled(Text, ")"));
    }

    method VisitAssignmentExpression(a: Expr)
      requires a.AssignExpr?
      modifies this
      decreases a, 0
      ensures indent == old(indent) && result == old(result) + RenderExpr(a, indent)
    {
      ghost var r0 := result;
      AddVariable(a.identifier);
      AddWhitespace();
      AddText("=");
      AddWhitespace();
      VisitExpression(a.expression);
      Append5(r0, Styled(Variable, a.identifier), Raw(" "), Styled(Text, "="), Raw(" "), RenderExpr(a.expression, indent));
    }

    method VisitVariableExpression(v: Expr)
      requires v.VarExpr?
      modifies this
      decreases v, 0
      ensures indent == old(indent) && result == old(result) + RenderExpr(v, indent)
    {
      result := result + Styled(Variable, v.identifier);
    }

    method VisitNumberExpression(n: Expr)
      requires n.NumberExpr?
      modifies this
      decreases n, 0
      ensures indent == old(indent) && result == old(result) + RenderExpr(n, indent)
    {
      result := result + Styled(Number, Decimal(n.number));
    }

    method VisitBooleanExpression(b: Expr)
      requires b.BoolExpr?
      modifies this
      decreases b, 0
      ensures indent == old(indent) && result == old(result) + RenderExpr(b, indent)
    {
      AddBoolean(b.value);
    }

    /** An erroneous node: its raw source text, in the plain text style. */
    method VisitError(span: string)
      modifies this
      ensures indent == old(indent) && result == old(result) + RenderExpr(ErrorExpr(span), indent)
    {
      result := result + Styled(Text, span);
    }

    method VisitUnaryExpression(u: Expr)
      requires u.UnaryExpr?
      modifies this
      decreases u, 0
      ensures indent == old(indent) && result == old(result) + RenderExpr(u, indent)
    {
      ghost var r0 := result;
      result := result + Styled(Text, u.operator);
      VisitExpression(u.operand);
      AppendAssoc(r0, Styled(Text, u.operator), RenderExpr(u.operand, indent));
    }

    method VisitBinaryExpression(b: Expr)
      requires b.BinaryExpr?
      modifies this
      decreases b, 0
      ensures indent == old(indent) && result == old(result) + RenderExpr(b, indent)
    {
      ghost var r0 := result;
      VisitExpression(b.left);
      AddWhitespace();
      result := result + Styled(Text, b.operator);
      AddWhitespace();
      VisitExpression(b.right);
      Append5(r0, RenderExpr(b.left, indent), Raw(" "), Styled(Text, b.operator), Raw(" "), RenderExpr(b.right, indent));
    }

    method VisitParenthesizedExpression(p: Expr)
      requires p.ParenthesizedExpr?
      modifies this
      decreases p, 0
      ensures indent == old(indent) && result == old(result) + RenderExpr(p, indent)
    {
      ghost var r0 := result;
      result := result + Styled(Text, "(");
      VisitExpression(p.expression);
      result := result + Styled(Text, ")");
      Append3(r0, Styled(Text, "("), RenderExpr(p.expression, indent), Styled(Text, ")"));
    }
  }
}
