/**
 * The calculator tool: `ast.parse(expression, mode="eval")`, the whitelist
 * visitor `_MathVisitor`, then evaluation, with every exception turned into
 * `{"ok": False, "error": str(e)}`.
 *
 * The parser is a parameter (source text to an `ast.Expression` or a
 * SyntaxError message). Integer arithmetic is evaluated exactly with Python's
 * semantics (floor division and a modulo that takes the divisor's sign); what a
 * calculation involving a float or a complex number outputs is a parameter too.
 * Error messages are those of Python 3.12.
 */
module Calculator {
  import opened Wrappers
  import opened Json

  datatype BinOperator =
    | Add | Sub | Mult | Div | Mod | Pow | FloorDiv
    | MatMult | LShift | RShift | BitOr | BitXor | BitAnd

  datatype UnaryOperator = UAdd | USub | Not | Invert

  /** The payload of an `ast.Constant`. */
  datatype Literal =
    | IntLit(n: int)
    | FloatLit
    | ComplexLit
    | BoolLit(b: bool)
    | StrLit(s: string)
    | BytesLit
    | NoneLit
    | EllipsisLit

  /** An expression node as `ast.parse` produces it. */
  datatype Expr =
    | BinOp(left: Expr, op: BinOperator, right: Expr)
    | UnaryOp(uop: UnaryOperator, operand: Expr)
    | Constant(lit: Literal)
    | OtherExpr(className: string)   // Name, Call, Attribute, Subscript, Compare, ...

  /** `ast.parse(..., mode="eval")` always returns an `ast.Expression`. */
  datatype Tree = Expression(body: Expr)

  function BinOperatorName(op: BinOperator): string
  {
    match op
    case Add => "Add"
    case Sub => "Sub"
    case Mult => "Mult"
    case Div => "Div"
    case Mod => "Mod"
    case Pow => "Pow"
    case FloorDiv => "FloorDiv"
    case MatMult => "MatMult"
    case LShift => "LShift"
    case RShift => "RShift"
    case BitOr => "BitOr"
    case BitXor => "BitXor"
    case BitAnd => "BitAnd"
  }

  function UnaryOperatorName(op: UnaryOperator): string
  {
    match op
    case UAdd => "UAdd"
    case USub => "USub"
    case Not => "Not"
    case Invert => "Invert"
  }

  /** The binary operators of the whitelist: `+ - * / % ** //`. */
  predicate AllowedBinOperator(op: BinOperator)
  {
    match op
    case Add => true
    case Sub => true
    case Mult => true
    case Div => true
    case Mod => true
    case Pow => true
    case FloorDiv => true
    case _ => false
  }

  /** The unary operators of the whitelist: `+` and `-`. */
  predicate AllowedUnaryOperator(op: UnaryOperator)
  {
    op == UAdd || op == USub
  }

  /** `isinstance(node, ast.Num)`: an int, float or complex constant; a bool is not one. */
  predicate IsNum(lit: Literal): (num: bool)
    ensures lit.BoolLit? ==> !num
    ensures lit.IntLit? ==> num
  {
    lit.IntLit? || lit.FloatLit? || lit.ComplexLit?
  }

  /** Every node of the tree is of a whitelisted class. */
  predicate Whitelisted(e: Expr)
  {
    match e
    case BinOp(l, op, r) => AllowedBinOperator(op) && Whitelisted(l) && Whitelisted(r)
    case UnaryOp(op, x) => AllowedUnaryOperator(op) && Whitelisted(x)
    case Constant(lit) => IsNum(lit)
    case OtherExpr(_) => false
  }

  /** The class name the visitor reports: it checks a node before its fields,
      and visits the fields in order (`left`, `op`, `right`; `op`, `operand`). */
  function FirstDisallowed(e: Expr): (r: Option<string>)
    ensures r.None? <==> Whitelisted(e)
  {
    match e
    case BinOp(l, op, r) =>
      var fromLeft := FirstDisallowed(l);
      if fromLeft.Some? then fromLeft
      else if !AllowedBinOperator(op) then Some(BinOperatorName(op))
      else FirstDisallowed(r)
    case UnaryOp(op, x) =>
      if !AllowedUnaryOperator(op) then Some(UnaryOperatorName(op)) else FirstDisallowed(x)
    case Constant(lit) => if IsNum(lit) then None else Some("Constant")
    case OtherExpr(name) => Some(name)
  }

  /** Python `a // b`: the floor of the exact quotient. */
  function PyFloorDiv(a: int, b: int): (q: int)
    requires b != 0
    ensures b > 0 ==> b * q <= a < b * q + b
    ensures b < 0 ==> b * q + b < a <= b * q
  {
    if b > 0 then
      var q := a / b;
      assert a == b * q + a % b;
      q
    else
      var q := (-a) / (-b);
      assert -a == (-b) * q + (-a) % (-b) && 0 <= (-a) % (-b) < -b;
      q
  }

  /** Python `a % b`: the remainder that goes with floor division; it has the
      sign of the divisor and is smaller than it in magnitude. */
  function PyMod(a: int, b: int): (r: int)
    requires b != 0
    ensures a == b * PyFloorDiv(a, b) + r
    ensures b > 0 ==> 0 <= r < b
    ensures b < 0 ==> b < r <= 0
  {
    a - b * PyFloorDiv(a, b)
  }

  /** Python and Dafny disagree on negative operands. */
  lemma FloorDivOfNegatives()
    ensures PyFloorDiv(-7, 2) == -4 && PyMod(-7, 2) == 1
    ensures PyFloorDiv(7, -2) == -4 && PyMod(7, -2) == -1
    ensures PyFloorDiv(-7, -2) == 3 && PyMod(-7, -2) == -1
  {
  }

  function Power(a: int, n: nat): int
  {
    if n == 0 then 1 else a * Power(a, n - 1)
  }

  /** Evaluation of a whitelisted tree. */
  datatype Value =
    | Exact(v: int)                     // an int result
    | ZeroDivision(message: string)     // ZeroDivisionError, with str(e)
    | Inexact                           // the value is a float or a complex number

  /** One whitelisted operator on two ints: it raises only for a zero divisor
      and for zero to a negative power, and leaves the ints only for a true
      division and a negative power. */
  function Apply(op: BinOperator, a: int, b: int): (r: Value)
    requires AllowedBinOperator(op)
    ensures r.ZeroDivision? <==> (b == 0 && (op == Div || op == Mod || op == FloorDiv)) || (op == Pow && b < 0 && a == 0)
    ensures r.Inexact? <==> (op == Div && b != 0) || (op == Pow && b < 0 && a != 0)
    ensures r.ZeroDivision? ==> r.message in ZERO_DIVISION_MESSAGES
  {
    match op
    case Add => Exact(a + b)
    case Sub => Exact(a - b)
    case Mult => Exact(a * b)
    case Div => if b == 0 then ZeroDivision("division by zero") else Inexact
    case Mod => if b == 0 then ZeroDivision("integer modulo by zero") else Exact(PyMod(a, b))
    case FloorDiv =>
      if b == 0 then ZeroDivision("integer division or modulo by zero") else Exact(PyFloorDiv(a, b))
    case Pow =>
      if b >= 0 then Exact(Power(a, b))
      else if a == 0 then ZeroDivision("0.0 cannot be raised to a negative power")
      else Inexact
  }

  /** The texts of `ZeroDivisionError` an int calculation can raise. */
  const ZERO_DIVISION_MESSAGES: set<string> :=
    {"division by zero", "integer modulo by zero", "integer division or modulo by zero",
     "0.0 cannot be raised to a negative power"}

  /** Python's evaluation order: the left operand, then the right one, then the
      operator. A zero division anywhere in the tree raises one of the int
      messages, the left operand's first. */
  function Eval(e: Expr): (v: Value)
    requires Whitelisted(e)
    ensures v.ZeroDivision? ==> v.message in ZERO_DIVISION_MESSAGES
    ensures e.BinOp? && Eval(e.left).ZeroDivision? ==> v == Eval(e.left)
  {
    match e
    case Constant(lit) => if lit.IntLit? then Exact(lit.n) else Inexact
    case UnaryOp(op, x) =>
      var v := Eval(x);
      if v.Exact? && op == USub then Exact(-v.v) else v
    case BinOp(l, op, r) =>
      var lv := Eval(l);
      if lv.ZeroDivision? then lv
      else
        var rv := Eval(r);
        if rv.ZeroDivision? then rv
        else if lv.Inexact? || rv.Inexact? then Inexact
        else Apply(op, lv.v, rv.v)
  }

  /** The tree holds a float or a complex literal, or a true division. */
  predicate MentionsInexact(e: Expr)
  {
    match e
    case Constant(lit) => lit.FloatLit? || lit.ComplexLit?
    case UnaryOp(_, x) => MentionsInexact(x)
    case BinOp(l, op, r) => op == Div || MentionsInexact(l) || MentionsInexact(r)
    case OtherExpr(_) => false
  }

  /** An int result comes only from a tree of int literals without true division. */
  lemma {:induction false} ExactMeansIntegerTree(e: Expr)
    requires Whitelisted(e)
    ensures Eval(e).Exact? ==> !MentionsInexact(e)
  {
    match e
    case Constant(_) =>
    case UnaryOp(_, x) => ExactMeansIntegerTree(x);
    case BinOp(l, _, r) => ExactMeansIntegerTree(l); ExactMeansIntegerTree(r);
  }

  /** The calculator's failure result. */
  function Failed(error: string): Json
  {
    Obj2("ok", JBool(false), "error", JStr(error))
  }

  /** The calculator's success result. */
  function Succeeded(result: Json): Json
  {
    Obj2("ok", JBool(true), "result", result)
  }

  /** The expression is text that parses to a whitelisted tree, so it is evaluated. */
  predicate Evaluated(parse: string -> Result<Tree, string>, expression: Json)
  {
    expression.JStr? && parse(expression.s).Ok? && Whitelisted(parse(expression.s).value.body)
  }

  const NOT_SOURCE_TEXT := "compile() arg 1 must be a string, bytes or AST object"

  /** `tool_calculator(expression)`, where `inexact` is what the tool outputs for a
      whitelisted tree whose value is a float or a complex number. */
  function ToolCalculator(parse: string -> Result<Tree, string>, inexact: Expr -> Json,
                          expression: Json): (r: Json)
    ensures !Evaluated(parse, expression) ==>
              r.JObj? && r.fields.Keys == {"ok", "error"} && r.fields["ok"] == JBool(false)
    ensures Evaluated(parse, expression) ==>
              var v := Eval(parse(expression.s).value.body);
              && (v.Exact? ==> r == Succeeded(JInt(v.v)))
              && (v.ZeroDivision? ==> r == Failed(v.message))
              && (v.Inexact? ==> r == inexact(parse(expression.s).value.body))
  {
    if !expression.JStr? then Failed(NOT_SOURCE_TEXT)
    else
      match parse(expression.s)
      case Err(syntaxError) => Failed(syntaxError)
      case Ok(Expression(body)) =>
        match FirstDisallowed(body)
        case Some(name) => Failed("disallowed expression: " + name)
        case None =>
          match Eval(body)
          case Exact(v) => Succeeded(JInt(v))
          case ZeroDivision(m) => Failed(m)
          case Inexact => inexact(body)
  }

  /** A rejected tree is never evaluated: the result names the first disallowed
      class and does not depend on evaluation at all. */
  lemma RejectedIsNeverEvaluated(parse: string -> Result<Tree, string>,
                                 inexact1: Expr -> Json, inexact2: Expr -> Json, src: string)
    requires parse(src).Ok? && !Whitelisted(parse(src).value.body)
    ensures var name := FirstDisallowed(parse(src).value.body);
            && name.Some?
            && ToolCalculator(parse, inexact1, JStr(src)) == Failed("disallowed expression: " + name.value)
            && ToolCalculator(parse, inexact2, JStr(src)) == ToolCalculator(parse, inexact1, JStr(src))
  {
  }

  /** Every failure is reported as a value: syntax errors, non-text input,
      disallowed nodes and zero division all give `{"ok": False, "error": ...}`,
      and an int result gives `{"ok": True, "result": ...}`. */
  lemma CalculatorOutcomes(parse: string -> Result<Tree, string>, inexact: Expr -> Json,
                           expression: Json)
    ensures !expression.JStr? ==> ToolCalculator(parse, inexact, expression) == Failed(NOT_SOURCE_TEXT)
    ensures expression.JStr? && parse(expression.s).Err? ==>
              ToolCalculator(parse, inexact, expression) == Failed(parse(expression.s).error)
    ensures expression.JStr? && parse(expression.s).Ok? && Whitelisted(parse(expression.s).value.body) ==>
              var v := Eval(parse(expression.s).value.body);
              && (v.Exact? ==> ToolCalculator(parse, inexact, expression) == Succeeded(JInt(v.v)))
              && (v.ZeroDivision? ==> ToolCalculator(parse, inexact, expression) == Failed(v.message))
  {
  }

  /** `2+2*3` parses with the usual precedence and evaluates to 8. */
  lemma PrecedenceExample(parse: string -> Result<Tree, string>, inexact: Expr -> Json)
    requires parse("2+2*3") ==
             Ok(Expression(BinOp(Constant(IntLit(2)), Add,
                                 BinOp(Constant(IntLit(2)), Mult, Constant(IntLit(3))))))
    ensures ToolCalculator(parse, inexact, JStr("2+2*3")) == Succeeded(JInt(8))
  {
  }

  /** Unary minus is accepted: `-3` evaluates to -3. */
  lemma UnaryMinusExample(parse: string -> Result<Tree, string>, inexact: Expr -> Json)
    requires parse("-3") == Ok(Expression(UnaryOp(USub, Constant(IntLit(3)))))
    ensures ToolCalculator(parse, inexact, JStr("-3")) == Succeeded(JInt(-3))
  {
  }

  /** Names, calls, strings and booleans are rejected by class name. */
  lemma RejectionExamples()
    ensures FirstDisallowed(OtherExpr("Call")) == Some("Call")
    ensures FirstDisallowed(BinOp(Constant(IntLit(1)), Add, OtherExpr("Name"))) == Some("Name")
    ensures FirstDisallowed(Constant(StrLit("x"))) == Some("Constant")
    ensures FirstDisallowed(Constant(BoolLit(true))) == Some("Constant")
    ensures FirstDisallowed(BinOp(OtherExpr("Name"), BitOr, OtherExpr("Call"))) == Some("Name")
  {
  }

  /** A float left operand over an int zero is not evaluated: its value is
      `Inexact`, so what the tool outputs, Python's `ZeroDivisionError`
      included, is the `inexact` parameter's. */
  lemma FloatOverZeroIsInexact(op: BinOperator)
    requires op == Div || op == FloorDiv || op == Mod
    ensures Eval(BinOp(Constant(FloatLit), op, Constant(IntLit(0)))) == Inexact
  {
  }

  /** Division by zero is caught, with Python's messages. */
  lemma ZeroDivisionExamples()
    ensures Eval(BinOp(Constant(IntLit(1)), FloorDiv, Constant(IntLit(0)))) ==
            ZeroDivision("integer division or modulo by zero")
    ensures Eval(BinOp(Constant(IntLit(1)), Mod, Constant(IntLit(0)))) ==
            ZeroDivision("integer modulo by zero")
    ensures Eval(BinOp(Constant(IntLit(1)), Div, Constant(IntLit(0)))) == ZeroDivision("division by zero")
    ensures Eval(BinOp(Constant(FloatLit), Add,
                       BinOp(Constant(IntLit(1)), FloorDiv, Constant(IntLit(0))))) ==
            ZeroDivision("integer division or modulo by zero")
  {
  }
}
