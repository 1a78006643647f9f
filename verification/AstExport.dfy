// Exporting an expression with parentheses where the priorities ask for them.  The exported text is
// a sequence of tokens.
module AstExport {

  datatype BinaryOp =
    | Add | Sub | Mul | Div | Mod | ShiftLeft | ShiftRight | Concat
    | BitOr | BitAnd | BitXor | Identical | NotIdentical | Equal | NotEqual
    | Smaller | SmallerOrEqual | Greater | GreaterOrEqual | Spaceship
    | Pow | BoolXor | And | Or | Coalesce

  datatype PrefixOp = Plus | Minus | BitNot | BoolNot

  /** Plain assignment, or assignment with an operator. */
  datatype AssignOp = Set | SetWith(op: BinaryOp)

  datatype Expr =
    | Var(name: string)
    | Num(value: nat)
    | Binary(op: BinaryOp, left: Expr, right: Expr)
    | Assign(how: AssignOp, name: string, source: Expr)
    | Cond(test: Expr, yes: Expr, no: Expr)
    | Elvis(test: Expr, no: Expr)
    | Prefix(pre: PrefixOp, arg: Expr)

  /** The signs + and - are one token each, whether they stand before an operand or between two. */
  datatype Token =
    | Name(name: string) | Digits(value: nat) | Infix(op: BinaryOp) | Becomes(how: AssignOp)
    | Tilde | Bang | Question | Colon | QuestionColon | Open | Close

  type Text = seq<Token>

  // ---- the exporter's own numbers -----------------------------------------------------------------------------

  /** What BINARY_OP passes: the priority of the operator and those of its operands. */
  function Priority(op: BinaryOp): (int, int, int) {
    match op
    case Add => (200, 200, 201)
    case Sub => (200, 200, 201)
    case Mul => (210, 210, 211)
    case Div => (210, 210, 211)
    case Mod => (210, 210, 211)
    case ShiftLeft => (190, 190, 191)
    case ShiftRight => (190, 190, 191)
    case Concat => (200, 200, 201)
    case BitOr => (140, 140, 141)
    case BitAnd => (160, 160, 161)
    case BitXor => (150, 150, 151)
    case Identical => (170, 171, 171)
    case NotIdentical => (170, 171, 171)
    case Equal => (170, 171, 171)
    case NotEqual => (170, 171, 171)
    case Smaller => (180, 181, 181)
    case SmallerOrEqual => (180, 181, 181)
    case Greater => (180, 181, 181)
    case GreaterOrEqual => (180, 181, 181)
    case Spaceship => (180, 181, 181)
    case Pow => (250, 251, 250)
    case BoolXor => (40, 40, 41)
    case And => (130, 130, 131)
    case Or => (120, 120, 121)
    case Coalesce => (110, 111, 110)
  }

  function PrefixToken(op: PrefixOp): Token {
    match op
    case Plus => Infix(Add)
    case Minus => Infix(Sub)
    case BitNot => Tilde
    case BoolNot => Bang
  }

  /** The priority at which an expression needs no parentheses. */
  function Top(e: Expr): int {
    match e
    case Var(_) => 1000
    case Num(_) => 1000
    case Binary(op, _, _) => Priority(op).0
    case Assign(_, _, _) => 90
    case Cond(_, _, _) => 100
    case Elvis(_, _) => 100
    case Prefix(_, _) => 240
  }

  /** Variables and numbers never do. */
  predicate NeedsParens(e: Expr, priority: int) {
    !e.Var? && !e.Num? && priority > Top(e)
  }

  /** The text without parentheses around the whole. */
  function Body(e: Expr): Text
    decreases e, 0
  {
    match e
    case Var(x) => [Name(x)]
    case Num(n) => [Digits(n)]
    case Binary(op, l, r) => Print(l, Priority(op).1) + [Infix(op)] + Print(r, Priority(op).2)
    case Assign(how, x, r) => [Name(x), Becomes(how)] + Print(r, 90)
    case Cond(c, y, n) => Print(c, 100) + [Question] + Print(y, 101) + [Colon] + Print(n, 101)
    case Elvis(c, n) => Print(c, 100) + [QuestionColon] + Print(n, 101)
    case Prefix(op, x) => [PrefixToken(op)] + Print(x, 241)
  }

  function Print(e: Expr, priority: int): Text
    decreases e, 1
  {
    if NeedsParens(e, priority) then [Open] + Body(e) + [Close] else Body(e)
  }

  function Opening(on: bool): Text {
    if on then [Open] else []
  }

  function Closing(on: bool): Text {
    if on then [Close] else []
  }

  lemma PrintParts(buffer: Text, e: Expr, q: int, x: Text, y: Text, z: Text)
    requires Body(e) == x + y + z
    ensures buffer + Opening(NeedsParens(e, q)) + x + y + z + Closing(NeedsParens(e, q)) == buffer + Print(e, q)
  {
  }

  /** zend_ast_export_ex: appends to a buffer, operands and parentheses in order. */
  method Export(buffer: Text, e: Expr, priority: int) returns (str: Text)
    ensures str == buffer + Print(e, priority)
    decreases e
  {
    hide Priority, Print;
    var p, pl, pr;
    var op;
    match e
    case Var(x) =>
      str := buffer + [Name(x)];
      PrintAtom(e, priority);
    case Num(n) =>
      str := buffer + [Digits(n)];
      PrintAtom(e, priority);
    case Binary(o, l, r) =>
      var numbers := Priority(o);
      op, p, pl, pr := Infix(o), numbers.0, numbers.1, numbers.2;
      str := buffer + Opening(priority > p);
      str := Export(str, l, pl);
      str := str + [op];
      str := Export(str, r, pr);
      str := str + Closing(priority > p);
      PrintParts(buffer, e, priority, Print(l, pl), [op], Print(r, pr));
    case Assign(how, x, r) =>
      op, p, pr := Becomes(how), 90, 90;
      str := buffer + Opening(priority > p);
      str := str + [Name(x)];
      str := str + [op];
      str := Export(str, r, pr);
      str := str + Closing(priority > p);
      AssignParts(e);
      PrintParts(buffer, e, priority, [Name(x)], [op], Print(r, pr));
    case Cond(c, y, n) =>
      str := buffer + Opening(priority > 100);
      str := Export(str, c, 100);
      str := str + [Question];
      str := Export(str, y, 101);
      str := str + [Colon];
      str := Export(str, n, 101);
      str := str + Closing(priority > 100);
      CondParts(buffer + Opening(priority > 100), e);
      PrintParts(buffer, e, priority, Print(c, 100) + [Question], Print(y, 101) + [Colon], Print(n, 101));
    case Elvis(c, n) =>
      str := buffer + Opening(priority > 100);
      str := Export(str, c, 100);
      str := str + [QuestionColon];
      str := Export(str, n, 101);
      str := str + Closing(priority > 100);
      PrintParts(buffer, e, priority, Print(c, 100), [QuestionColon], Print(n, 101));
    case Prefix(o, x) =>
      op, p, pl := PrefixToken(o), 240, 241;
      str := buffer + Opening(priority > p);
      str := str + [op];
      str := Export(str, x, pl);
      str := str + Closing(priority > p);
      PrefixParts(buffer + Opening(priority > p), e);
      PrintParts(buffer, e, priority, [], [op], Print(x, pl));
  }

  lemma PrintAtom(e: Expr, q: int)
    requires e.Var? || e.Num?
    ensures Print(e, q) == Body(e)
  {
  }

  lemma AssignParts(e: Expr)
    requires e.Assign?
    ensures Body(e) == [Name(e.name)] + [Becomes(e.how)] + Print(e.source, 90)
  {
  }

  lemma CondParts(s: Text, e: Expr)
    requires e.Cond?
    ensures Body(e) == (Print(e.test, 100) + [Question]) + (Print(e.yes, 101) + [Colon]) + Print(e.no, 101)
    ensures s + Print(e.test, 100) + [Question] + Print(e.yes, 101) + [Colon] + Print(e.no, 101)
            == s + (Print(e.test, 100) + [Question]) + (Print(e.yes, 101) + [Colon]) + Print(e.no, 101)
  {
    hide Print;
  }

  lemma PrefixParts(s: Text, e: Expr)
    requires e.Prefix?
    ensures Body(e) == [] + [PrefixToken(e.pre)] + Print(e.arg, 241)
    ensures s + [] == s
  {
    hide Print;
  }

  // ---- signs in a row -----------------------------------------------------------------------------------------

  predicate StartsPlain(t: Text) {
    t != [] && (t[0].Name? || t[0].Digits? || t[0].Open?)
  }

  /** After a prefix operator comes a variable, a number or a parenthesis: never another sign. */
  lemma NoSignsInARow(x: Expr)
    ensures StartsPlain(Print(x, 241))
  {
    if x.Binary? && x.op == Pow {
      LeftOfPow(x.left);
      assert Priority(Pow).1 == 251;
      assert Print(x, 241) == Print(x.left, 251) + ([Infix(Pow)] + Print(x.right, Priority(Pow).2));
    } else if x.Binary? {
      PriorityRange(x.op);
      hide Priority;
      assert NeedsParens(x, 241);
    }
  }

  lemma PriorityRange(op: BinaryOp)
    ensures 40 <= Priority(op).0 <= 210 || op == Pow
  {
  }

  lemma LeftOfPow(x: Expr)
    ensures StartsPlain(Print(x, 251))
  {
    if x.Binary? {
      PriorityRange(x.op);
      hide Priority;
      assert NeedsParens(x, 251);
    }
  }
}
