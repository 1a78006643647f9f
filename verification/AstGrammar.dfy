// Reading an exported expression back, by the precedences of the grammar or by the table that the
// exporter follows; they differ in one operator.
module AstGrammar {
  import opened AstExport

  /** The table in front of the exporter, or the precedences that the grammar declares. */
  datatype Rules = Table | Grammar

  datatype Associativity = LeftAssoc | RightAssoc | NonAssoc

  /** The table puts <=> beside <, the grammar beside ==. */
  function Level(g: Rules, op: BinaryOp): int {
    match op
    case BoolXor => 40
    case Coalesce => 110
    case Or => 120
    case And => 130
    case BitOr => 140
    case BitXor => 150
    case BitAnd => 160
    case Identical => 170
    case NotIdentical => 170
    case Equal => 170
    case NotEqual => 170
    case Smaller => 180
    case SmallerOrEqual => 180
    case Greater => 180
    case GreaterOrEqual => 180
    case Spaceship => if g.Table? then 180 else 170
    case ShiftLeft => 190
    case ShiftRight => 190
    case Add => 200
    case Sub => 200
    case Concat => 200
    case Mul => 210
    case Div => 210
    case Mod => 210
    case Pow => 250
  }

  function Side(op: BinaryOp): Associativity {
    var p := Level(Table, op);
    if p == 110 || p == 250 then RightAssoc else if p == 170 || p == 180 then NonAssoc else LeftAssoc
  }

  /** Both list the prefix ! at 220, the other prefix operators at 240. */
  function PrefixLevel(op: PrefixOp): int {
    if op == BoolNot then 220 else 240
  }

  predicate IsShip(e: Expr) {
    e.Binary? && e.op == Spaceship
  }

  predicate IsEquality(op: BinaryOp) {
    op == Identical || op == NotIdentical || op == Equal || op == NotEqual
  }

  /** No operand of ==, !=, === or !== is a <=>. */
  predicate Unmixed(e: Expr) {
    match e
    case Var(_) => true
    case Num(_) => true
    case Binary(op, l, r) => Unmixed(l) && Unmixed(r) && (IsEquality(op) ==> !IsShip(l) && !IsShip(r))
    case Assign(_, _, r) => Unmixed(r)
    case Cond(c, y, n) => Unmixed(c) && Unmixed(y) && Unmixed(n)
    case Elvis(c, n) => Unmixed(c) && Unmixed(n)
    case Prefix(_, x) => Unmixed(x)
  }

  predicate Fits(g: Rules, e: Expr) {
    g.Table? || Unmixed(e)
  }

  // ---- the reader -------------------------------------------------------------------------------------------

  datatype Parsed = Done(e: Expr, rest: Text) | Fail

  /** The level of the operator that a text begins with, -1 when it begins with none. */
  function Next(g: Rules, t: Text): int {
    if t == [] then -1
    else match t[0]
      case Infix(op) => Level(g, op)
      case Becomes(_) => 90
      case Question => 100
      case QuestionColon => 100
      case _ => -1
  }

  /**
   * An operand with the prefix operators before it.  An assignment is one wherever its variable
   * may stand, since nothing else can be made of a variable before an assignment sign.
   */
  function Operand(g: Rules, t: Text): (r: Parsed)
    ensures r.Done? ==> |r.rest| < |t|
    decreases |t|, 0
  {
    if t == [] then Fail
    else match t[0]
      case Name(x) => if |t| > 1 && t[1].Becomes? then Assigned(g, x, t[1].how, t[2..]) else Done(Var(x), t[1..])
      case Digits(n) => Done(Num(n), t[1..])
      case Open =>
        var r := Parse(g, t[1..], 0);
        if r.Done? && r.rest != [] && r.rest[0] == Close then Done(r.e, r.rest[1..]) else Fail
      case Infix(Add) => UnderPrefix(g, Plus, t[1..])
      case Infix(Sub) => UnderPrefix(g, Minus, t[1..])
      case Tilde => UnderPrefix(g, BitNot, t[1..])
      case Bang => UnderPrefix(g, BoolNot, t[1..])
      case _ => Fail
  }

  /** The source takes all operators above the assignment sign; one it could not take is an error. */
  function Assigned(g: Rules, x: string, how: AssignOp, t: Text): (r: Parsed)
    ensures r.Done? ==> |r.rest| < |t|
    decreases |t|, 3
  {
    var r := Parse(g, t, 90);
    if r.Done? && Next(g, r.rest) <= 90 then Done(Assign(how, x, r.e), r.rest) else Fail
  }

  function UnderPrefix(g: Rules, op: PrefixOp, t: Text): (r: Parsed)
    ensures r.Done? ==> |r.rest| < |t|
    decreases |t|, 3
  {
    var r := Parse(g, t, PrefixLevel(op));
    if r.Done? then Done(Prefix(op, r.e), r.rest) else Fail
  }

  /** An expression whose operators outside parentheses have at least the given level. */
  function Parse(g: Rules, t: Text, least: int): (r: Parsed)
    ensures r.Done? ==> |r.rest| < |t|
    decreases |t|, 2
  {
    var r := Operand(g, t);
    if r.Done? then More(g, r.e, r.rest, least, 1000) else Fail
  }

  /** How tightly the right operand of an operator must bind. */
  function RightLeast(g: Rules, op: BinaryOp): int {
    if Side(op) == RightAssoc then Level(g, op) else Level(g, op) + 1
  }

  /** The highest level that may follow on the same chain: a non-associative operator ends its own. */
  function Cap(g: Rules, op: BinaryOp): int {
    if Side(op) == NonAssoc then Level(g, op) - 1 else Level(g, op)
  }

  /** One operator, with its other operands, behind a left operand. */
  function Join(g: Rules, left: Expr, t: Text): (r: Parsed)
    ensures r.Done? ==> |r.rest| < |t|
    decreases |t|, 0
  {
    if t == [] then Fail
    else match t[0]
      case Infix(op) =>
        var r := Parse(g, t[1..], RightLeast(g, op));
        if r.Done? then Done(Binary(op, left, r.e), r.rest) else Fail
      case QuestionColon =>
        var r := Parse(g, t[1..], 101);
        if r.Done? then Done(Elvis(left, r.e), r.rest) else Fail
      case Question =>
        var r := Parse(g, t[1..], 0);
        if r.Done? && r.rest != [] && r.rest[0] == Colon then
          var n := Parse(g, r.rest[1..], 101);
          if n.Done? then Done(Cond(left, r.e, n.e), n.rest) else Fail
        else Fail
      case _ => Fail
  }

  /** Operators that follow a left operand, with levels from least to most. */
  function More(g: Rules, left: Expr, t: Text, least: int, most: int): (r: Parsed)
    ensures r.Done? ==> |r.rest| <= |t|
    decreases |t|, 1
  {
    if Next(g, t) < 0 || Next(g, t) < least || Next(g, t) > most then Done(left, t)
    else
      var r := Join(g, left, t);
      if r.Done? then More(g, r.e, r.rest, least, CapOf(g, r.e)) else Fail
  }

  /** The levels that may follow on the chain that an expression leaves behind. */
  function CapOf(g: Rules, e: Expr): int {
    match e
    case Binary(op, _, _) => Cap(g, op)
    case Cond(_, _, _) => 100
    case Elvis(_, _) => 100
    case _ => 1000
  }

  /** The level of the last operator of a chain; an operand has none to fear. */
  function LevelOf(g: Rules, e: Expr): int {
    match e
    case Binary(op, _, _) => Level(g, op)
    case Cond(_, _, _) => 100
    case Elvis(_, _) => 100
    case _ => 1000
  }

  // ---- the exporter's numbers -------------------------------------------------------------------------------

  /** The numbers of the exporter are those of the table, and but for <=> those of the grammar. */
  lemma PrioritiesFit(g: Rules, op: BinaryOp)
    ensures g.Table? || op != Spaceship ==>
              && Priority(op).0 == Level(g, op) && Priority(op).2 == RightLeast(g, op)
              && Priority(op).1 == if Side(op) == LeftAssoc then Level(g, op) else Level(g, op) + 1
    ensures 40 <= Level(g, op) <= 210 || (op == Pow && Level(g, op) == 250)
    ensures Level(g, op) != 90 && Level(g, op) != 100
  {
  }

  /** By the grammar <=> stands one step lower than the exporter takes it to stand. */
  lemma ShipLower(op: BinaryOp)
    ensures Priority(Spaceship) == (180, 181, 181) && Level(Grammar, Spaceship) == 170 && Side(Spaceship) == NonAssoc
    ensures op != Spaceship ==> (Level(Grammar, op) == 170 <==> IsEquality(op)) && Level(Grammar, op) % 10 == 0
    ensures IsEquality(op) || Level(Grammar, op) == 180 ==> Side(op) == NonAssoc
  {
  }

  lemma SameSide(g: Rules, x: BinaryOp, y: BinaryOp)
    requires Level(g, x) == Level(g, y)
    ensures Side(x) == Side(y)
  {
  }

  // ---- the round trip ---------------------------------------------------------------------------------------

  /** What may follow an expression that is printed without parentheses, by its operator. */
  predicate Stops(g: Rules, e: Expr, n: int) {
    n < 0 || (n != 90 && match e
      case Binary(op, _, _) => if Side(op) == RightAssoc then n < Level(g, op) else n <= Level(g, op)
      case Assign(_, _, _) => n < 90
      case Cond(_, _, _) => n <= 100
      case Elvis(_, _) => n <= 100
      case Prefix(_, _) => n < 220
      case _ => true)
  }

  /** Printed at priority q and followed by level n, e is read as a whole when levels from least on are asked for. */
  predicate Whole(g: Rules, e: Expr, q: int, least: int, n: int) {
    NeedsParens(e, q) || (Stops(g, e, n) && least <= LevelOf(g, e))
  }

  function CapAt(g: Rules, e: Expr, q: int): int {
    if NeedsParens(e, q) then 1000 else CapOf(g, e)
  }

  lemma MoreStops(g: Rules, e: Expr, t: Text, least: int, most: int)
    requires Next(g, t) < 0 || Next(g, t) < least
    ensures More(g, e, t, least, most) == Done(e, t)
  {
  }

  /** A left operand leaves room for its operator. */
  lemma LeftStops(g: Rules, l: Expr, op: BinaryOp, least: int)
    requires least <= Level(g, op) && !(g.Grammar? && IsEquality(op) && IsShip(l))
    ensures Whole(g, l, Priority(op).1, least, Level(g, op))
    ensures Level(g, op) <= CapAt(g, l, Priority(op).1)
  {
    hide Level, Side, Priority;
    PrioritiesFit(g, op);
    ShipLower(op);
    if l.Binary? {
      PrioritiesFit(g, l.op);
      ShipLower(l.op);
      if Level(g, op) == Level(g, l.op) {
        SameSide(g, op, l.op);
      }
    }
  }

  /** What may follow an operator expression may follow its right operand. */
  lemma RightStops(g: Rules, r: Expr, op: BinaryOp, n: int)
    requires n < RightLeast(g, op) && n != 90 && !(g.Grammar? && IsEquality(op) && IsShip(r))
    ensures Whole(g, r, Priority(op).2, RightLeast(g, op), n)
  {
    hide Level, Side, Priority;
    PrioritiesFit(g, op);
    ShipLower(op);
    if r.Binary? {
      PrioritiesFit(g, r.op);
      ShipLower(r.op);
    }
  }

  lemma {:induction false} BodyParses(g: Rules, e: Expr, least: int, rest: Text)
    requires Fits(g, e) && least <= LevelOf(g, e) && Stops(g, e, Next(g, rest))
    ensures Parse(g, Body(e) + rest, least) == More(g, e, rest, least, CapOf(g, e))
    decreases e, 2
  {
    hide Print, Priority, Level, Side, Unmixed, Join;
    match e
    case Var(x) =>
      assert (Body(e) + rest)[1..] == rest;
    case Num(n) =>
      assert (Body(e) + rest)[1..] == rest;
    case Binary(op, l, r) => BinaryParses(g, e, least, rest);
    case Assign(how, x, r) => AssignOperand(g, e, rest);
    case Cond(c, y, n) => CondParses(g, e, least, rest);
    case Elvis(c, n) => ElvisParses(g, e, least, rest);
    case Prefix(op, x) => PrefixOperand(g, e, rest);
  }

  /** In parentheses an expression is an operand. */
  lemma {:induction false} ParensOperand(g: Rules, e: Expr, rest: Text)
    requires Fits(g, e)
    ensures Operand(g, [Open] + Body(e) + [Close] + rest) == Done(e, rest)
    decreases e, 3
  {
    hide Body, Print, Level, Side, Unmixed, More;
    var inner := Body(e) + ([Close] + rest);
    LevelPositive(g, e);
    BodyParses(g, e, 0, [Close] + rest);
    MoreStops(g, e, [Close] + rest, 0, CapOf(g, e));
    assert [Open] + Body(e) + [Close] + rest == [Open] + inner;
    assert ([Open] + inner)[1..] == inner && ([Close] + rest)[1..] == rest;
  }

  /** Where an expression is read as a whole, its text reads back as the expression. */
  lemma {:induction false} PrintParses(g: Rules, e: Expr, q: int, least: int, rest: Text)
    requires Fits(g, e) && Whole(g, e, q, least, Next(g, rest))
    ensures Parse(g, Print(e, q) + rest, least) == More(g, e, rest, least, CapAt(g, e, q))
    decreases e, 4
  {
    hide Body, Level, Side, Unmixed, Operand, More;
    if NeedsParens(e, q) {
      ParensOperand(g, e, rest);
    } else {
      BodyParses(g, e, least, rest);
    }
  }

  lemma LevelPositive(g: Rules, e: Expr)
    ensures 40 <= LevelOf(g, e) && 40 <= Top(e)
  {
  }

  lemma {:induction false} BinaryParses(g: Rules, e: Expr, least: int, rest: Text)
    requires e.Binary? && Fits(g, e) && least <= Level(g, e.op) && Stops(g, e, Next(g, rest))
    ensures Parse(g, Body(e) + rest, least) == More(g, e, rest, least, CapOf(g, e))
    decreases e, 1
  {
    hide Print, Priority, Level, Side, Operand, Parse;
    var op, l, r := e.op, e.left, e.right;
    PrioritiesFit(g, op);
    var right := Print(r, Priority(op).2) + rest;
    var after := [Infix(op)] + right;
    assert Body(e) + rest == Print(l, Priority(op).1) + after;
    LeftStops(g, l, op, least);
    PrintParses(g, l, Priority(op).1, least, after);
    RightStops(g, r, op, Next(g, rest));
    PrintParses(g, r, Priority(op).2, RightLeast(g, op), rest);
    MoreStops(g, r, rest, RightLeast(g, op), CapAt(g, r, Priority(op).2));
    assert after[1..] == right;
  }

  /** Right operands printed at a fixed priority. */
  lemma TailStops(g: Rules, r: Expr, q: int, n: int)
    requires n < q && n != 90 && 90 <= q <= 101
    ensures Whole(g, r, q, q, n)
  {
    hide Level, Side, Priority;
    if r.Binary? {
      PrioritiesFit(g, r.op);
      ShipLower(r.op);
    }
  }

  lemma {:induction false} AssignOperand(g: Rules, e: Expr, rest: Text)
    requires e.Assign? && Fits(g, e) && Stops(g, e, Next(g, rest))
    ensures Operand(g, Body(e) + rest) == Done(e, rest)
    decreases e, 1
  {
    hide Print, Priority, Level, Side, Parse, More;
    var r := e.source;
    var right := Print(r, 90) + rest;
    var t := Body(e) + rest;
    assert t == [Name(e.name), Becomes(e.how)] + right;
    assert t[2..] == right;
    hide Body;
    TailStops(g, r, 90, Next(g, rest));
    PrintParses(g, r, 90, 90, rest);
    MoreStops(g, r, rest, 90, CapAt(g, r, 90));
  }

  /** The condition of ?: is printed at the level of ?: itself. */
  lemma TestStops(g: Rules, c: Expr, least: int)
    requires least <= 100
    ensures Whole(g, c, 100, least, 100) && 100 <= CapAt(g, c, 100)
  {
    hide Level, Side, Priority;
    if c.Binary? {
      PrioritiesFit(g, c.op);
      ShipLower(c.op);
    }
  }

  lemma {:induction false} ElvisParses(g: Rules, e: Expr, least: int, rest: Text)
    requires e.Elvis? && Fits(g, e) && least <= 100 && Stops(g, e, Next(g, rest))
    ensures Parse(g, Body(e) + rest, least) == More(g, e, rest, least, CapOf(g, e))
    decreases e, 1
  {
    hide Print, Priority, Level, Side, Operand, Parse;
    var c, n := e.test, e.no;
    var right := Print(n, 101) + rest;
    var after := [QuestionColon] + right;
    assert Body(e) + rest == Print(c, 100) + after;
    hide Body;
    TestStops(g, c, least);
    PrintParses(g, c, 100, least, after);
    TailStops(g, n, 101, Next(g, rest));
    PrintParses(g, n, 101, 101, rest);
    MoreStops(g, n, rest, 101, CapAt(g, n, 101));
    assert after[1..] == right;
  }

  /** The middle part of ?: ends at its colon, whatever it is. */
  lemma MiddleStops(g: Rules, y: Expr, q: int)
    ensures Whole(g, y, q, 0, -1)
  {
    LevelPositive(g, y);
  }

  lemma {:induction false} CondParses(g: Rules, e: Expr, least: int, rest: Text)
    requires e.Cond? && Fits(g, e) && least <= 100 && Stops(g, e, Next(g, rest))
    ensures Parse(g, Body(e) + rest, least) == More(g, e, rest, least, CapOf(g, e))
    decreases e, 1
  {
    hide Print, Priority, Level, Side, Operand, Parse;
    var c, y, n := e.test, e.yes, e.no;
    var last := Print(n, 101) + rest;
    var middle := [Colon] + last;
    var right := Print(y, 101) + middle;
    var after := [Question] + right;
    assert Body(e) + rest == Print(c, 100) + after;
    hide Body;
    TestStops(g, c, least);
    PrintParses(g, c, 100, least, after);
    MiddleStops(g, y, 101);
    PrintParses(g, y, 101, 0, middle);
    MoreStops(g, y, middle, 0, CapAt(g, y, 101));
    TailStops(g, n, 101, Next(g, rest));
    PrintParses(g, n, 101, 101, rest);
    MoreStops(g, n, rest, 101, CapAt(g, n, 101));
    assert after[1..] == right && middle[1..] == last;
  }

  /** Only ** binds tighter than a prefix operator, so an operand without parentheses stops early. */
  lemma ArgStops(g: Rules, pre: PrefixOp, x: Expr, n: int)
    requires n < 220 && n != 90
    ensures Whole(g, x, 241, PrefixLevel(pre), n)
  {
    hide Level, Side, Priority;
    if x.Binary? {
      PrioritiesFit(g, x.op);
      ShipLower(x.op);
    }
  }

  lemma {:induction false} PrefixOperand(g: Rules, e: Expr, rest: Text)
    requires e.Prefix? && Fits(g, e) && Stops(g, e, Next(g, rest))
    ensures Operand(g, Body(e) + rest) == Done(e, rest)
    decreases e, 1
  {
    hide Print, Priority, Level, Side, Parse, More;
    var x, least := e.arg, PrefixLevel(e.pre);
    var right := Print(x, 241) + rest;
    var t := Body(e) + rest;
    assert t == [PrefixToken(e.pre)] + right;
    assert t[1..] == right;
    hide Body;
    ArgStops(g, e.pre, x, Next(g, rest));
    PrintParses(g, x, 241, least, rest);
    MoreStops(g, x, rest, least, CapAt(g, x, 241));
    assert Operand(g, t) == UnderPrefix(g, e.pre, right);
  }

  lemma ReadsBack(g: Rules, e: Expr)
    requires Fits(g, e)
    ensures Parse(g, Print(e, 0), 0) == Done(e, [])
  {
    assert Print(e, 0) + [] == Print(e, 0);
    LevelPositive(g, e);
    hide Parse, Print, Unmixed;
    PrintParses(g, e, 0, 0, []);
    MoreStops(g, e, [], 0, CapAt(g, e, 0));
  }

  // ---- where the grammar disagrees --------------------------------------------------------------------------

  /** Reading has failed, or has stopped before s at an operator of the level of ==. */
  predicate Jammed(r: Parsed, s: Text) {
    r.Done? ==> |r.rest| > |s| && Next(Grammar, r.rest) == 170
  }

  /** With == beside <=> and no parentheses between them the grammar reads no further. */
  lemma {:induction false} PrintJams(e: Expr, q: int, least: int, s: Text)
    requires !Unmixed(e) && (NeedsParens(e, q) || least <= LevelOf(Grammar, e))
    ensures Jammed(Parse(Grammar, Print(e, q) + s, least), s)
    ensures NeedsParens(e, q) || Top(e) > 170 ==> Parse(Grammar, Print(e, q) + s, least).Fail?
    decreases e, 4
  {
    hide Body, Level, Side, Unmixed, More, Priority;
    if NeedsParens(e, q) {
      var inner := Body(e) + ([Close] + s);
      LevelPositive(Grammar, e);
      BodyJams(e, 0, [Close] + s);
      assert Print(e, q) + s == [Open] + inner;
      assert ([Open] + inner)[1..] == inner;
    } else {
      BodyJams(e, least, s);
    }
  }

  lemma {:induction false} BodyJams(e: Expr, least: int, s: Text)
    requires !Unmixed(e) && least <= LevelOf(Grammar, e)
    ensures Jammed(Parse(Grammar, Body(e) + s, least), s)
    ensures Top(e) > 170 ==> Parse(Grammar, Body(e) + s, least).Fail?
    decreases e, 3
  {
    hide Print, Priority, Level, Side, Parse, More, Body, Fits, Next;
    match e
    case Binary(op, l, r) => BinaryJams(e, least, s);
    case Assign(how, x, r) => OperandJams(e, least, s);
    case Cond(c, y, n) => CondJams(e, least, s);
    case Elvis(c, n) => ElvisJams(e, least, s);
    case Prefix(op, x) => OperandJams(e, least, s);
    case _ =>
  }

  lemma {:induction false} OperandJams(e: Expr, least: int, s: Text)
    requires !Unmixed(e) && (e.Prefix? || e.Assign?)
    ensures Parse(Grammar, Body(e) + s, least).Fail?
    decreases e, 1
  {
    hide Print, Priority, Level, Side, More;
    var t := Body(e) + s;
    if e.Prefix? {
      var right := Print(e.arg, 241) + s;
      assert t == [PrefixToken(e.pre)] + right;
      assert t[1..] == right;
      hide Body;
      ArgStops(Grammar, e.pre, e.arg, -1);
      PrintJams(e.arg, 241, PrefixLevel(e.pre), s);
      assert Operand(Grammar, t) == UnderPrefix(Grammar, e.pre, right);
    } else {
      var right := Print(e.source, 90) + s;
      assert t == [Name(e.name), Becomes(e.how)] + right;
      assert t[2..] == right;
      hide Body;
      TailStops(Grammar, e.source, 90, -1);
      PrintJams(e.source, 90, 90, s);
      assert Operand(Grammar, t) == Assigned(Grammar, e.name, e.how, right);
    }
  }

  /** Where the operands of a binary operator are looked at, and how they end, if they jam. */
  lemma JamLevels(e: Expr, least: int)
    requires e.Binary? && least <= Level(Grammar, e.op)
    ensures NeedsParens(e.left, Priority(e.op).1) || least <= LevelOf(Grammar, e.left)
    ensures NeedsParens(e.right, Priority(e.op).2) || RightLeast(Grammar, e.op) <= LevelOf(Grammar, e.right)
            || (IsEquality(e.op) && IsShip(e.right))
    ensures Top(e) > 170 ==> NeedsParens(e.left, Priority(e.op).1) || Top(e.left) > 170 || e.left.Var? || e.left.Num?
    ensures Top(e) > 170 ==> NeedsParens(e.right, Priority(e.op).2) || Top(e.right) > 170 || e.right.Var? || e.right.Num?
    ensures Top(e) <= 170 ==> Cap(Grammar, e.op) < 170
    ensures IsEquality(e.op) ==> Level(Grammar, e.op) == 170 && Top(e) == 170 && Priority(e.op) == (170, 171, 171)
  {
    hide Level, Side, Priority;
    PrioritiesFit(Grammar, e.op);
    ShipLower(e.op);
    if e.left.Binary? {
      PrioritiesFit(Grammar, e.left.op);
      ShipLower(e.left.op);
    }
    if e.right.Binary? {
      PrioritiesFit(Grammar, e.right.op);
      ShipLower(e.right.op);
    }
  }

  /** A <=> that ends before its operator has jammed, too. */
  lemma {:induction false} ShipJams(r: Expr, s: Text)
    requires IsShip(r)
    ensures Jammed(Parse(Grammar, Print(r, 171) + s, 171), s)
    decreases r, 3
  {
    hide Level, Side, Operand, Parse, Unmixed;
    ShipLower(Spaceship);
    var x := r.left;
    var after := [Infix(Spaceship)] + (Print(r.right, 181) + s);
    assert Print(r, 171) == Body(r);
    hide Print;
    assert Body(r) + s == Print(x, 181) + after;
    ShipLeft(x);
    if Unmixed(x) {
      PrintParses(Grammar, x, 181, 171, after);
    } else {
      PrintJams(x, 181, 171, after);
    }
  }

  lemma ShipLeft(x: Expr)
    ensures Whole(Grammar, x, 181, 171, 170)
    ensures NeedsParens(x, 181) || Top(x) > 170
  {
    hide Level, Side, Priority;
    if x.Binary? {
      PrioritiesFit(Grammar, x.op);
      ShipLower(x.op);
    }
  }

  lemma {:induction false} BinaryJams(e: Expr, least: int, s: Text)
    requires e.Binary? && !Unmixed(e) && least <= Level(Grammar, e.op)
    ensures Jammed(Parse(Grammar, Body(e) + s, least), s)
    ensures Top(e) > 170 ==> Parse(Grammar, Body(e) + s, least).Fail?
    decreases e, 2
  {
    hide Print, Priority, Level, Side, Operand, Parse;
    var op, l, r := e.op, e.left, e.right;
    var right := Print(r, Priority(op).2) + s;
    var after := [Infix(op)] + right;
    assert Body(e) + s == Print(l, Priority(op).1) + after;
    assert after[1..] == right;
    PrioritiesFit(Grammar, op);
    ShipLower(op);
    JamLevels(e, least);
    if !Unmixed(l) {
      PrintJams(l, Priority(op).1, least, after);
    } else if IsEquality(op) && IsShip(l) {
      PrintParses(Grammar, l, Priority(op).1, least, after);
    } else {
      LeftStops(Grammar, l, op, least);
      PrintParses(Grammar, l, Priority(op).1, least, after);
      if IsEquality(op) && IsShip(r) {
        ShipJams(r, s);
      } else {
        PrintJams(r, Priority(op).2, RightLeast(Grammar, op), s);
      }
    }
  }

  lemma {:induction false} ElvisJams(e: Expr, least: int, s: Text)
    requires e.Elvis? && !Unmixed(e) && least <= 100
    ensures Jammed(Parse(Grammar, Body(e) + s, least), s)
    decreases e, 2
  {
    hide Print, Priority, Level, Side, Operand, Parse;
    var c, n := e.test, e.no;
    var right := Print(n, 101) + s;
    var after := [QuestionColon] + right;
    assert Body(e) + s == Print(c, 100) + after;
    assert after[1..] == right;
    TestStops(Grammar, c, least);
    if Unmixed(c) {
      PrintParses(Grammar, c, 100, least, after);
      TailStops(Grammar, n, 101, -1);
      PrintJams(n, 101, 101, s);
    } else {
      PrintJams(c, 100, least, after);
    }
  }

  lemma {:induction false} CondJams(e: Expr, least: int, s: Text)
    requires e.Cond? && !Unmixed(e) && least <= 100
    ensures Jammed(Parse(Grammar, Body(e) + s, least), s)
    decreases e, 2
  {
    hide Print, Priority, Level, Side, Operand, Parse;
    var c, y, n := e.test, e.yes, e.no;
    var last := Print(n, 101) + s;
    var middle := [Colon] + last;
    var right := Print(y, 101) + middle;
    var after := [Question] + right;
    assert Body(e) + s == Print(c, 100) + after;
    assert after[1..] == right && middle[1..] == last;
    TestStops(Grammar, c, least);
    MiddleStops(Grammar, y, 101);
    if !Unmixed(c) {
      PrintJams(c, 100, least, after);
    } else {
      PrintParses(Grammar, c, 100, least, after);
      if Unmixed(y) {
        PrintParses(Grammar, y, 101, 0, middle);
        MoreStops(Grammar, y, middle, 0, CapAt(Grammar, y, 101));
        TailStops(Grammar, n, 101, -1);
        PrintJams(n, 101, 101, s);
      } else {
        PrintJams(y, 101, 0, middle);
      }
    }
  }

  // ---- the result -------------------------------------------------------------------------------------------

  /**
   * The exported text reads back as the expression, all of it: by the table always, by the grammar
   * if and only if no <=> is an operand of an operator of equality.
   */
  lemma RoundTrip(g: Rules, e: Expr)
    ensures Parse(g, Print(e, 0), 0) == Done(e, []) <==> g.Table? || Unmixed(e)
  {
    hide Parse, Print, Unmixed;
    if Fits(g, e) {
      ReadsBack(g, e);
    } else {
      assert Print(e, 0) + [] == Print(e, 0);
      LevelPositive(Grammar, e);
      PrintJams(e, 0, 0, []);
    }
  }

  /** Different expressions have different texts. */
  lemma Unambiguous(x: Expr, y: Expr)
    requires Print(x, 0) == Print(y, 0)
    ensures x == y
  {
    hide Print, Parse;
    RoundTrip(Table, x);
    RoundTrip(Table, y);
  }

  lemma ShipText(a: string, b: string, c: string)
    ensures Print(Binary(Equal, Binary(Spaceship, Var(a), Var(b)), Var(c)), 0)
            == [Name(a), Infix(Spaceship), Name(b), Infix(Equal), Name(c)]
  {
    var l := Binary(Spaceship, Var(a), Var(b));
    PrintAtom(Var(a), 181);
    PrintAtom(Var(b), 181);
    PrintAtom(Var(c), 171);
    assert Print(l, 171) == Body(l);
    assert Body(l) == [Name(a)] + [Infix(Spaceship)] + [Name(b)];
    assert Print(Binary(Equal, l, Var(c)), 0) == Body(l) + [Infix(Equal)] + [Name(c)];
  }

  /** a <=> b == c is what is printed for the comparison of a <=> b with c; the grammar cannot read it. */
  lemma ShipUnderEquality(a: string, b: string, c: string)
    ensures var e := Binary(Equal, Binary(Spaceship, Var(a), Var(b)), Var(c));
            && Print(e, 0) == [Name(a), Infix(Spaceship), Name(b), Infix(Equal), Name(c)]
            && Parse(Grammar, Print(e, 0), 0) != Done(e, [])
  {
    var e := Binary(Equal, Binary(Spaceship, Var(a), Var(b)), Var(c));
    hide Parse, Level;
    RoundTrip(Grammar, e);
    ShipText(a, b, c);
  }
}
