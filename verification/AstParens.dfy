// No parentheses stand in an exported text but where the reader needs them, save in a few positions
// that are named.
module AstParens {
  import opened AstExport
  import opened AstGrammar

  /** The operands of an expression with the priorities they are exported at. */
  function Operands(e: Expr): seq<(Expr, int)> {
    match e
    case Binary(op, l, r) => [(l, Priority(op).1), (r, Priority(op).2)]
    case Assign(_, _, r) => [(r, 90)]
    case Cond(c, y, n) => [(c, 100), (y, 101), (n, 101)]
    case Elvis(c, n) => [(c, 100), (n, 101)]
    case Prefix(_, x) => [(x, 241)]
    case _ => []
  }

  function Part(x: Expr, q: int, bare: bool): Text {
    if bare then Body(x) else Print(x, q)
  }

  /** The text with operand k bare of parentheses. */
  function Bared(e: Expr, k: int): Text {
    match e
    case Binary(op, l, r) => Part(l, Priority(op).1, k == 0) + [Infix(op)] + Part(r, Priority(op).2, k == 1)
    case Assign(how, x, r) => [Name(x), Becomes(how)] + Part(r, 90, k == 0)
    case Cond(c, y, n) => Part(c, 100, k == 0) + [Question] + Part(y, 101, k == 1) + [Colon] + Part(n, 101, k == 2)
    case Elvis(c, n) => Part(c, 100, k == 0) + [QuestionColon] + Part(n, 101, k == 1)
    case Prefix(op, x) => [PrefixToken(op)] + Part(x, 241, k == 0)
    case _ => Body(e)
  }

  predicate IsOrdering(op: BinaryOp) {
    op == Smaller || op == SmallerOrEqual || op == Greater || op == GreaterOrEqual
  }

  /**
   * The parentheses around operand k that the reader does not need: around the middle part of ?:, an
   * assignment that comes last, a prefix operator under another or on the right of **, and, by
   * the grammar, a comparison under <=>.
   */
  predicate Dispensable(g: Rules, e: Expr, k: int)
    requires 0 <= k < |Operands(e)|
  {
    var x := Operands(e)[k].0;
    || (e.Cond? && k == 1)
    || (x.Assign? && k == |Operands(e)| - 1)
    || (x.Prefix? && (e.Prefix? || (e.Binary? && k == 1)))
    || (g.Grammar? && IsShip(e) && x.Binary? && IsOrdering(x.op))
  }

  /** The text is read as e, whatever is left over. */
  predicate ReadAs(r: Parsed, e: Expr) {
    r.Done? && r.e == e
  }

  // ---- the left spine ---------------------------------------------------------------------------------------

  function Size(e: Expr): nat {
    match e
    case Binary(_, l, r) => 1 + Size(l) + Size(r)
    case Assign(_, _, r) => 1 + Size(r)
    case Cond(c, y, n) => 1 + Size(c) + Size(y) + Size(n)
    case Elvis(c, n) => 1 + Size(c) + Size(n)
    case Prefix(_, x) => 1 + Size(x)
    case _ => 1
  }

  predicate Chained(e: Expr) {
    e.Binary? || e.Cond? || e.Elvis?
  }

  /** The left operand. */
  function Lead(e: Expr): (l: Expr)
    requires Chained(e)
    ensures Size(l) < Size(e)
  {
    match e
    case Binary(_, l, _) => l
    case Cond(c, _, _) => c
    case Elvis(c, _) => c
  }

  /** e, its left operand, the left operand of that, and so on. */
  predicate OnSpine(x: Expr, e: Expr) {
    x == e || (Chained(e) && OnSpine(x, Lead(e)))
  }

  lemma {:induction false} SpineSize(x: Expr, e: Expr)
    requires OnSpine(x, e)
    ensures Size(x) <= Size(e) && (x == e || Size(x) < Size(e))
  {
    if x != e {
      SpineSize(x, Lead(e));
    }
  }

  lemma {:induction false} SpineTrans(x: Expr, y: Expr, z: Expr)
    requires OnSpine(x, y) && OnSpine(y, z)
    ensures OnSpine(x, z)
  {
    if y != z {
      SpineTrans(x, y, Lead(z));
    }
  }

  /** On one spine a left operand belongs to one expression. */
  lemma {:induction false} SameLead(x: Expr, y: Expr, e: Expr)
    requires OnSpine(x, e) && OnSpine(y, e) && Chained(x) && Chained(y) && Lead(x) == Lead(y)
    ensures x == y
  {
    if x != e && y != e {
      SameLead(x, y, Lead(e));
    } else if x != y {
      SpineSize(if x == e then y else x, Lead(e));
    }
  }

  // ---- what the reader builds -------------------------------------------------------------------------------

  lemma Joined(g: Rules, x: Expr, t: Text)
    requires Join(g, x, t).Done?
    ensures var j := Join(g, x, t).e;
            Chained(j) && Lead(j) == x && OnSpine(x, j) && Next(g, t) == LevelOf(g, j) && j != x
  {
    hide Parse, Level;
    var j := Join(g, x, t).e;
    assert OnSpine(x, Lead(j));
  }

  /** What the reader starts from is on the spine of what it arrives at. */
  lemma {:induction false} MoreSpine(g: Rules, x: Expr, t: Text, least: int, most: int)
    ensures var r := More(g, x, t, least, most); r.Done? ==> OnSpine(x, r.e)
    decreases |t|
  {
    hide Join, OnSpine;
    SpineRefl(x);
    if !(Next(g, t) < 0 || Next(g, t) < least || Next(g, t) > most) && Join(g, x, t).Done? {
      var j := Join(g, x, t);
      Joined(g, x, t);
      MoreSpine(g, j.e, j.rest, least, CapOf(g, j.e));
      if More(g, x, t, least, most).Done? {
        SpineTrans(x, j.e, More(g, x, t, least, most).e);
      }
    }
  }

  lemma SpineRefl(x: Expr)
    ensures OnSpine(x, x)
  {
  }

  /** The next expression up the spine is made of the next operator. */
  lemma MoreStep(g: Rules, x: Expr, t: Text, least: int, most: int, e: Expr, up: Expr)
    requires ReadAs(More(g, x, t, least, most), e) && OnSpine(up, e) && Chained(up) && Lead(up) == x
    ensures Next(g, t) == LevelOf(g, up) && least <= Next(g, t) <= most
    ensures ReadAs(Join(g, x, t), up)
    ensures var j := Join(g, x, t); ReadAs(More(g, up, j.rest, least, CapOf(g, up)), e)
  {
    hide Join, Level;
    SpineSize(up, e);
    assert Size(x) < Size(e);
    var j := Join(g, x, t);
    Joined(g, x, t);
    MoreSpine(g, j.e, j.rest, least, CapOf(g, j.e));
    SameLead(up, j.e, e);
  }

  /** The reader stops before a level that is too low, or too high for the chain it has built. */
  lemma {:induction false} MoreEnds(g: Rules, x: Expr, t: Text, least: int, most: int)
    ensures var r := More(g, x, t, least, most);
            r.Done? ==>
              || (r.e == x && Ended(g, r.rest, least, most))
              || (Chained(r.e) && least <= LevelOf(g, r.e) && Ended(g, r.rest, least, CapOf(g, r.e)))
    decreases |t|
  {
    hide Join, Level;
    if !Ended(g, t, least, most) && Join(g, x, t).Done? {
      var j := Join(g, x, t);
      Joined(g, x, t);
      MoreEnds(g, j.e, j.rest, least, CapOf(g, j.e));
    }
  }

  predicate Ended(g: Rules, t: Text, least: int, most: int) {
    Next(g, t) < 0 || Next(g, t) < least || Next(g, t) > most
  }

  lemma ParseEnds(g: Rules, t: Text, least: int)
    ensures var r := Parse(g, t, least);
            r.Done? ==>
              || Ended(g, r.rest, least, 1000)
              || (Chained(r.e) && least <= LevelOf(g, r.e) && Ended(g, r.rest, least, CapOf(g, r.e)))
  {
    hide Operand, More, Level, Ended;
    var r := Operand(g, t);
    if r.Done? {
      MoreEnds(g, r.e, r.rest, least, 1000);
    }
  }

  // ---- the leading operand ----------------------------------------------------------------------------------

  function LeadPriority(e: Expr): int {
    if e.Binary? then Priority(e.op).1 else 100
  }

  /** What follows the left operand. */
  function AfterLead(e: Expr): Text {
    match e
    case Binary(op, _, r) => [Infix(op)] + Print(r, Priority(op).2)
    case Cond(_, y, n) => [Question] + Print(y, 101) + [Colon] + Print(n, 101)
    case Elvis(_, n) => [QuestionColon] + Print(n, 101)
    case _ => []
  }

  lemma LeadText(g: Rules, e: Expr, s: Text)
    requires Chained(e)
    ensures Body(e) + s == Print(Lead(e), LeadPriority(e)) + (AfterLead(e) + s)
    ensures Next(g, AfterLead(e) + s) == LevelOf(g, e)
  {
    hide Print, Priority, Level;
  }

  lemma LeadWhole(g: Rules, e: Expr)
    requires Fits(g, e) && Chained(e)
    ensures Fits(g, Lead(e)) && Whole(g, Lead(e), LeadPriority(e), 0, LevelOf(g, e))
    ensures LevelOf(g, e) <= CapAt(g, Lead(e), LeadPriority(e))
  {
    LevelPositive(g, e);
    hide Level, Side, Priority;
    if e.Binary? {
      LeftStops(g, e.left, e.op, 0);
    } else {
      TestStops(g, Lead(e), 0);
    }
  }

  /** The operand that a text begins with is no larger than the expression it was exported for. */
  lemma {:induction false} OperandSmall(g: Rules, e: Expr, q: int, s: Text)
    requires Fits(g, e) && (NeedsParens(e, q) || Stops(g, e, Next(g, s)))
    ensures var r := Operand(g, Print(e, q) + s); r.Done? && Size(r.e) <= Size(e)
    decreases e
  {
    hide Level, Side, Priority, Unmixed, Fits, AfterLead;
    if NeedsParens(e, q) {
      ParensOperand(g, e, s);
    } else if Chained(e) {
      LeadText(g, e, s);
      LeadWhole(g, e);
      OperandSmall(g, Lead(e), LeadPriority(e), AfterLead(e) + s);
    } else if e.Assign? {
      AssignOperand(g, e, s);
    } else if e.Prefix? {
      PrefixOperand(g, e, s);
    }
  }

  /** The left operand of e is read, and then what follows it. */
  lemma LeadRead(g: Rules, e: Expr, s: Text)
    requires Fits(g, e) && Chained(e) && Next(g, s) == LevelOf(g, e)
    ensures Parse(g, Print(Lead(e), LeadPriority(e)) + s, 0) == More(g, Lead(e), s, 0, CapAt(g, Lead(e), LeadPriority(e)))
  {
    hide Level, Side, Priority, Unmixed, Print, Parse, More;
    LeadWhole(g, e);
    PrintParses(g, Lead(e), LeadPriority(e), 0, s);
  }

  /** Read bare where levels from least on are asked for, an operator expression must have such a level. */
  lemma BareLevel(g: Rules, r: Expr, least: int, s: Text)
    requires Fits(g, r) && Chained(r) && ReadAs(Parse(g, Body(r) + s, least), r)
    ensures least <= LevelOf(g, r)
  {
    hide Level, Side, Priority, Unmixed, Print, Body, AfterLead, Operand, More;
    LeadText(g, r, s);
    LeadWhole(g, r);
    OperandSmall(g, Lead(r), LeadPriority(r), AfterLead(r) + s);
    var x := Operand(g, Body(r) + s);
    MoreEnds(g, x.e, x.rest, least, 1000);
  }

  // ---- a last operand without parentheses -------------------------------------------------------------------

  /** What the last operand is asked for. */
  function LastLeast(g: Rules, e: Expr): int {
    match e
    case Binary(op, _, _) => RightLeast(g, op)
    case Assign(_, _, _) => 90
    case Prefix(op, _) => PrefixLevel(op)
    case _ => 101
  }

  /** A last operand that needs parentheses, and not to no purpose, has too low a level. */
  lemma LastTooLow(g: Rules, e: Expr)
    requires Operands(e) != []
    ensures var k := |Operands(e)| - 1; var x := Operands(e)[k];
            NeedsParens(x.0, x.1) ==>
              if Dispensable(g, e, k) then LastLeast(g, e) <= LevelOf(g, x.0)
              else Chained(x.0) && LevelOf(g, x.0) < LastLeast(g, e)
  {
    var x := Operands(e)[|Operands(e)| - 1].0;
    hide Level, Side, Priority;
    if e.Binary? {
      PrioritiesFit(g, e.op);
      ShipLower(e.op);
    }
    if x.Binary? {
      PrioritiesFit(g, x.op);
      ShipLower(x.op);
      OrderingLevel(x.op);
    }
  }

  lemma OrderingLevel(op: BinaryOp)
    ensures Level(Grammar, op) == 180 <==> IsOrdering(op)
  {
  }

  /** Read as e, the text makes of what stands for the last operand this operand. */
  lemma LastRead(g: Rules, e: Expr, s: Text)
    requires Fits(g, e) && Operands(e) != []
    ensures var k := |Operands(e)| - 1; var x := Operands(e)[k].0;
            ReadAs(Parse(g, Bared(e, k) + s, 0), e) ==> ReadAs(Parse(g, Body(x) + s, LastLeast(g, e)), x)
  {
    hide Level, Side, Priority, Unmixed, Print, Body, Fits, OnSpine, Part;
    hide More, Operand, Next;
    match e
    case Binary(op, l, r) => LastOfBinary(g, e, s);
    case Elvis(c, n) => LastOfElvis(g, e, s);
    case Cond(c, y, n) => LastOfCond(g, e, s);
    case Assign(how, x, r) => LastOfOperand(g, e, s);
    case Prefix(op, x) => LastOfOperand(g, e, s);
    case _ =>
  }

  lemma LastOfBinary(g: Rules, e: Expr, s: Text)
    requires e.Binary? && Fits(g, e)
    ensures ReadAs(Parse(g, Bared(e, 1) + s, 0), e) ==> ReadAs(Parse(g, Body(e.right) + s, RightLeast(g, e.op)), e.right)
  {
    hide Level, Side, Priority, Unmixed, Print, Body, More, Parse, OnSpine;
    var after := [Infix(e.op)] + (Body(e.right) + s);
    assert Bared(e, 1) + s == Print(e.left, Priority(e.op).1) + after;
    assert after[1..] == Body(e.right) + s;
    LeadRead(g, e, after);
    if ReadAs(Parse(g, Bared(e, 1) + s, 0), e) {
      SpineRefl(e);
      MoreStep(g, e.left, after, 0, CapAt(g, e.left, LeadPriority(e)), e, e);
    }
  }

  lemma LastOfElvis(g: Rules, e: Expr, s: Text)
    requires e.Elvis? && Fits(g, e)
    ensures ReadAs(Parse(g, Bared(e, 1) + s, 0), e) ==> ReadAs(Parse(g, Body(e.no) + s, 101), e.no)
  {
    hide Level, Side, Priority, Unmixed, Print, Body, More, Parse, OnSpine;
    var after := [QuestionColon] + (Body(e.no) + s);
    assert Bared(e, 1) + s == Print(e.test, 100) + after;
    assert after[1..] == Body(e.no) + s;
    LeadRead(g, e, after);
    if ReadAs(Parse(g, Bared(e, 1) + s, 0), e) {
      SpineRefl(e);
      MoreStep(g, e.test, after, 0, CapAt(g, e.test, 100), e, e);
    }
  }

  lemma LastOfCond(g: Rules, e: Expr, s: Text)
    requires e.Cond? && Fits(g, e)
    ensures ReadAs(Parse(g, Bared(e, 2) + s, 0), e) ==> ReadAs(Parse(g, Body(e.no) + s, 101), e.no)
  {
    hide Level, Side, Priority, Unmixed, Print, Body, More, Parse, OnSpine;
    var last := Body(e.no) + s;
    var middle := [Colon] + last;
    var right := Print(e.yes, 101) + middle;
    var after := [Question] + right;
    assert Bared(e, 2) + s == Print(e.test, 100) + after;
    assert after[1..] == right && middle[1..] == last;
    LeadRead(g, e, after);
    OperandFits(g, e, 1);
    MiddleRead(g, e.yes, 101, middle);
    if ReadAs(Parse(g, Bared(e, 2) + s, 0), e) {
      SpineRefl(e);
      MoreStep(g, e.test, after, 0, CapAt(g, e.test, 100), e, e);
    }
  }

  lemma MiddleRead(g: Rules, y: Expr, q: int, middle: Text)
    requires Fits(g, y) && middle != [] && middle[0] == Colon
    ensures Parse(g, Print(y, q) + middle, 0) == Done(y, middle) && Parse(g, Body(y) + middle, 0) == Done(y, middle)
  {
    hide Level, Side, Priority, Unmixed, Print, Body, Parse;
    MiddleStops(g, y, q);
    PrintParses(g, y, q, 0, middle);
    LevelPositive(g, y);
    BodyParses(g, y, 0, middle);
    MoreStops(g, y, middle, 0, CapAt(g, y, q));
    MoreStops(g, y, middle, 0, CapOf(g, y));
  }

  lemma LastOfOperand(g: Rules, e: Expr, s: Text)
    requires (e.Assign? || e.Prefix?) && Fits(g, e)
    ensures var x := Operands(e)[0].0;
            ReadAs(Parse(g, Bared(e, 0) + s, 0), e) ==> ReadAs(Parse(g, Body(x) + s, LastLeast(g, e)), x)
  {
    hide Level, Side, Priority, Unmixed, Print, Body, More;
    var t, x := Bared(e, 0) + s, Operands(e)[0].0;
    if e.Assign? {
      assert t == [Name(e.name), Becomes(e.how)] + (Body(x) + s);
      assert t[2..] == Body(x) + s;
      assert Operand(g, t) == Assigned(g, e.name, e.how, Body(x) + s);
    } else {
      assert t == [PrefixToken(e.pre)] + (Body(x) + s);
      assert t[1..] == Body(x) + s;
      assert Operand(g, t) == UnderPrefix(g, e.pre, Body(x) + s);
    }
    if ReadAs(Parse(g, t, 0), e) {
      var r := Operand(g, t);
      MoreSpine(g, r.e, r.rest, 0, 1000);
      assert r.e == e;
    }
  }

  lemma LastNeeded(g: Rules, e: Expr, s: Text)
    requires Fits(g, e) && Operands(e) != []
    ensures var k := |Operands(e)| - 1; var x := Operands(e)[k];
            NeedsParens(x.0, x.1) && !Dispensable(g, e, k) ==> !ReadAs(Parse(g, Bared(e, k) + s, 0), e)
  {
    var k := |Operands(e)| - 1;
    var x := Operands(e)[k];
    OperandFits(g, e, k);
    hide Level, Side, Priority, Unmixed, Print, Body, More, Parse, Operands, Bared, Dispensable, Fits, Top;
    LastTooLow(g, e);
    LastRead(g, e, s);
    if ReadAs(Parse(g, Bared(e, k) + s, 0), e) && Chained(x.0) {
      BareLevel(g, x.0, LastLeast(g, e), s);
    }
  }

  lemma OperandFits(g: Rules, e: Expr, k: nat)
    requires Fits(g, e) && k < |Operands(e)|
    ensures Fits(g, Operands(e)[k].0)
  {
  }

  // ---- a left operand without parentheses -------------------------------------------------------------------

  lemma LeftText(g: Rules, e: Expr, s: Text)
    requires Chained(e)
    ensures Bared(e, 0) + s == Body(Lead(e)) + (AfterLead(e) + s) && Next(g, AfterLead(e) + s) == LevelOf(g, e)
    ensures Operands(e)[0] == (Lead(e), LeadPriority(e)) && |Operands(e)| > 1
  {
    hide Print, Body, Priority, Level;
  }

  /** A left operand that needs parentheses ends in a chain too high for the operator, or would have taken it. */
  lemma LeftTooLow(g: Rules, e: Expr)
    requires Chained(e) && NeedsParens(Lead(e), LeadPriority(e)) && !Dispensable(g, e, 0) && Chained(Lead(e))
    ensures var l, n := Lead(e), LevelOf(g, e);
            0 <= n <= 250 && (n <= CapOf(g, l) ==> l.Binary? && RightLeast(g, l.op) <= n && Takes(g, n))
  {
    var l, n := Lead(e), LevelOf(g, e);
    hide Level, Side, Priority, Takes;
    if e.Binary? {
      PrioritiesFit(g, e.op);
      ShipLower(e.op);
    }
    if l.Binary? {
      PrioritiesFit(g, l.op);
      ShipLower(l.op);
      OrderingLevel(l.op);
      if e.Binary? && Level(g, e.op) == Level(g, l.op) {
        SameSide(g, e.op, l.op);
        RightTakes(g, e.op);
      }
    }
  }

  /** No chain of at least this level ends before it. */
  ghost predicate Takes(g: Rules, n: int) {
    forall y | Chained(y) && n <= LevelOf(g, y) :: n <= CapOf(g, y)
  }

  lemma RightTakes(g: Rules, op: BinaryOp)
    ensures Side(op) == RightAssoc ==> Takes(g, Level(g, op))
  {
    hide Level, Side;
    forall y | Chained(y) && Side(op) == RightAssoc && Level(g, op) <= LevelOf(g, y) ensures Level(g, op) <= CapOf(g, y) {
      PrioritiesFit(g, op);
      if y.Binary? && Level(g, op) == Level(g, y.op) {
        SameSide(g, op, y.op);
      }
    }
  }

  lemma LeftOperandLevel(g: Rules, e: Expr)
    requires Chained(e) && NeedsParens(Lead(e), LeadPriority(e)) && !Dispensable(g, e, 0)
    ensures Lead(e).Assign? ==> 90 < LevelOf(g, e)
    ensures Lead(e).Prefix? ==> LevelOf(g, e) == 250
    ensures LevelOf(g, e) <= 250
  {
    hide Level, Side, Priority;
    if e.Binary? {
      PrioritiesFit(g, e.op);
      ShipLower(e.op);
    }
  }

  /** An operator expression: its last operand would have taken the operator of e. */
  lemma LeftChained(g: Rules, e: Expr, tail: Text)
    requires Fits(g, e) && Chained(e) && Chained(Lead(e)) && Next(g, tail) == LevelOf(g, e)
    requires NeedsParens(Lead(e), LeadPriority(e)) && !Dispensable(g, e, 0)
    ensures !ReadAs(Parse(g, Body(Lead(e)) + tail, 0), e)
  {
    hide Level, Side, Priority, Unmixed, Print, Body, More, Parse, Dispensable, OnSpine, AfterLead;
    var l := Lead(e);
    var after := AfterLead(l) + tail;
    LeadText(g, l, tail);
    LeadWhole(g, e);
    LeadRead(g, l, after);
    LeftTooLow(g, e);
    if ReadAs(Parse(g, Body(l) + tail, 0), e) {
      LeadOnSpine(e);
      MoreStep(g, Lead(l), after, 0, CapAt(g, Lead(l), LeadPriority(l)), e, l);
      var j := Join(g, Lead(l), after);
      MoreStep(g, l, j.rest, 0, CapOf(g, l), e, e);
      JoinEnds(g, l, after);
    }
  }

  lemma LeadOnSpine(e: Expr)
    requires Chained(e)
    ensures OnSpine(e, e) && OnSpine(Lead(e), e)
  {
    assert OnSpine(Lead(e), Lead(e));
  }

  /** What is left over when a binary operator has been read. */
  lemma JoinEnds(g: Rules, l: Expr, t: Text)
    requires l.Binary? && ReadAs(Join(g, l.left, t), l)
    ensures var rest, least := Join(g, l.left, t).rest, RightLeast(g, l.op);
            || Ended(g, rest, least, 1000)
            || (Chained(l.right) && least <= LevelOf(g, l.right) && Ended(g, rest, least, CapOf(g, l.right)))
  {
    hide Level, Side, Parse, Ended;
    ParseEnds(g, t[1..], RightLeast(g, l.op));
  }

  /** A prefix operator or an assignment: its operand would have taken the operator of e. */
  lemma LeftOperand(g: Rules, e: Expr, tail: Text)
    requires Fits(g, e) && Chained(e) && (Lead(e).Prefix? || Lead(e).Assign?) && Next(g, tail) == LevelOf(g, e)
    requires NeedsParens(Lead(e), LeadPriority(e)) && !Dispensable(g, e, 0)
    ensures !ReadAs(Parse(g, Body(Lead(e)) + tail, 0), e)
  {
    hide Level, Side, Priority, Unmixed, Print, Body, More, Dispensable, Ended, Next;
    var l := Lead(e);
    var t := Body(l) + tail;
    LeftOperandLevel(g, e);
    OperandRead(g, l, tail);
    if ReadAs(Parse(g, t, 0), e) {
      var r := Operand(g, t);
      MoreSpine(g, r.e, r.rest, 0, 1000);
      assert OnSpine(r.e, l);
      LeadOnSpine(e);
      MoreStep(g, l, r.rest, 0, 1000, e, e);
    }
  }

  /** What may be left over when an assignment or a prefix operator has been read. */
  lemma OperandRead(g: Rules, l: Expr, tail: Text)
    requires l.Prefix? || l.Assign?
    ensures var r := Operand(g, Body(l) + tail);
            r.Done? ==> (if l.Prefix? then r.e.Prefix? else r.e.Assign?) && (r.e == l ==>
              if l.Prefix? then Next(g, r.rest) != 250 else Next(g, r.rest) <= 90)
  {
    hide Level, Side, Priority, Unmixed, Print, More;
    var t := Body(l) + tail;
    if l.Prefix? {
      var right := Print(l.arg, 241) + tail;
      assert t == [PrefixToken(l.pre)] + right;
      assert t[1..] == right;
      hide Body;
      assert Operand(g, t) == UnderPrefix(g, l.pre, right);
      ParseEnds(g, right, PrefixLevel(l.pre));
      PrefixCap(g, l.arg, l.pre);
    } else {
      var right := Print(l.source, 90) + tail;
      assert t == [Name(l.name), Becomes(l.how)] + right;
      assert t[2..] == right;
      hide Body;
      assert Operand(g, t) == Assigned(g, l.name, l.how, right);
    }
  }

  lemma PrefixCap(g: Rules, x: Expr, pre: PrefixOp)
    ensures Chained(x) && PrefixLevel(pre) <= LevelOf(g, x) ==> CapOf(g, x) == 250
  {
    if x.Binary? {
      PrioritiesFit(g, x.op);
    }
  }

  lemma LeftNeeded(g: Rules, e: Expr, s: Text)
    requires Fits(g, e) && Chained(e) && NeedsParens(Lead(e), LeadPriority(e)) && !Dispensable(g, e, 0)
    ensures !ReadAs(Parse(g, Bared(e, 0) + s, 0), e)
  {
    hide Level, Side, Priority, Unmixed, Print, Body, More, Parse, Dispensable, Operands, Bared, AfterLead, Fits;
    LeftText(g, e, s);
    if Chained(Lead(e)) {
      LeftChained(g, e, AfterLead(e) + s);
    } else {
      LeftOperand(g, e, AfterLead(e) + s);
    }
  }

  // ---- parentheses to no purpose ----------------------------------------------------------------------------

  /** A last operand with a level that is asked for is read without parentheses. */
  lemma LastSpared(g: Rules, e: Expr)
    requires Fits(g, e) && Operands(e) != []
    requires LastLeast(g, e) <= LevelOf(g, Operands(e)[|Operands(e)| - 1].0)
    ensures Parse(g, Bared(e, |Operands(e)| - 1), 0) == Done(e, [])
  {
    var k := |Operands(e)| - 1;
    var x, least := Operands(e)[k].0, LastLeast(g, e);
    OperandFits(g, e, k);
    assert Body(x) + [] == Body(x);
    hide Level, Side, Priority, Unmixed, Print, Body, More;
    BodyParses(g, x, least, []);
    MoreStops(g, x, [], least, CapOf(g, x));
    assert Parse(g, Body(x), least) == Done(x, []);
    if Chained(e) {
      hide Parse;
      LastSparedChain(g, e);
    } else {
      var t := Bared(e, k);
      if e.Assign? {
        assert t == [Name(e.name), Becomes(e.how)] + Body(x);
        assert t[2..] == Body(x);
        assert Operand(g, t) == Assigned(g, e.name, e.how, Body(x));
      } else {
        assert t == [PrefixToken(e.pre)] + Body(x);
        assert t[1..] == Body(x);
        assert Operand(g, t) == UnderPrefix(g, e.pre, Body(x));
      }
      MoreStops(g, e, [], 0, 1000);
    }
  }

  /** The text from the operator on, with the last operand bare. */
  function BareTail(e: Expr): Text {
    match e
    case Binary(op, _, r) => [Infix(op)] + Body(r)
    case Cond(_, y, n) => [Question] + (Print(y, 101) + ([Colon] + Body(n)))
    case Elvis(_, n) => [QuestionColon] + Body(n)
    case _ => []
  }

  lemma BareTailText(g: Rules, e: Expr)
    requires Chained(e)
    ensures Bared(e, |Operands(e)| - 1) == Print(Lead(e), LeadPriority(e)) + BareTail(e)
    ensures Next(g, BareTail(e)) == LevelOf(g, e)
  {
    hide Print, Body, Priority, Level;
  }

  lemma BareTailJoined(g: Rules, e: Expr)
    requires Fits(g, e) && Chained(e)
    requires var x := Operands(e)[|Operands(e)| - 1].0; Parse(g, Body(x), LastLeast(g, e)) == Done(x, [])
    ensures Join(g, Lead(e), BareTail(e)) == Done(e, [])
  {
    hide Level, Side, Priority, Unmixed, Print, Body, Parse;
    var after, last := BareTail(e), Body(Operands(e)[|Operands(e)| - 1].0);
    if e.Cond? {
      OperandFits(g, e, 1);
      MiddleRead(g, e.yes, 101, [Colon] + last);
      assert after[1..] == Print(e.yes, 101) + ([Colon] + last) && ([Colon] + last)[1..] == last;
    } else {
      assert after[1..] == last;
    }
  }

  lemma LastSparedChain(g: Rules, e: Expr)
    requires Fits(g, e) && Chained(e)
    requires var x := Operands(e)[|Operands(e)| - 1].0; Parse(g, Body(x), LastLeast(g, e)) == Done(x, [])
    ensures Parse(g, Bared(e, |Operands(e)| - 1), 0) == Done(e, [])
  {
    hide Level, Side, Priority, Unmixed, Print, Body, Parse, Bared, BareTail, Join, More, Fits;
    BareTailText(g, e);
    BareTailJoined(g, e);
    LeadRead(g, e, BareTail(e));
    SparedJoin(g, e, BareTail(e));
  }

  /** With its operator and last operand joined to the left one, e is read. */
  lemma SparedJoin(g: Rules, e: Expr, after: Text)
    requires Fits(g, e) && Chained(e) && Join(g, Lead(e), after) == Done(e, []) && Next(g, after) == LevelOf(g, e)
    ensures More(g, Lead(e), after, 0, CapAt(g, Lead(e), LeadPriority(e))) == Done(e, [])
  {
    hide Level, Side, Priority, Unmixed, Join;
    LeadWhole(g, e);
    LevelPositive(g, e);
    MoreStops(g, e, [], 0, CapOf(g, e));
  }

  lemma MiddleSpared(g: Rules, e: Expr)
    requires Fits(g, e) && e.Cond?
    ensures Parse(g, Bared(e, 1), 0) == Done(e, [])
  {
    hide Level, Side, Priority, Unmixed, Print, Body, Parse;
    var last := Print(e.no, 101);
    var middle := [Colon] + last;
    var after := [Question] + (Body(e.yes) + middle);
    assert Bared(e, 1) == Print(e.test, 100) + after;
    assert after[1..] == Body(e.yes) + middle && middle[1..] == last && last + [] == last;
    OperandFits(g, e, 1);
    OperandFits(g, e, 2);
    MiddleRead(g, e.yes, 101, middle);
    TailStops(g, e.no, 101, -1);
    PrintParses(g, e.no, 101, 101, []);
    MoreStops(g, e.no, [], 101, CapAt(g, e.no, 101));
    LeadRead(g, e, after);
    SparedJoin(g, e, after);
  }

  /** By the grammar a comparison on the left of <=> stands by itself. */
  lemma OrderingSpared(e: Expr)
    requires Fits(Grammar, e) && IsShip(e) && e.left.Binary? && IsOrdering(e.left.op)
    ensures Parse(Grammar, Bared(e, 0), 0) == Done(e, [])
  {
    hide Level, Side, Unmixed, Print, Body, Parse;
    var last := Print(e.right, 181);
    var after := [Infix(Spaceship)] + last;
    ShipLower(e.left.op);
    OrderingLevel(e.left.op);
    assert Bared(e, 0) == Body(e.left) + after;
    assert after[1..] == last && last + [] == last;
    OperandFits(Grammar, e, 0);
    OperandFits(Grammar, e, 1);
    BodyParses(Grammar, e.left, 0, after);
    RightStops(Grammar, e.right, Spaceship, -1);
    PrintParses(Grammar, e.right, 181, 171, []);
    MoreStops(Grammar, e.right, [], 171, CapAt(Grammar, e.right, 181));
    MoreStops(Grammar, e, [], 0, CapOf(Grammar, e));
  }

  // ---- the result -------------------------------------------------------------------------------------------

  /** The parentheses are needed: without them the text is not read as e, whatever follows. */
  lemma Needed(g: Rules, e: Expr, k: nat, s: Text)
    requires Fits(g, e) && k < |Operands(e)| && NeedsParens(Operands(e)[k].0, Operands(e)[k].1) && !Dispensable(g, e, k)
    ensures !ReadAs(Parse(g, Bared(e, k) + s, 0), e)
  {
    hide Level, Side, Priority, Unmixed, Print, Body, More, Parse, Bared, Fits;
    if k == |Operands(e)| - 1 {
      LastNeeded(g, e, s);
    } else {
      assert k == 0 && Chained(e);
      LeftNeeded(g, e, s);
    }
  }

  lemma Spared(g: Rules, e: Expr, k: nat)
    requires Fits(g, e) && k < |Operands(e)| && NeedsParens(Operands(e)[k].0, Operands(e)[k].1) && Dispensable(g, e, k)
    ensures Parse(g, Bared(e, k), 0) == Done(e, [])
  {
    hide Level, Side, Priority, Unmixed, Print, Body, Parse, Bared, Fits;
    if k == |Operands(e)| - 1 {
      LastTooLow(g, e);
      LastSpared(g, e);
    } else if e.Cond? && k == 1 {
      MiddleSpared(g, e);
    } else {
      OrderingSpared(e);
    }
  }

  /**
   * Every pair of parentheses that an expression gets around an operand, but for the dispensable
   * ones, is needed, and they are not: without the pair the text reads back if and only if the pair
   * is dispensable.
   */
  lemma FewestParens(g: Rules, e: Expr, k: nat)
    requires g.Table? || Unmixed(e)
    requires k < |Operands(e)| && NeedsParens(Operands(e)[k].0, Operands(e)[k].1)
    ensures Parse(g, Bared(e, k), 0) == Done(e, []) <==> Dispensable(g, e, k)
  {
    hide Level, Side, Priority, Unmixed, Print, Body, Parse, Bared, Operands, Dispensable, NeedsParens;
    if Dispensable(g, e, k) {
      Spared(g, e, k);
    } else {
      assert Bared(e, k) + [] == Bared(e, k);
      Needed(g, e, k, []);
    }
  }

  /** The whole gets none, and neither does a chain of operators of one level on its own side. */
  lemma NoneOnOwnSide(e: Expr)
    ensures Print(e, 0) == Body(e)
    ensures e.Binary? && e.left.Binary? && Level(Table, e.left.op) == Level(Table, e.op) && Side(e.op) == LeftAssoc ==>
              Body(e) == Body(e.left) + [Infix(e.op)] + Print(e.right, Priority(e.op).2)
    ensures e.Binary? && e.right.Binary? && Level(Table, e.right.op) == Level(Table, e.op) && Side(e.op) == RightAssoc ==>
              Body(e) == Print(e.left, Priority(e.op).1) + [Infix(e.op)] + Body(e.right)
  {
    LevelPositive(Table, e);
    hide Level, Side, Priority;
    if e.Binary? {
      PrioritiesFit(Table, e.op);
      if e.left.Binary? {
        PrioritiesFit(Table, e.left.op);
      }
      if e.right.Binary? {
        PrioritiesFit(Table, e.right.op);
      }
    }
  }
}
