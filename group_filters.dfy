/** Parentheses and "not (...)" override precedence: a group of two
    presence tests, before or after a third test. */
module GroupFilters {
  import opened Common
  import opened Filters
  import opened ParserSpec
  import opened FilterSteps

  /** How a group opens: "(" or "not (". */
  predicate Opening(open: string) {
    open == "(" || open == "not ("
  }

  /** The operator a group's opening pushes. */
  function Opener(open: string): (o: string)
    requires Opening(open)
    ensures OpensGroup(o)
  {
    if open == "(" then "(" else assert EqualsIgnoreCase("not", "not"); "not"
  }

  /** The filter a group of x op y denotes. */
  function Grouped(open: string, op: string, x: Filter, y: Filter): Filter {
    if open == "(" then Combine(op, [x, y]) else Not(Combine(op, [x, y]))
  }

  /** open, "a pr op b pr)", then rest. */
  function GroupThen(open: string, a: string, op: string, b: string, rest: string): string {
    open + (a + (" pr " + (op + (" " + (b + (" pr" + (")" + rest)))))))
  }

  predicate Connective(op: string) {
    op == "and" || op == "or"
  }

  /** The opening of a group. */
  lemma OpeningThen(s: string, p: int, q: int, open: string, rest: string,
                    out: seq<Filter>, ops: seq<string>, prev: Option<string>, lit: bool)
    requires 0 <= p && q == p + |open| && Opening(open) && ExpectsNewFilter(prev)
    requires At(s, p, open + rest)
    ensures At(s, q, rest)
    ensures FilterLoop(s, p, false, lit, out, ops, prev)
            == FilterLoop(s, q, false, lit, out, ops + [Opener(open)], Some(Opener(open)))
  {
    if open == "(" {
      OpenThen(s, p, q, rest, out, ops, prev, lit);
    } else {
      NotThen(s, p, q, rest, out, ops, prev, lit);
    }
  }

  /** "and " or "or " right after a filter, with no "and" on top of the
      operator stack. */
  lemma ConnectiveThen(s: string, p: int, q: int, op: string, rest: string,
                       out: seq<Filter>, ops: seq<string>, prev: Option<string>, lit: bool)
    requires 0 <= p && q == p + |op| + 1 && Connective(op) && !ExpectsNewFilter(prev)
    requires At(s, p, op + (" " + rest))
    requires ops == [] || !EqualsIgnoreCase(Last(ops), "and")
    ensures At(s, q, rest)
    ensures FilterLoop(s, p, false, lit, out, ops, prev)
            == FilterLoop(s, q, false, lit, out, ops + [op], Some(op))
  {
    var e: string := [];
    assert e + (op + (" " + rest)) == op + (" " + rest);
    if op == "and" {
      assert "and" + (" " + rest) == "and " + rest;
      AndThen(s, p, q, e, rest, out, ops, prev, lit);
    } else {
      assert "or" + (" " + rest) == "or " + rest;
      DrainNone(out, ops, lit);
      OrThen(s, p, q, e, rest, out, ops, prev, out, ops, lit);
    }
  }

  /** ")" closes the group of two operands opened by o. */
  lemma CloseGroupOf2(c: Cur, open: string, op: string, x: Filter, y: Filter,
                      out: seq<Filter>, ops: seq<string>, lit: bool)
    requires Opening(open) && Connective(op)
    ensures Close(c, ")", (out + [x]) + [y], (ops + [Opener(open)]) + [op], lit)
            == Continue(c, out + [Grouped(open, op, x, y)], ops, Some(")"))
  {
    var o := Opener(open);
    var os := (ops + [o]) + [op];
    var xs := (out + [x]) + [y];
    assert !OpensGroup(op) by {
      assert LowerChar(op[0]) != LowerChar("not"[0]);
    }
    assert Last(os) == op && Init(os) == ops + [o];
    assert Last(xs) == y && Init(xs) == out + [x] && [y] + [] == [y];
    assert CloseGroupingLoop(os, xs, false, None, None, [])
           == CloseGroupingLoop(ops + [o], out + [x], false, Some(op), Some(op), [y]);
    assert Last(ops + [o]) == o && Init(ops + [o]) == ops;
    assert Last(out + [x]) == x && Init(out + [x]) == out && [x] + [y] == [x, y];
    var g := Combine(op, [x, y]);
    assert CloseGrouping(os, xs, false) == Ok(Grouping(Some(o), ops, out + [g]));
    if open != "(" {
      assert EqualsIgnoreCase(o, "not");
      assert Last(out + [g]) == g && Init(out + [g]) == out;
    } else {
      assert !EqualsIgnoreCase("(", "not");
    }
  }

  /** A group of two presence tests. */
  lemma GroupOf2(s: string, p: int, q: int, open: string, a: string, op: string, b: string,
                 rest: string, out: seq<Filter>, ops: seq<string>, prev: Option<string>, lit: bool)
    requires 0 <= p && q == p + |open| + |a| + |op| + |b| + 9
    requires Opening(open) && Connective(op) && AttrName(a) && AttrName(b)
    requires ExpectsNewFilter(prev) && At(s, p, GroupThen(open, a, op, b, rest))
    ensures At(s, q, rest)
    ensures FilterLoop(s, p, false, lit, out, ops, prev)
            == FilterLoop(s, q, false, lit, out + [Grouped(open, op, Pr(a), Pr(b))], ops, Some(")"))
  {
    var m := p + |open|;
    OpeningThen(s, p, m, open, a + (" pr " + (op + (" " + (b + (" pr" + (")" + rest)))))),
                out, ops, prev, lit);
    GroupBody(s, m, q, open, a, op, b, rest, out, ops, lit);
  }

  /** The group after its opening. */
  lemma GroupBody(s: string, p: int, q: int, open: string, a: string, op: string, b: string,
                  rest: string, out: seq<Filter>, ops: seq<string>, lit: bool)
    requires 0 <= p && q == p + |a| + |op| + |b| + 9
    requires Opening(open) && Connective(op) && AttrName(a) && AttrName(b)
    requires At(s, p, a + (" pr " + (op + (" " + (b + (" pr" + (")" + rest)))))))
    ensures At(s, q, rest)
    ensures FilterLoop(s, p, false, lit, out, ops + [Opener(open)], Some(Opener(open)))
            == FilterLoop(s, q, false, lit, out + [Grouped(open, op, Pr(a), Pr(b))], ops, Some(")"))
  {
    var m := p + |a| + |op| + 5;
    FirstOperand(s, p, m, Opener(open), a, op, b + (" pr" + (")" + rest)), out, ops + [Opener(open)], lit);
    SecondOperand(s, m, q, open, a, op, b, rest, out, ops, lit);
  }

  /** "a pr op " inside a group opened by o. */
  lemma FirstOperand(s: string, p: int, q: int, o: string, a: string, op: string, rest: string,
                     out: seq<Filter>, ops: seq<string>, lit: bool)
    requires 0 <= p && q == p + |a| + |op| + 5 && OpensGroup(o) && Connective(op) && AttrName(a)
    requires ops != [] && Last(ops) == o
    requires At(s, p, a + (" pr " + (op + (" " + rest))))
    ensures At(s, q, rest)
    ensures FilterLoop(s, p, false, lit, out, ops, Some(o))
            == FilterLoop(s, q, false, lit, out + [Pr(a)], ops + [op], Some(op))
  {
    var m := p + |a| + 4;
    assert ExpectsNewFilter(Some(o));
    PresentThen(s, p, m, a, op + (" " + rest), out, ops, Some(o), lit);
    NameEndsFilter(a);
    assert !EqualsIgnoreCase(o, "and") by {
      assert LowerChar("and"[0]) != LowerChar("not"[0]);
    }
    ConnectiveThen(s, m, q, op, rest, out + [Pr(a)], ops, Some(a), lit);
  }

  /** "b pr)" closes the group around a op b. */
  lemma SecondOperand(s: string, p: int, q: int, open: string, a: string, op: string, b: string,
                      rest: string, out: seq<Filter>, ops: seq<string>, lit: bool)
    requires 0 <= p && q == p + |b| + 4 && Opening(open) && Connective(op) && AttrName(b)
    requires At(s, p, b + (" pr" + (")" + rest)))
    ensures At(s, q, rest)
    ensures FilterLoop(s, p, false, lit, out + [Pr(a)], (ops + [Opener(open)]) + [op], Some(op))
            == FilterLoop(s, q, false, lit, out + [Grouped(open, op, Pr(a), Pr(b))], ops, Some(")"))
  {
    var m := p + |b| + 3;
    assert ExpectsNewFilter(Some(op)) by { assert EqualsIgnoreCase(op, op); }
    PresentBeforeClose(s, p, m, b, rest, out + [Pr(a)], (ops + [Opener(open)]) + [op], Some(op), lit);
    NameEndsFilter(b);
    CloseGroupOf2(Cur(q, m), open, op, Pr(a), Pr(b), out, ops, lit);
    CloseThen(s, m, q, rest, (out + [Pr(a)]) + [Pr(b)], (ops + [Opener(open)]) + [op], Some(b),
              out + [Grouped(open, op, Pr(a), Pr(b))], ops, lit);
  }

  /** "not (c pr)": a negated presence test. */
  lemma NotPresent(s: string, p: int, q: int, c: string, rest: string,
                   out: seq<Filter>, ops: seq<string>, prev: Option<string>, lit: bool)
    requires 0 <= p && q == p + |c| + 9 && AttrName(c) && ExpectsNewFilter(prev)
    requires At(s, p, "not (" + (c + (" pr" + (")" + rest))))
    ensures At(s, q, rest)
    ensures FilterLoop(s, p, false, lit, out, ops, prev)
            == FilterLoop(s, q, false, lit, out + [Not(Pr(c))], ops, Some(")"))
  {
    var m1 := p + 5;
    var m2 := m1 + |c| + 3;
    NotThen(s, p, m1, c + (" pr" + (")" + rest)), out, ops, prev, lit);
    assert ExpectsNewFilter(Some("not")) by { assert EqualsIgnoreCase("not", "not"); }
    PresentBeforeClose(s, m1, m2, c, rest, out, ops + ["not"], Some("not"), lit);
    NameEndsFilter(c);
    CloseNot(Cur(q, m2), Pr(c), out, ops, lit);
    CloseThen(s, m2, q, rest, out + [Pr(c)], ops + ["not"], Some(c), out + [Not(Pr(c))], ops, lit);
  }

  /** ")" closes "not (" around a single operand. */
  lemma CloseNot(c: Cur, x: Filter, out: seq<Filter>, ops: seq<string>, lit: bool)
    ensures Close(c, ")", out + [x], ops + ["not"], lit)
            == Continue(c, out + [Not(x)], ops, Some(")"))
  {
    assert OpensGroup("not") && EqualsIgnoreCase("not", "not");
    assert Last(ops + ["not"]) == "not" && Init(ops + ["not"]) == ops;
    assert CloseGrouping(ops + ["not"], out + [x], false) == Ok(Grouping(Some("not"), ops, out + [x]));
    assert Last(out + [x]) == x && Init(out + [x]) == out;
  }

  /** "a pr op1 b pr " at the start of the text. */
  lemma LeadingPair(s: string, q: int, a: string, op1: string, b: string, rest: string, lit: bool)
    requires q == |a| + |op1| + |b| + 9 && Connective(op1) && AttrName(a) && AttrName(b)
    requires At(s, 0, a + (" pr " + (op1 + (" " + (b + (" pr " + rest))))))
    ensures At(s, q, rest)
    ensures FilterLoop(s, 0, false, lit, [], [], None)
            == FilterLoop(s, q, false, lit, [Pr(a), Pr(b)], [op1], Some(b))
  {
    var m1 := |a| + 4;
    var m2 := m1 + |op1| + 1;
    var e1: seq<Filter> := [];
    var e2: seq<string> := [];
    PresentThen(s, 0, m1, a, op1 + (" " + (b + (" pr " + rest))), e1, e2, None, lit);
    NameEndsFilter(a);
    ConnectiveThen(s, m1, m2, op1, b + (" pr " + rest), e1 + [Pr(a)], e2, Some(a), lit);
    assert ExpectsNewFilter(Some(op1)) by { assert EqualsIgnoreCase(op1, op1); }
    PresentThen(s, m2, q, b, rest, e1 + [Pr(a)], e2 + [op1], Some(op1), lit);
    assert (e1 + [Pr(a)]) + [Pr(b)] == [Pr(a), Pr(b)] && e2 + [op1] == [op1];
  }

  /** A group, then a connective and a presence test. */
  lemma GroupFirstText(open: string, a: string, op: string, b: string, op2: string, c: string)
    requires Opening(open) && |a| > 0
    ensures var s := open + a + " pr " + op + " " + b + " pr) " + op2 + " " + c + " pr";
      && s == GroupThen(open, a, op, b, " " + (op2 + (" " + (c + " pr"))))
      && |s| == |open| + |a| + |op| + |b| + 9 + 1 + |op2| + 1 + |c| + 3
      && s[0] > ' ' && s[|s| - 1] > ' '
  {
    var s := open + a + " pr " + op + " " + b + " pr) " + op2 + " " + c + " pr";
    assert s == GroupThen(open, a, op, b, " " + (op2 + (" " + (c + " pr"))));
    assert s[0] == open[0];
    assert s[|s| - 1] == 'r';
  }

  /** A presence test, a connective and a group. */
  lemma GroupLastText(a: string, op2: string, open: string, b: string, op: string, c: string)
    requires Opening(open) && AttrName(a)
    ensures var s := a + " pr " + op2 + " " + open + b + " pr " + op + " " + c + " pr)";
      && s == a + (" pr " + (op2 + (" " + GroupThen(open, b, op, c, ""))))
      && |s| == |a| + 4 + |op2| + 1 + |open| + |b| + |op| + |c| + 9
      && s[0] > ' ' && s[|s| - 1] > ' '
  {
    var s := a + " pr " + op2 + " " + open + b + " pr " + op + " " + c + " pr)";
    var e: string := [];
    assert (c + (" pr" + (")" + e))) == c + " pr)";
    assert s == a + (" pr " + (op2 + (" " + GroupThen(open, b, op, c, ""))));
    assert s[0] == a[0];
    assert s[|s| - 1] == ')';
  }

  /** A group is one operand: parenthesised or negated, "(a pr op b pr)"
      binds its two presence tests before the connective that follows. */
  lemma GroupFirst(open: string, a: string, op: string, b: string, op2: string, c: string, lit: bool)
    requires Opening(open) && Connective(op) && Connective(op2)
    requires AttrName(a) && AttrName(b) && AttrName(c)
    ensures ParseFilterSpec(open + a + " pr " + op + " " + b + " pr) " + op2 + " " + c + " pr", lit)
            == Ok(Combine(op2, [Grouped(open, op, Pr(a), Pr(b)), Pr(c)]))
  {
    var s := open + a + " pr " + op + " " + b + " pr) " + op2 + " " + c + " pr";
    GroupFirstText(open, a, op, b, op2, c);
    AtWhole(s);
    GroupFirstReads(s, open, a, op, b, op2, c, lit);
    ParsesFrom(s, Combine(op2, [Grouped(open, op, Pr(a), Pr(b)), Pr(c)]), lit);
  }

  /** The reader's loop on the text of GroupFirst. */
  lemma GroupFirstReads(s: string, open: string, a: string, op: string, b: string, op2: string,
                        c: string, lit: bool)
    requires Opening(open) && Connective(op) && Connective(op2)
    requires AttrName(a) && AttrName(b) && AttrName(c)
    requires At(s, 0, GroupThen(open, a, op, b, " " + (op2 + (" " + (c + " pr")))))
    requires |s| == |open| + |a| + |op| + |b| + 9 + 1 + |op2| + 1 + |c| + 3
    ensures FilterLoop(s, 0, false, lit, [], [], None)
            == Ok(Parsed(Combine(op2, [Grouped(open, op, Pr(a), Pr(b)), Pr(c)]), Cur(|s|, |s|)))
  {
    var g := Grouped(open, op, Pr(a), Pr(b));
    var q1 := |open| + |a| + |op| + |b| + 9;
    var q2 := q1 + 1 + |op2| + 1;
    var e1: seq<Filter> := [];
    var e2: seq<string> := [];
    GroupOf2(s, 0, q1, open, a, op, b, " " + (op2 + (" " + (c + " pr"))), e1, e2, None, lit);
    SpacedConnective(s, q1, q2, op2, c + " pr", e1 + [g], e2, Some(")"), lit);
    assert ExpectsNewFilter(Some(op2)) by { assert EqualsIgnoreCase(op2, op2); }
    PresentLast(s, q2, c, e1 + [g], e2 + [op2], Some(op2), lit);
    FinishPairAfter(Cur(|s|, |s|), op2, e1, e2, g, Pr(c));
  }

  /** FinishPair on stacks built from empty ones. */
  lemma FinishPairAfter(cur: Cur, op: string, e1: seq<Filter>, e2: seq<string>, x: Filter, y: Filter)
    requires Connective(op) && e1 == [] && e2 == []
    ensures FinishFilter(cur, (e1 + [x]) + [y], e2 + [op]) == Ok(Parsed(Combine(op, [x, y]), cur))
  {
    assert (e1 + [x]) + [y] == [x, y] && e2 + [op] == [op];
    assert !OpensGroup(op) by { assert LowerChar(op[0]) != LowerChar("not"[0]); }
    FinishPair(cur, op, x, y);
  }

  /** A group after a connective is that connective's second operand. */
  lemma GroupLast(a: string, op2: string, open: string, b: string, op: string, c: string, lit: bool)
    requires Opening(open) && Connective(op) && Connective(op2)
    requires AttrName(a) && AttrName(b) && AttrName(c)
    ensures ParseFilterSpec(a + " pr " + op2 + " " + open + b + " pr " + op + " " + c + " pr)", lit)
            == Ok(Combine(op2, [Pr(a), Grouped(open, op, Pr(b), Pr(c))]))
  {
    var s := a + " pr " + op2 + " " + open + b + " pr " + op + " " + c + " pr)";
    GroupLastText(a, op2, open, b, op, c);
    AtWhole(s);
    GroupLastReads(s, a, op2, open, b, op, c, lit);
    ParsesFrom(s, Combine(op2, [Pr(a), Grouped(open, op, Pr(b), Pr(c))]), lit);
  }

  /** The reader's loop on the text of GroupLast. */
  lemma GroupLastReads(s: string, a: string, op2: string, open: string, b: string, op: string,
                       c: string, lit: bool)
    requires Opening(open) && Connective(op) && Connective(op2)
    requires AttrName(a) && AttrName(b) && AttrName(c)
    requires At(s, 0, a + (" pr " + (op2 + (" " + GroupThen(open, b, op, c, "")))))
    requires |s| == |a| + 4 + |op2| + 1 + |open| + |b| + |op| + |c| + 9
    ensures FilterLoop(s, 0, false, lit, [], [], None)
            == Ok(Parsed(Combine(op2, [Pr(a), Grouped(open, op, Pr(b), Pr(c))]), Cur(|s|, |s|)))
  {
    var g := Grouped(open, op, Pr(b), Pr(c));
    var m1 := |a| + 4;
    var m2 := m1 + |op2| + 1;
    var e1: seq<Filter> := [];
    var e2: seq<string> := [];
    PresentThen(s, 0, m1, a, op2 + (" " + GroupThen(open, b, op, c, "")), e1, e2, None, lit);
    NameEndsFilter(a);
    ConnectiveThen(s, m1, m2, op2, GroupThen(open, b, op, c, ""), e1 + [Pr(a)], e2, Some(a), lit);
    assert ExpectsNewFilter(Some(op2)) by { assert EqualsIgnoreCase(op2, op2); }
    GroupOf2(s, m2, |s|, open, b, op, c, "", e1 + [Pr(a)], e2 + [op2], Some(op2), lit);
    NoSpaces(s, |s|);
    ReadsEnd(s, |s|, false, (e1 + [Pr(a)]) + [g], e2 + [op2], Some(")"), lit);
    FinishPairAfter(Cur(|s|, |s|), op2, e1, e2, Pr(a), g);
  }

  /** " and " or " or " after a group. */
  lemma SpacedConnective(s: string, p: int, q: int, op: string, rest: string,
                         out: seq<Filter>, ops: seq<string>, prev: Option<string>, lit: bool)
    requires 0 <= p && q == p + |op| + 2 && Connective(op) && !ExpectsNewFilter(prev)
    requires At(s, p, " " + (op + (" " + rest)))
    requires ops == [] || !EqualsIgnoreCase(Last(ops), "and")
    ensures At(s, q, rest)
    ensures FilterLoop(s, p, false, lit, out, ops, prev)
            == FilterLoop(s, q, false, lit, out, ops + [op], Some(op))
  {
    if op == "and" {
      assert " " + ("and" + (" " + rest)) == " " + ("and " + rest);
      AndThen(s, p, q, " ", rest, out, ops, prev, lit);
    } else {
      assert " " + ("or" + (" " + rest)) == " " + ("or " + rest);
      DrainNone(out, ops, lit);
      OrThen(s, p, q, " ", rest, out, ops, prev, out, ops, lit);
    }
  }

  /** A negated test after "and" belongs to that "and"; "or" still binds
      last. */
  lemma AndOrNot(a: string, b: string, c: string, lit: bool)
    requires AttrName(a) && AttrName(b) && AttrName(c)
    ensures ParseFilterSpec(a + " pr " + "and" + " " + b + " pr " + "or" + " not (" + c + " pr)", lit)
            == Ok(Or([And([Pr(a), Pr(b)]), Not(Pr(c))]))
  {
    var s := a + " pr " + "and" + " " + b + " pr " + "or" + " not (" + c + " pr)";
    PairNotText(a, "and", b, "or", c);
    AtWhole(s);
    AndOrNotReads(s, a, b, c, lit);
    ParsesFrom(s, Or([And([Pr(a), Pr(b)]), Not(Pr(c))]), lit);
  }

  /** The reader's loop on the text of AndOrNot. */
  lemma AndOrNotReads(s: string, a: string, b: string, c: string, lit: bool)
    requires AttrName(a) && AttrName(b) && AttrName(c)
    requires At(s, 0, a + (" pr " + ("and" + (" " + (b + (" pr " + ("or" + (" " + ("not (" + (c + (" pr" + (")" + []))))))))))))
    requires |s| == |a| + |b| + |c| + 24
    ensures FilterLoop(s, 0, false, lit, [], [], None)
            == Ok(Parsed(Or([And([Pr(a), Pr(b)]), Not(Pr(c))]), Cur(|s|, |s|)))
  {
    var tail := "not (" + (c + (" pr" + (")" + [])));
    var q1 := |a| + |b| + 12;
    var q2 := q1 + 3;
    LeadingPair(s, q1, a, "and", b, "or" + (" " + tail), lit);
    NameEndsFilter(b);
    OrAfterPair(s, q1, q2, a, b, tail, lit);
    NotPresent(s, q2, |s|, c, [], [And([Pr(a), Pr(b)])], [] + ["or"], Some("or"), lit);
    NoSpaces(s, |s|);
    var out := [And([Pr(a), Pr(b)])] + [Not(Pr(c))];
    ReadsEnd(s, |s|, false, out, [] + ["or"], Some(")"), lit);
    assert out == [And([Pr(a), Pr(b)]), Not(Pr(c))] && [] + ["or"] == ["or"];
    assert !OpensGroup("or");
    FinishPair(Cur(|s|, |s|), "or", And([Pr(a), Pr(b)]), Not(Pr(c)));
  }

  /** "or " after "a pr and b pr": the AND is built first. */
  lemma OrAfterPair(s: string, p: int, q: int, a: string, b: string, rest: string, lit: bool)
    requires 0 <= p && q == p + 3 && At(s, p, "or" + (" " + rest)) && AttrName(b)
    ensures At(s, q, rest)
    ensures FilterLoop(s, p, false, lit, [Pr(a), Pr(b)], ["and"], Some(b))
            == FilterLoop(s, q, false, lit, [And([Pr(a), Pr(b)])], [] + ["or"], Some("or"))
  {
    var e1: seq<Filter> := [];
    var e2: seq<string> := [];
    DrainPair(e1, e2, Pr(a), Pr(b), lit);
    assert e1 + [Pr(a), Pr(b)] == [Pr(a), Pr(b)] && e2 + ["and"] == ["and"];
    assert e1 + [And([Pr(a), Pr(b)])] == [And([Pr(a), Pr(b)])];
    var e: string := [];
    assert e + ("or " + rest) == "or" + (" " + rest);
    NameEndsFilter(b);
    OrThen(s, p, q, e, rest, [Pr(a), Pr(b)], ["and"], Some(b), [And([Pr(a), Pr(b)])], [], lit);
  }

  /** "and" binds a negated test to the test before it, inside the "or". */
  lemma OrAndNot(a: string, b: string, c: string, lit: bool)
    requires AttrName(a) && AttrName(b) && AttrName(c)
    ensures ParseFilterSpec(a + " pr " + "or" + " " + b + " pr " + "and" + " not (" + c + " pr)", lit)
            == Ok(Or([Pr(a), And([Pr(b), Not(Pr(c))])]))
  {
    var s := a + " pr " + "or" + " " + b + " pr " + "and" + " not (" + c + " pr)";
    PairNotText(a, "or", b, "and", c);
    AtWhole(s);
    OrAndNotReads(s, a, b, c, lit);
    ParsesFrom(s, Or([Pr(a), And([Pr(b), Not(Pr(c))])]), lit);
  }

  /** The reader's loop on the text of OrAndNot. */
  lemma OrAndNotReads(s: string, a: string, b: string, c: string, lit: bool)
    requires AttrName(a) && AttrName(b) && AttrName(c)
    requires At(s, 0, a + (" pr " + ("or" + (" " + (b + (" pr " + ("and" + (" " + ("not (" + (c + (" pr" + (")" + []))))))))))))
    requires |s| == |a| + |b| + |c| + 24
    ensures FilterLoop(s, 0, false, lit, [], [], None)
            == Ok(Parsed(Or([Pr(a), And([Pr(b), Not(Pr(c))])]), Cur(|s|, |s|)))
  {
    OrAndNotTokens(s, a, b, c, lit);
    NoSpaces(s, |s|);
    var out := [Pr(a), Pr(b), Not(Pr(c))];
    ReadsEnd(s, |s|, false, out, ["or", "and"], Some(")"), lit);
    FinishOrAnd(Cur(|s|, |s|), Pr(a), Pr(b), Not(Pr(c)));
  }

  /** Every token of OrAndNot's text, up to its end. */
  lemma OrAndNotTokens(s: string, a: string, b: string, c: string, lit: bool)
    requires AttrName(a) && AttrName(b) && AttrName(c)
    requires At(s, 0, a + (" pr " + ("or" + (" " + (b + (" pr " + ("and" + (" " + ("not (" + (c + (" pr" + (")" + []))))))))))))
    requires |s| == |a| + |b| + |c| + 24
    ensures FilterLoop(s, 0, false, lit, [], [], None)
            == FilterLoop(s, |s|, false, lit, [Pr(a), Pr(b), Not(Pr(c))], ["or", "and"], Some(")"))
  {
    var tail := "not (" + (c + (" pr" + (")" + [])));
    var q1 := |a| + |b| + 11;
    var q2 := q1 + 4;
    LeadingPair(s, q1, a, "or", b, "and" + (" " + tail), lit);
    NameEndsFilter(b);
    var e: string := [];
    assert e + ("and " + tail) == "and" + (" " + tail);
    AndThen(s, q1, q2, e, tail, [Pr(a), Pr(b)], ["or"], Some(b), lit);
    assert ExpectsNewFilter(Some("and")) by { assert EqualsIgnoreCase("and", "and"); }
    NotPresent(s, q2, |s|, c, [], [Pr(a), Pr(b)], ["or"] + ["and"], Some("and"), lit);
    assert [Pr(a), Pr(b)] + [Not(Pr(c))] == [Pr(a), Pr(b), Not(Pr(c))] && ["or"] + ["and"] == ["or", "and"];
  }

  /** Two presence tests and a negated one, joined by op1 and op2. */
  lemma PairNotText(a: string, op1: string, b: string, op2: string, c: string)
    requires AttrName(a)
    ensures var s := a + " pr " + op1 + " " + b + " pr " + op2 + " not (" + c + " pr)";
      && s == a + (" pr " + (op1 + (" " + (b + (" pr " + (op2 + (" " + ("not (" + (c + (" pr" + (")" + [])))))))))))
      && |s| == |a| + |op1| + |b| + |op2| + |c| + 19
      && s[0] > ' ' && s[|s| - 1] > ' '
  {
    var s := a + " pr " + op1 + " " + b + " pr " + op2 + " not (" + c + " pr)";
    var e: string := [];
    assert (c + (" pr" + (")" + e))) == c + " pr)";
    assert s == a + (" pr " + (op1 + (" " + (b + (" pr " + (op2 + (" " + ("not (" + (c + (" pr" + (")" + e)))))))))));
    assert s[0] == a[0];
    assert s[|s| - 1] == ')';
  }
}
