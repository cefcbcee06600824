/** What the filter reader rejects: an unclosed group, a ")" with no group
    to close, a dangling connective, "not" without "(", a comparison with
    no value and two filters with no connective between them. */
module FilterErrors {
  import opened Common
  import opened Filters
  import opened ParserSpec
  import opened FilterSteps
  import opened GroupFilters

  // ---------------------------------------------------------------------
  // The operator stack

  /** Some operator on the stack opens a group. */
  predicate HasOpener(ops: seq<string>) {
    exists i :: 0 <= i < |ops| && OpensGroup(ops[i])
  }

  /** At the end of the input a group that is still open is an error:
      closeGrouping stops at the opener and reports the end of the filter. */
  lemma {:induction false} UnclosedLoop(ops: seq<string>, out: seq<Filter>, operator: Option<string>,
                                        repeating: Option<string>, components: seq<Filter>)
    requires HasOpener(ops)
    ensures CloseGroupingLoop(ops, out, true, operator, repeating, components)
            == Err(UnexpectedEndOfFilter)
    decreases |ops|
  {
    var op := Last(ops);
    if !OpensGroup(op) && out != [] {
      var i :| 0 <= i < |ops| && OpensGroup(ops[i]);
      assert i < |ops| - 1 && Init(ops)[i] == ops[i];
      var rep := if repeating.None? then op else repeating.value;
      var cs := if op != rep then [Combine(rep, [Last(out)] + components)] else [Last(out)] + components;
      UnclosedLoop(Init(ops), Init(out), Some(op), Some(op), cs);
    }
  }

  /** A group left open at the end of the input. */
  lemma UnclosedGroup(c: Cur, out: seq<Filter>, ops: seq<string>)
    requires HasOpener(ops)
    ensures FinishFilter(c, out, ops) == Err(UnexpectedEndOfFilter)
  {
    UnclosedLoop(ops, out, None, None, []);
  }

  /** Without an opener on the stack, whatever closeGrouping returns names
      no opener as the last operator it popped. */
  lemma {:induction false} NoOpenerLoop(ops: seq<string>, out: seq<Filter>, atEnd: bool,
                                        operator: Option<string>, repeating: Option<string>,
                                        components: seq<Filter>)
    requires forall i :: 0 <= i < |ops| ==> !OpensGroup(ops[i])
    requires operator.None? || !OpensGroup(operator.value)
    ensures var r := CloseGroupingLoop(ops, out, atEnd, operator, repeating, components);
      r.Ok? ==> r.value.operator.None? || !OpensGroup(r.value.operator.value)
    decreases |ops|
  {
    if ops != [] {
      var op := Last(ops);
      assert !OpensGroup(ops[|ops| - 1]);
      if out != [] {
        var rep := if repeating.None? then op else repeating.value;
        var cs := if op != rep then [Combine(rep, [Last(out)] + components)] else [Last(out)] + components;
        assert forall i :: 0 <= i < |Init(ops)| ==> Init(ops)[i] == ops[i];
        NoOpenerLoop(Init(ops), Init(out), atEnd, Some(op), Some(op), cs);
      }
    }
  }

  /** The intended ")": with no "(" or "not (" on the stack it is
      rejected, either because no group was found or because an operand
      is missing. */
  lemma StrayClose(c: Cur, out: seq<Filter>, ops: seq<string>)
    requires forall i :: 0 <= i < |ops| ==> !OpensGroup(ops[i])
    ensures var r := CloseMatchedStep(c, ")", out, ops);
      r.Fail? && (r.error == NoMatchingOpenParenthesis(c.mark) || r.error == UnexpectedEndOfFilter)
  {
    NoOpenerLoop(ops, out, false, None, None, []);
    UnexpectedEndOnly(ops, out, false, None, None, []);
  }

  /** closeGrouping fails only for a missing operand or an opener at the
      end of the input, both reported as the end of the filter. */
  lemma {:induction false} UnexpectedEndOnly(ops: seq<string>, out: seq<Filter>, atEnd: bool,
                                             operator: Option<string>, repeating: Option<string>,
                                             components: seq<Filter>)
    ensures var r := CloseGroupingLoop(ops, out, atEnd, operator, repeating, components);
      r.Err? ==> r.error == UnexpectedEndOfFilter
    decreases |ops|
  {
    if ops != [] && !OpensGroup(Last(ops)) && out != [] {
      var op := Last(ops);
      var rep := if repeating.None? then op else repeating.value;
      var cs := if op != rep then [Combine(rep, [Last(out)] + components)] else [Last(out)] + components;
      UnexpectedEndOnly(Init(ops), Init(out), atEnd, Some(op), Some(op), cs);
    }
  }

  // ---------------------------------------------------------------------
  // Rejected texts

  /** A text with no space or control character at either end fails as the
      reader's loop fails on it. */
  lemma FailsFrom(s: string, e: ParseError, lit: bool)
    requires |s| > 0 && s[0] > ' ' && s[|s| - 1] > ' '
    requires FilterLoop(s, 0, false, lit, [], [], None) == Err(e)
    ensures ParseFilterSpec(s, lit) == Err(e)
  {
  }

  /** The empty filter. */
  lemma EmptyFilter(lit: bool)
    ensures ParseFilterSpec("", lit) == Err(UnexpectedEndOfFilter)
  {
    var e: string := [];
    EndToken(e, 0, false);
    assert CloseGrouping([], [], true) == Ok(Grouping(None, [], []));
  }

  /** "(a pr": the group is never closed. */
  lemma UnclosedParenthesis(a: string, lit: bool)
    requires AttrName(a)
    ensures ParseFilterSpec("(" + a + " pr", lit) == Err(UnexpectedEndOfFilter)
  {
    var s := "(" + a + " pr";
    assert s == "(" + (a + " pr") && s[0] == '(' && s[|s| - 1] == 'r';
    AtWhole(s);
    var e1: seq<Filter> := [];
    var e2: seq<string> := [];
    OpenThen(s, 0, 1, a + " pr", e1, e2, None, lit);
    assert ExpectsNewFilter(Some("("));
    PresentLast(s, 1, a, e1, e2 + ["("], Some("("), lit);
    assert OpensGroup((e2 + ["("])[0]);
    UnclosedGroup(Cur(|s|, |s|), e1 + [Pr(a)], e2 + ["("]);
    FailsFrom(s, UnexpectedEndOfFilter, lit);
  }

  /** "a pr)": nothing to close. */
  lemma UnopenedParenthesis(a: string, lit: bool)
    requires AttrName(a)
    ensures ParseFilterSpec(a + " pr)", lit) == Err(NoMatchingOpenParenthesis(|a| + 3))
  {
    var s := a + " pr)";
    var e: string := [];
    assert s == a + (" pr" + (")" + e)) && s[0] == a[0] && s[|s| - 1] == ')';
    AtWhole(s);
    var e1: seq<Filter> := [];
    var e2: seq<string> := [];
    var m := |a| + 3;
    PresentBeforeClose(s, 0, m, a, e, e1, e2, None, lit);
    NameEndsFilter(a);
    AtSplit(s, m, ")", e);
    ReadsCloseIn(s, m, false, e1 + [Pr(a)], e2, Some(a), lit);
    assert CloseGrouping(e2, e1 + [Pr(a)], false) == Ok(Grouping(None, e2, e1 + [Pr(a)]));
    FailsFrom(s, NoMatchingOpenParenthesis(m), lit);
  }

  /** "a pr and b pr)": a ")" after a complete AND still has nothing to
      close. */
  lemma ClosesNothing(a: string, b: string)
    requires AttrName(a) && AttrName(b)
    ensures ParseFilterSpec(a + " pr and " + b + " pr)", false)
            == Err(NoMatchingOpenParenthesis(|a| + |b| + 11))
  {
    var s := a + " pr and " + b + " pr)";
    var e: string := [];
    assert s == a + (" pr " + ("and" + (" " + (b + (" pr" + (")" + e)))))) && s[0] == a[0]
           && s[|s| - 1] == ')';
    AtWhole(s);
    ClosesNothingReads(s, a, b);
    FailsFrom(s, NoMatchingOpenParenthesis(|a| + |b| + 11), false);
  }

  /** The reader's loop on the text of ClosesNothing. */
  lemma ClosesNothingReads(s: string, a: string, b: string)
    requires AttrName(a) && AttrName(b)
    requires At(s, 0, a + (" pr " + ("and" + (" " + (b + (" pr" + (")" + [])))))))
    ensures FilterLoop(s, 0, false, false, [], [], None) == Err(NoMatchingOpenParenthesis(|a| + |b| + 11))
  {
    var e: string := [];
    var e1: seq<Filter> := [];
    var e2: seq<string> := [];
    var m1 := |a| + 4;
    var m2 := m1 + 4;
    var m3 := m2 + |b| + 3;
    PresentThen(s, 0, m1, a, "and" + (" " + (b + (" pr" + (")" + e)))), e1, e2, None, false);
    NameEndsFilter(a);
    ConnectiveThen(s, m1, m2, "and", b + (" pr" + (")" + e)), e1 + [Pr(a)], e2, Some(a), false);
    assert ExpectsNewFilter(Some("and")) by { assert EqualsIgnoreCase("and", "and"); }
    PresentBeforeClose(s, m2, m3, b, e, e1 + [Pr(a)], e2 + ["and"], Some("and"), false);
    NameEndsFilter(b);
    AtSplit(s, m3, ")", e);
    ReadsCloseIn(s, m3, false, (e1 + [Pr(a)]) + [Pr(b)], e2 + ["and"], Some(b), false);
    CloseAfterAnd(Cur(m3 + 1, m3), e1, e2, Pr(a), Pr(b));
  }

  /** ")" right after "x and y", with nothing below them: the code's
      close combines the AND and goes on, the intended one rejects it. */
  lemma CloseAfterAnd(c: Cur, e1: seq<Filter>, e2: seq<string>, x: Filter, y: Filter)
    requires e1 == [] && e2 == []
    ensures CloseGrouping(e2 + ["and"], (e1 + [x]) + [y], false)
            == Ok(Grouping(Some("and"), [], [And([x, y])]))
    ensures CloseStep(c, ")", (e1 + [x]) + [y], e2 + ["and"]) == Continue(c, [And([x, y])], [], Some(")"))
    ensures CloseMatchedStep(c, ")", (e1 + [x]) + [y], e2 + ["and"])
            == Fail(NoMatchingOpenParenthesis(c.mark))
  {
    assert e2 + ["and"] == ["and"] && (e1 + [x]) + [y] == [x, y];
    AndPairCloses(x, y);
    assert !EqualsIgnoreCase("and", "not") by { assert LowerChar("and"[0]) != LowerChar("not"[0]); }
  }

  /** closeGrouping on the stacks of "x and y": one AND, and no "(" found. */
  lemma AndPairCloses(x: Filter, y: Filter)
    ensures CloseGrouping(["and"], [x, y], false) == Ok(Grouping(Some("and"), [], [And([x, y])]))
  {
    assert !OpensGroup("and") by { assert LowerChar("and"[0]) != LowerChar("not"[0]); }
    assert EqualsIgnoreCase("and", "and");
    assert Last(["and"]) == "and" && Init(["and"]) == [];
    assert Last([x, y]) == y && Init([x, y]) == [x] && [y] + [] == [y];
    assert CloseGroupingLoop(["and"], [x, y], false, None, None, [])
           == CloseGroupingLoop([], [x], false, Some("and"), Some("and"), [y]);
    assert Last([x]) == x && Init([x]) == [] && [x] + [y] == [x, y];
    var g: seq<Filter> := [];
    assert g + [And([x, y])] == [And([x, y])];
    assert CloseGroupingEnd([], [x], Some("and"), Some("and"), [y])
           == Ok(Grouping(Some("and"), [], [And([x, y])]));
  }

  /** "a pr and" or "a pr or": the connective has no second operand. */
  lemma DanglingConnective(a: string, op: string, lit: bool)
    requires AttrName(a) && Connective(op)
    ensures ParseFilterSpec(a + " pr " + op, lit) == Err(UnexpectedEndOfFilter)
  {
    var s := a + " pr " + op;
    assert s == a + (" pr " + op) && s[0] == a[0] && s[|s| - 1] == op[|op| - 1];
    assert |s| == |a| + 4 + |op| && op[|op| - 1] > ' ';
    AtWhole(s);
    DanglingReads(s, a, op, lit);
    FailsFrom(s, UnexpectedEndOfFilter, lit);
  }

  /** The reader's loop on the text of DanglingConnective. */
  lemma {:induction false} DanglingReads(s: string, a: string, op: string, lit: bool)
    requires AttrName(a) && Connective(op)
    requires At(s, 0, a + (" pr " + op)) && |s| == |a| + 4 + |op|
    ensures FilterLoop(s, 0, false, lit, [], [], None) == Err(UnexpectedEndOfFilter)
  {
    var e1: seq<Filter> := [];
    var e2: seq<string> := [];
    var m := |a| + 4;
    PresentThen(s, 0, m, a, op, e1, e2, None, lit);
    assert e1 + [Pr(a)] == [Pr(a)];
    DanglingAfter(s, m, a, op, lit);
  }

  /** After the first filter: the connective ends the input. */
  lemma DanglingAfter(s: string, m: nat, a: string, op: string, lit: bool)
    requires AttrName(a) && Connective(op) && At(s, m, op) && |s| == m + |op|
    ensures FilterLoop(s, m, false, lit, [Pr(a)], [], Some(a)) == Err(UnexpectedEndOfFilter)
  {
    var e2: seq<string> := [];
    NameEndsFilter(a);
    LastConnective(s, m, op, [Pr(a)], e2, Some(a), lit);
    NoSecondOperand([Pr(a)], e2, op, Pr(a));
    assert FinishFilter(Cur(|s|, |s|), [Pr(a)], e2 + [op]) == Err(UnexpectedEndOfFilter);
  }

  /** A connective that ends the input, after a filter. */
  lemma LastConnective(s: string, m: nat, op: string, out: seq<Filter>, ops: seq<string>,
                       prev: Option<string>, lit: bool)
    requires Connective(op) && At(s, m, op) && |s| == m + |op| && !ExpectsNewFilter(prev)
    requires ops == [] || !EqualsIgnoreCase(Last(ops), "and")
    ensures FilterLoop(s, m, false, lit, out, ops, prev) == FinishFilter(Cur(|s|, |s|), out, ops + [op])
  {
    assert s[m] == op[0] by { AtIndex(s, m, op, 0); }
    NoSpaces(s, m);
    NoSpaces(s, |s|);
    if op == "and" {
      ReadsAnd(s, m, m, false, out, ops, prev, lit);
      ReadsEnd(s, |s|, false, out, ops + ["and"], Some("and"), lit);
    } else {
      DrainNone(out, ops, lit);
      ReadsOr(s, m, m, false, out, ops, prev, lit);
      ReadsEnd(s, |s|, false, out, ops + ["or"], Some("or"), lit);
    }
  }

  /** One operand and a connective on the stacks at the end of the input. */
  lemma NoSecondOperand(x: seq<Filter>, e2: seq<string>, op: string, f: Filter)
    requires x == [f] && e2 == [] && Connective(op)
    ensures FinishFilter(Cur(0, 0), x, e2 + [op]) == Err(UnexpectedEndOfFilter)
    ensures forall c :: FinishFilter(c, x, e2 + [op]) == Err(UnexpectedEndOfFilter)
  {
    assert !OpensGroup(op) by { assert LowerChar(op[0]) != LowerChar("not"[0]); }
    assert Last(e2 + [op]) == op && Init(e2 + [op]) == [];
    assert Last(x) == f && Init(x) == [];
    assert CloseGroupingLoop(e2 + [op], x, true, None, None, [])
           == CloseGroupingLoop([], [], true, Some(op), Some(op), [f] + []);
  }

  /** "not a pr": "not" must be followed by "(". */
  lemma NotWithoutParenthesis(a: string, lit: bool)
    requires AttrName(a)
    ensures ParseFilterSpec("not " + a + " pr", lit) == Err(ExpectedOpenParenthesis(4))
  {
    var s := "not " + a + " pr";
    assert s == "not" + (" " + (a + " pr")) && s[0] == 'n' && s[|s| - 1] == 'r';
    AtWhole(s);
    NotWithoutReads(s, a, lit);
    FailsFrom(s, ExpectedOpenParenthesis(4), lit);
  }

  /** The reader's loop on the text of NotWithoutParenthesis. */
  lemma NotWithoutReads(s: string, a: string, lit: bool)
    requires AttrName(a) && At(s, 0, "not" + (" " + (a + " pr")))
    ensures FilterLoop(s, 0, false, lit, [], [], None) == Err(ExpectedOpenParenthesis(4))
  {
    AtSplit(s, 0, "not", " " + (a + " pr"));
    AtSplit(s, 3, " ", a + " pr");
    AtIndex(s, 3, " ", 0);
    assert s[0] == 'n' by { AtIndex(s, 0, "not", 0); }
    NoSpaces(s, 0);
    WordToken(s, 0, 0, false, "not");
    var c := Cur(4, 0);
    assert EqualsIgnoreCase("not", "not");
    NameAfterNot(s, c, a);
    assert FilterStep(s, c, false, lit, "not", [], [], None) == Fail(ExpectedOpenParenthesis(4));
    StepFails(s, 0, false, "not", c, [], [], None, ExpectedOpenParenthesis(4), lit);
  }

  /** A name where "not" wants "(". */
  lemma NameAfterNot(s: string, c: Cur, a: string)
    requires AttrName(a) && ValidCur(s, c) && At(s, c.pos, a + " pr")
    ensures NotStep(s, c, false, "not", [], []) == Fail(ExpectedOpenParenthesis(c.pos))
  {
    AtSplit(s, c.pos, a, " pr");
    AtIndex(s, c.pos + |a|, " pr", 0);
    AtIndex(s, c.pos, a, 0);
    NoSpaces(s, c.pos);
    WordToken(s, c.pos, c.pos, false, a);
    assert a != "(" by { assert IsLetterOrDigit(a[0]); }
  }

  /** "a op" with no value after an operator other than "pr": the value is
      missing whatever the operator is. */
  lemma MissingValue(a: string, op: string, lit: bool)
    requires AttrName(a) && PlainName(op) && !EqualsIgnoreCase(op, "pr")
    ensures ParseFilterSpec(a + " " + op, lit) == Err(UnexpectedEndOfFilter)
  {
    var s := a + " " + op;
    assert s == a + (" " + op) && s[0] == a[0] && s[|s| - 1] == op[|op| - 1];
    assert IsLetterOrDigit(op[|op| - 1]);
    AtWhole(s);
    MissingValueReads(s, a, op, lit);
    FailsFrom(s, UnexpectedEndOfFilter, lit);
  }

  /** The reader's loop on the text of MissingValue. */
  lemma MissingValueReads(s: string, a: string, op: string, lit: bool)
    requires AttrName(a) && PlainName(op) && !EqualsIgnoreCase(op, "pr")
    requires At(s, 0, a + (" " + op)) && |s| == |a| + 1 + |op|
    ensures FilterLoop(s, 0, false, lit, [], [], None) == Err(UnexpectedEndOfFilter)
  {
    var m := |a| + 1;
    MissingValueText(s, a, op, m);
    MissingValueStep(s, a, op, m, lit);
    StepFails(s, 0, false, a, Cur(m, 0), [], [], None, UnexpectedEndOfFilter, lit);
  }

  lemma MissingValueText(s: string, a: string, op: string, m: nat)
    requires AttrName(a) && At(s, 0, a + (" " + op)) && m == |a| + 1 && |s| == m + |op|
    ensures FilterToken(s, 0, false) == Ok(Tok(Some(a), Cur(m, 0))) && At(s, m, op)
  {
    AtSplit(s, 0, a, " " + op);
    AtSplit(s, |a|, " ", op);
    AtIndex(s, |a|, " ", 0);
    AtIndex(s, 0, a, 0);
    NoSpaces(s, 0);
    WordToken(s, 0, 0, false, a);
  }

  lemma MissingValueStep(s: string, a: string, op: string, m: nat, lit: bool)
    requires AttrName(a) && PlainName(op) && !EqualsIgnoreCase(op, "pr")
    requires m == |a| + 1 && |s| == m + |op| && At(s, m, op)
    requires FilterToken(s, 0, false) == Ok(Tok(Some(a), Cur(m, 0)))
    ensures FilterStep(s, Cur(m, 0), false, lit, a, [], [], None) == Fail(UnexpectedEndOfFilter)
  {
    var c := Cur(m, 0);
    PlainNamePath(a);
    NameStep(s, c, false, a, [], [], None, lit);
    NoValue(s, m, op, NamePath(a));
    assert ComparisonStep(s, c, false, a, [], []) == Fail(UnexpectedEndOfFilter);
  }

  /** An operator other than "pr" at the end of the input. */
  lemma NoValue(s: string, m: nat, op: string, p: Path)
    requires PlainName(op) && !EqualsIgnoreCase(op, "pr")
    requires At(s, m, op) && |s| == m + |op|
    ensures ComparisonTail(s, m, false, p) == Err(UnexpectedEndOfFilter)
  {
    AtIndex(s, m, op, 0);
    NoSpaces(s, m);
    WordToken(s, m, m, false, op);
    var t: string := s[|s|..];
    assert t == [];
    assert JsonScalar.Scan(t).EndOfInput?;
  }

  /** A token whose step fails ends the reader's loop with that error. */
  lemma StepFails(s: string, pos: nat, vm: bool, t: string, c: Cur, out: seq<Filter>,
                  ops: seq<string>, prev: Option<string>, e: ParseError, lit: bool)
    requires pos <= |s| && FilterToken(s, pos, vm) == Ok(Tok(Some(t), c)) && t != []
    requires FilterStep(s, c, vm, lit, t, out, ops, prev) == Fail(e)
    ensures FilterLoop(s, pos, vm, lit, out, ops, prev) == Err(e)
  {
  }

  /** "a pr b pr": a second filter with no connective before it. */
  lemma MissingConnective(a: string, b: string, lit: bool)
    requires AttrName(a) && AttrName(b)
    ensures ParseFilterSpec(a + " pr " + b + " pr", lit) == Err(UnexpectedToken(b, |a| + 4))
  {
    var s := a + " pr " + b + " pr";
    assert s == a + (" pr " + (b + " pr")) && s[0] == a[0] && s[|s| - 1] == 'r';
    AtWhole(s);
    MissingConnectiveReads(s, a, b, lit);
    FailsFrom(s, UnexpectedToken(b, |a| + 4), lit);
  }

  /** The reader's loop on the text of MissingConnective. */
  lemma MissingConnectiveReads(s: string, a: string, b: string, lit: bool)
    requires AttrName(a) && AttrName(b) && At(s, 0, a + (" pr " + (b + " pr")))
    ensures FilterLoop(s, 0, false, lit, [], [], None) == Err(UnexpectedToken(b, |a| + 4))
  {
    var e1: seq<Filter> := [];
    var e2: seq<string> := [];
    var m := |a| + 4;
    PresentThen(s, 0, m, a, b + " pr", e1, e2, None, lit);
    NameEndsFilter(a);
    NameAfterFilter(s, m, b, " pr", e1 + [Pr(a)], e2, Some(a), lit);
  }

  /** A name where the reader expects an operator or the end. */
  lemma NameAfterFilter(s: string, m: nat, b: string, rest: string,
                        out: seq<Filter>, ops: seq<string>, prev: Option<string>, lit: bool)
    requires AttrName(b) && !ExpectsNewFilter(prev) && At(s, m, b + rest)
    requires rest != [] && rest[0] == ' '
    ensures FilterLoop(s, m, false, lit, out, ops, prev) == Err(UnexpectedToken(b, m))
  {
    AtSplit(s, m, b, rest);
    AtIndex(s, m, b, 0);
    AtIndex(s, m + |b|, rest, 0);
    NoSpaces(s, m);
    WordToken(s, m, m, false, b);
    var c := Cur(After(s, m + |b|), m);
    assert b != "(" && b != ")" && Last(b) != '[' by {
      assert IsLetterOrDigit(b[0]) && IsLetterOrDigit(Last(b));
    }
    assert FilterStep(s, c, false, lit, b, out, ops, prev) == Fail(UnexpectedToken(b, m));
  }
}
