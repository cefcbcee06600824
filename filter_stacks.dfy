/** The operator and output stacks of readFilter on a filter made of
    operands joined by "and" and "or" without parentheses, against a
    reference reading in which "and" binds tighter than "or". */
module FilterStacks {
  import opened Common
  import opened Filters
  import opened ParserSpec

  /** k copies of the operator w, bottom first. */
  function Repeat(w: string, k: nat): (r: seq<string>)
    ensures |r| == k && forall i :: 0 <= i < k ==> r[i] == w
  {
    if k == 0 then [] else Repeat(w, k - 1) + [w]
  }

  // ---------------------------------------------------------------------
  // Reference reading

  /** The operands grouped into the runs joined by "and": a new run starts
      after each "or". */
  function Runs(xs: seq<Filter>, ops: seq<string>): (g: seq<seq<Filter>>)
    requires |xs| == |ops| + 1
    ensures |g| > 0 && forall i :: 0 <= i < |g| ==> g[i] != []
    decreases |ops|
  {
    if ops == [] then [xs]
    else
      var g := Runs(Init(xs), Init(ops));
      if Last(ops) == "and" then Init(g) + [Last(g) + [Last(xs)]] else g + [[Last(xs)]]
  }

  /** A run is its single operand, or the AND of its operands. */
  function Group(run: seq<Filter>): Filter
    requires run != []
  {
    if |run| == 1 then run[0] else And(run)
  }

  function Groups(g: seq<seq<Filter>>): (r: seq<Filter>)
    requires forall i :: 0 <= i < |g| ==> g[i] != []
    ensures |r| == |g| && forall i :: 0 <= i < |g| ==> r[i] == Group(g[i])
  {
    if g == [] then [] else Groups(Init(g)) + [Group(Last(g))]
  }

  /** The filter that operands xs joined by ops denote when "and" binds
      tighter than "or": the OR of the runs, or the single run. */
  function Precedence(xs: seq<Filter>, ops: seq<string>): Filter
    requires |xs| == |ops| + 1
  {
    var g := Runs(xs, ops);
    if |g| == 1 then Group(g[0]) else Or(Groups(g))
  }

  /** Without "or", the operands form a single AND (or stand alone). */
  lemma {:induction false} NoOrIsAnd(xs: seq<Filter>, ops: seq<string>)
    requires |xs| == |ops| + 1
    requires forall i :: 0 <= i < |ops| ==> ops[i] == "and"
    ensures Runs(xs, ops) == [xs]
    ensures Precedence(xs, ops) == if |xs| == 1 then xs[0] else And(xs)
    decreases |ops|
  {
    if ops != [] {
      NoOrIsAnd(Init(xs), Init(ops));
      assert Init(xs) + [Last(xs)] == xs;
    }
  }

  /** Without "and", the operands form a single OR (or stand alone). */
  lemma {:induction false} NoAndIsOr(xs: seq<Filter>, ops: seq<string>)
    requires |xs| == |ops| + 1
    requires forall i :: 0 <= i < |ops| ==> ops[i] == "or"
    ensures |Runs(xs, ops)| == |xs| && forall i :: 0 <= i < |xs| ==> Runs(xs, ops)[i] == [xs[i]]
    ensures Precedence(xs, ops) == if |xs| == 1 then xs[0] else Or(xs)
    decreases |ops|
  {
    var g := Runs(xs, ops);
    if ops != [] {
      NoAndIsOr(Init(xs), Init(ops));
      assert Last(ops) == ops[|ops| - 1] == "or";
      assert g == Runs(Init(xs), Init(ops)) + [[Last(xs)]];
      forall i | 0 <= i < |xs|
        ensures g[i] == [xs[i]]
      {
        if i < |xs| - 1 {
          assert g[i] == Runs(Init(xs), Init(ops))[i];
        }
      }
    }
    assert forall i :: 0 <= i < |xs| ==> Groups(g)[i] == xs[i];
    assert Groups(g) == xs;
  }

  // ---------------------------------------------------------------------
  // The stacks while reading

  /** The output stack after the operands xs joined by ops: one item for
      each finished run, then the operands of the last run. */
  function StackOut(xs: seq<Filter>, ops: seq<string>): seq<Filter>
    requires |xs| == |ops| + 1
  {
    var g := Runs(xs, ops);
    Groups(Init(g)) + Last(g)
  }

  /** The operator stack after the operands xs joined by ops: one "or" for
      each finished run, then the "and"s of the last run. */
  function StackOps(xs: seq<Filter>, ops: seq<string>): seq<string>
    requires |xs| == |ops| + 1
  {
    var g := Runs(xs, ops);
    Repeat("or", |g| - 1) + Repeat("and", |Last(g)| - 1)
  }

  /** "and": the operator and then the next operand are pushed. */
  lemma AndPush(xs: seq<Filter>, ops: seq<string>, x: Filter)
    requires |xs| == |ops| + 1
    ensures StackOut(xs + [x], ops + ["and"]) == StackOut(xs, ops) + [x]
    ensures StackOps(xs + [x], ops + ["and"]) == StackOps(xs, ops) + ["and"]
  {
    assert Init(xs + [x]) == xs && Last(xs + [x]) == x;
    assert Init(ops + ["and"]) == ops && Last(ops + ["and"]) == "and";
    var g := Runs(xs, ops);
    var g2 := Runs(xs + [x], ops + ["and"]);
    assert g2 == Init(g) + [Last(g) + [x]];
    assert Init(g2) == Init(g) && Last(g2) == Last(g) + [x];
  }

  /** "or": the pending run becomes one item, then "or" and the next
      operand are pushed.  The code's drain (lit) does this only for a
      run of at most two operands, that is at most one "and". */
  lemma OrPush(xs: seq<Filter>, ops: seq<string>, x: Filter, out: seq<Filter>, opstack: seq<string>,
               lit: bool)
      returns (items: seq<Filter>, ors: seq<string>)
    requires |xs| == |ops| + 1 && out == StackOut(xs, ops) && opstack == StackOps(xs, ops)
    requires lit ==> TrailingAnds(ops) <= 1
    ensures items == Groups(Runs(xs, ops)) && ors == Repeat("or", |Runs(xs, ops)| - 1)
    ensures Drain(out, opstack, lit) == Ok(Stacks(items, ors))
    ensures StackOut(xs + [x], ops + ["or"]) == items + [x]
    ensures StackOps(xs + [x], ops + ["or"]) == ors + ["or"]
  {
    var g := Runs(xs, ops);
    items, ors := Groups(g), Repeat("or", |g| - 1);
    assert Init(xs + [x]) == xs && Last(xs + [x]) == x;
    assert Init(ops + ["or"]) == ops && Last(ops + ["or"]) == "or";
    var g2 := Runs(xs + [x], ops + ["or"]);
    assert g2 == g + [[x]];
    assert Init(g2) == g && Last(g2) == [x];
    assert Repeat("and", 0) == [];
    assert Repeat("or", |g|) == Repeat("or", |g| - 1) + ["or"];
    assert Repeat("or", |g| - 1) + ["or"] + [] == Repeat("or", |g| - 1) + ["or"];
    OrDrain(xs, ops, out, opstack, lit);
  }

  /** The drain before "or" leaves one item per run and the "or"s between
      them. */
  lemma OrDrain(xs: seq<Filter>, ops: seq<string>, out: seq<Filter>, opstack: seq<string>, lit: bool)
    requires |xs| == |ops| + 1 && out == StackOut(xs, ops) && opstack == StackOps(xs, ops)
    requires lit ==> TrailingAnds(ops) <= 1
    ensures Drain(out, opstack, lit) == Ok(Stacks(Groups(Runs(xs, ops)), Repeat("or", |Runs(xs, ops)| - 1)))
  {
    if lit {
      OrDrainShort(xs, ops);
    } else {
      OrDrainRun(xs, ops);
    }
  }

  lemma OrDrainShort(xs: seq<Filter>, ops: seq<string>)
    requires |xs| == |ops| + 1 && TrailingAnds(ops) <= 1
    ensures DrainAnds(StackOut(xs, ops), StackOps(xs, ops), [])
            == Ok(Stacks(Groups(Runs(xs, ops)), Repeat("or", |Runs(xs, ops)| - 1)))
  {
    var g := Runs(xs, ops);
    RunsLast(xs, ops);
    DrainShortRun(Groups(Init(g)), Last(g));
    assert Groups(g) == Groups(Init(g)) + [Group(Last(g))];
  }

  lemma OrDrainRun(xs: seq<Filter>, ops: seq<string>)
    requires |xs| == |ops| + 1
    ensures DrainAndRun(StackOut(xs, ops), StackOps(xs, ops), [])
            == Ok(Stacks(Groups(Runs(xs, ops)), Repeat("or", |Runs(xs, ops)| - 1)))
  {
    var g := Runs(xs, ops);
    DrainLastRun(Groups(Init(g)), Last(g));
    assert Groups(g) == Groups(Init(g)) + [Group(Last(g))];
  }

  /** The code's drain on a pending run of one or two operands: it
      leaves the run's group, as the intended drain does. */
  lemma DrainShortRun(items: seq<Filter>, run: seq<Filter>)
    requires run != [] && |run| <= 2
    ensures DrainAnds(items + run, Repeat("or", |items|) + Repeat("and", |run| - 1), [])
            == Ok(Stacks(items + [Group(run)], Repeat("or", |items|)))
  {
    var rest := Repeat("or", |items|);
    assert rest == [] || !EqualsIgnoreCase(Last(rest), "and") by {
      if rest != [] {
        assert Last(rest) == "or";
      }
    }
    if |run| == 1 {
      assert rest + Repeat("and", 0) == rest && run == [run[0]];
    } else {
      assert rest + Repeat("and", 1) == rest + ["and"];
      assert items + run == items + [run[0], run[1]] && [run[0], run[1]] == run;
      DrainPairAsWritten(items, rest, run[0], run[1]);
    }
  }

  /** The code's drain on one "and" between the two top operands. */
  lemma DrainPairAsWritten(out: seq<Filter>, ops: seq<string>, x: Filter, y: Filter)
    requires ops == [] || !EqualsIgnoreCase(Last(ops), "and")
    ensures DrainAnds(out + [x, y], ops + ["and"], []) == Ok(Stacks(out + [And([x, y])], ops))
  {
    assert EqualsIgnoreCase("and", "and");
    var o := out + [x, y];
    assert Last(ops + ["and"]) == "and" && Init(ops + ["and"]) == ops;
    assert Last(o) == y && Init(o) == out + [x] && [y] + [] == [y];
    assert Last(out + [x]) == x && Init(out + [x]) == out && [x] + [y] == [x, y];
    assert DrainAnds(o, ops + ["and"], []) == DrainAnds(out + [And([x, y])], ops, [x, y]);
  }

  /** The number of "and"s on top of the operators, that is after the
      last "or". */
  function TrailingAnds(ops: seq<string>): nat {
    if ops != [] && Last(ops) == "and" then TrailingAnds(Init(ops)) + 1 else 0
  }

  /** The last run has one operand more than there are "and"s after the
      last "or". */
  lemma {:induction false} RunsLast(xs: seq<Filter>, ops: seq<string>)
    requires |xs| == |ops| + 1
    ensures |Last(Runs(xs, ops))| == TrailingAnds(ops) + 1
    decreases |ops|
  {
    if ops != [] && Last(ops) == "and" {
      RunsLast(Init(xs), Init(ops));
    }
  }

  /** The pending run of "and"s becomes its group. */
  lemma DrainLastRun(items: seq<Filter>, run: seq<Filter>)
    requires run != []
    ensures DrainAndRun(items + run, Repeat("or", |items|) + Repeat("and", |run| - 1), [])
            == Ok(Stacks(items + [Group(run)], Repeat("or", |items|)))
  {
    var rest := Repeat("or", |items|);
    assert rest == [] || !EqualsIgnoreCase(Last(rest), "and") by {
      if rest != [] {
        assert Last(rest) == "or";
      }
    }
    var out := items + run;
    var k := |run| - 1;
    DrainRun(out, rest, k, []);
    assert out[..|out| - k - 1] == items;
    assert out[|out| - k - 1..] + [] == run;
    if k == 0 {
      assert run == [run[0]];
    }
  }

  /** readFilter's "or" case on a run of k "and"s above an operator stack
      that has no "and" on top: the k + 1 operands on top of the output
      stack, followed by the components cs, become one AND. */
  lemma {:induction false} DrainRun(out: seq<Filter>, ops: seq<string>, k: nat, cs: seq<Filter>)
    requires k < |out|
    requires ops == [] || !EqualsIgnoreCase(Last(ops), "and")
    ensures DrainAndRun(out, ops + Repeat("and", k), cs)
            == if k == 0 && cs == [] then Ok(Stacks(out, ops))
               else Ok(Stacks(out[..|out| - k - 1] + [And(out[|out| - k - 1..] + cs)], ops))
  {
    var o := ops + Repeat("and", k);
    if k == 0 {
      assert o == ops;
      assert [Last(out)] == out[|out| - 1..];
    } else {
      DrainOne(out, ops, k, cs);
      DrainRun(Init(out), ops, k - 1, [Last(out)] + cs);
      DrainSlices(out, k, cs);
    }
  }

  /** One "and" popped: the operand on top joins the components. */
  lemma DrainOne(out: seq<Filter>, ops: seq<string>, k: nat, cs: seq<Filter>)
    requires 0 < k < |out|
    ensures DrainAndRun(out, ops + Repeat("and", k), cs)
            == DrainAndRun(Init(out), ops + Repeat("and", k - 1), [Last(out)] + cs)
  {
    var o := ops + Repeat("and", k);
    assert EqualsIgnoreCase("and", "and");
    assert Last(o) == "and" && Init(o) == ops + Repeat("and", k - 1);
  }

  lemma DrainSlices(out: seq<Filter>, k: nat, cs: seq<Filter>)
    requires 0 < k < |out|
    ensures Init(out)[..|out| - 1 - (k - 1) - 1] == out[..|out| - k - 1]
    ensures Init(out)[|out| - 1 - (k - 1) - 1..] + ([Last(out)] + cs) == out[|out| - k - 1..] + cs
  {
    assert Init(out)[|out| - 1 - (k - 1) - 1..] + [Last(out)] == out[|out| - k - 1..];
  }

  /** closeGrouping pops k more copies of a repeated operator op: their
      operands join the components. */
  lemma {:induction false} CloseRun(ops: seq<string>, out: seq<Filter>, atEnd: bool, op: string,
                                    k: nat, cs: seq<Filter>)
    requires !OpensGroup(op) && k <= |out|
    ensures CloseGroupingLoop(ops + Repeat(op, k), out, atEnd, Some(op), Some(op), cs)
            == CloseGroupingLoop(ops, out[..|out| - k], atEnd, Some(op), Some(op), out[|out| - k..] + cs)
  {
    assert ops + Repeat(op, 0) == ops;
    if k > 0 {
      var o := ops + Repeat(op, k);
      assert Last(o) == op && Init(o) == ops + Repeat(op, k - 1);
      CloseRun(ops, Init(out), atEnd, op, k - 1, [Last(out)] + cs);
      assert Init(out)[..|out| - 1 - (k - 1)] == out[..|out| - k];
      assert Init(out)[|out| - 1 - (k - 1)..] + ([Last(out)] + cs) == out[|out| - k..] + cs;
    } else {
      assert out[..|out|] == out && out[|out|..] + cs == cs;
    }
  }

  /** At the end of the input, closeGrouping turns the stacks into the
      reference reading. */
  lemma FinishStacks(xs: seq<Filter>, ops: seq<string>, c: Cur)
    requires |xs| == |ops| + 1
    ensures FinishFilter(c, StackOut(xs, ops), StackOps(xs, ops)) == Ok(Parsed(Precedence(xs, ops), c))
  {
    var g := Runs(xs, ops);
    var run := Last(g);
    var items := Groups(Init(g));
    LastGroup(g);
    assert StackOps(xs, ops) == Repeat("or", |g| - 1) + Repeat("and", |run| - 1);
    assert StackOut(xs, ops) == items + run;
    if |g| == 1 {
      assert Repeat("or", 0) + Repeat("and", |run| - 1) == Repeat("and", |run| - 1);
      FinishOneRun(run, items);
      assert g[0] == run;
    } else {
      FinishRuns(items, run, |g| - 1);
    }
  }

  lemma LastGroup(g: seq<seq<Filter>>)
    requires |g| > 0 && forall i :: 0 <= i < |g| ==> g[i] != []
    ensures Groups(g) == Groups(Init(g)) + [Group(Last(g))]
    ensures |g| == 1 ==> Groups(Init(g)) == []
  {
  }

  /** A single run: its group alone. */
  lemma FinishOneRun(run: seq<Filter>, items: seq<Filter>)
    requires run != [] && items == []
    ensures var r := CloseGroupingLoop(Repeat("and", |run| - 1), items + run, true, None, None, []);
      r.Ok? && r.value.out == [Group(run)]
  {
    var closed := CloseLastRun([], run, []);
    assert [] + Repeat("and", |run| - 1) == Repeat("and", |run| - 1);
    assert items + run == run;
  }

  /** m >= 1 finished runs before the last: the OR of all groups. */
  lemma FinishRuns(items: seq<Filter>, run: seq<Filter>, m: nat)
    requires run != [] && |items| == m > 0
    ensures var r := CloseGroupingLoop(Repeat("or", m) + Repeat("and", |run| - 1), items + run, true, None, None, []);
      r.Ok? && r.value.out == [Or(items + [Group(run)])]
  {
    var closed := CloseLastRun(items, run, Repeat("or", m));
    CloseOrs(items, Group(run), m);
  }

  /** closeGrouping at the end of the input on the runs' items and the
      operands of the last run: the reference reading alone on the output
      stack. */
  lemma CloseLastRun(items: seq<Filter>, run: seq<Filter>, ors: seq<string>)
      returns (closed: Result<Grouping>)
    requires run != [] && ors == Repeat("or", |items|)
    ensures CloseGroupingLoop(ors + Repeat("and", |run| - 1), items + run, true, None, None, []) == closed
    ensures items == [] ==> closed.Ok? && closed.value.out == [Group(run)]
    ensures items != [] ==>
      closed == CloseGroupingLoop(Repeat("or", |items| - 1), items, true, Some("or"), Some("or"), [Group(run)])
  {
    closed := CloseGroupingLoop(ors + Repeat("and", |run| - 1), items + run, true, None, None, []);
    if |run| > 1 {
      CloseLastAnds(items, run, ors);
    } else {
      CloseLastSingle(items, run, ors);
    }
  }

  lemma CloseLastAnds(items: seq<Filter>, run: seq<Filter>, ors: seq<string>)
    requires |run| > 1 && ors == Repeat("or", |items|)
    ensures items == [] ==>
      var r := CloseGroupingLoop(ors + Repeat("and", |run| - 1), items + run, true, None, None, []);
      r.Ok? && r.value.out == [Group(run)]
    ensures items != [] ==>
      CloseGroupingLoop(ors + Repeat("and", |run| - 1), items + run, true, None, None, [])
      == CloseGroupingLoop(Repeat("or", |items| - 1), items, true, Some("or"), Some("or"), [Group(run)])
  {
    CloseAnds(items, run, ors);
    if items == [] {
      CloseEnd([run[0]], "and", run[1..]);
      assert Combine("and", [run[0]] + run[1..]) == And(run) by {
        assert EqualsIgnoreCase("and", "and");
        assert [run[0]] + run[1..] == run;
      }
    } else {
      PopOther(Repeat("or", |items| - 1), items, "or", "and", run);
    }
  }

  lemma CloseLastSingle(items: seq<Filter>, run: seq<Filter>, ors: seq<string>)
    requires |run| == 1 && ors == Repeat("or", |items|)
    ensures items == [] ==>
      var r := CloseGroupingLoop(ors + Repeat("and", |run| - 1), items + run, true, None, None, []);
      r.Ok? && r.value.out == [Group(run)]
    ensures items != [] ==>
      CloseGroupingLoop(ors + Repeat("and", |run| - 1), items + run, true, None, None, [])
      == CloseGroupingLoop(Repeat("or", |items| - 1), items, true, Some("or"), Some("or"), [Group(run)])
  {
    assert ors + Repeat("and", 0) == ors;
    assert run == [run[0]] && Group(run) == run[0];
    if items != [] {
      PopFirst(Repeat("or", |items| - 1), items, "or", run[0]);
    }
  }

  /** The "and"s of the last run, k >= 1 of them. */
  lemma CloseAnds(items: seq<Filter>, run: seq<Filter>, ors: seq<string>)
    requires |run| > 1
    ensures CloseGroupingLoop(ors + Repeat("and", |run| - 1), items + run, true, None, None, [])
            == CloseGroupingLoop(ors, items + [run[0]], true, Some("and"), Some("and"), run[1..])
  {
    var k := |run| - 1;
    RunPieces(items, run, ors, k);
    ConnectiveFacts();
    PopFirst(ors + Repeat("and", k - 1), items + run[..k], "and", run[k]);
    CloseRun(ors, items + run[..k], true, "and", k - 1, [run[k]]);
  }

  lemma RunPieces(items: seq<Filter>, run: seq<Filter>, ors: seq<string>, k: nat)
    requires |run| > 1 && k == |run| - 1
    ensures ors + Repeat("and", k) == (ors + Repeat("and", k - 1)) + ["and"]
    ensures items + run == (items + run[..k]) + [run[k]]
    ensures (items + run[..k])[..|items + run[..k]| - (k - 1)] == items + [run[0]]
    ensures (items + run[..k])[|items + run[..k]| - (k - 1)..] + [run[k]] == run[1..]
  {
    assert ors + Repeat("and", k) == (ors + Repeat("and", k - 1)) + ["and"];
    assert items + run == (items + run[..k]) + [run[k]];
    assert (items + run[..k])[..|items + run[..k]| - (k - 1)] == items + [run[0]];
    assert (items + run[..k])[|items + run[..k]| - (k - 1)..] + [run[k]] == run[1..];
  }

  /** The first operator closeGrouping pops. */
  lemma PopFirst(ops: seq<string>, out: seq<Filter>, op: string, x: Filter)
    requires !OpensGroup(op)
    ensures CloseGroupingLoop(ops + [op], out + [x], true, None, None, [])
            == CloseGroupingLoop(ops, out, true, Some(op), Some(op), [x])
  {
    assert Last(ops + [op]) == op && Init(ops + [op]) == ops;
    assert Last(out + [x]) == x && Init(out + [x]) == out && [x] + [] == [x];
  }

  /** An operator other than the repeated one: the components so far and
      the operand below them become one filter, the first component of the
      new run. */
  lemma PopOther(ops: seq<string>, items: seq<Filter>, op: string, rep: string, run: seq<Filter>)
    requires !OpensGroup(op) && op != rep && |run| > 1
    ensures CloseGroupingLoop(ops + [op], items + [run[0]], true, Some(rep), Some(rep), run[1..])
            == CloseGroupingLoop(ops, items, true, Some(op), Some(op), [Combine(rep, run)])
  {
    assert Last(ops + [op]) == op && Init(ops + [op]) == ops;
    assert Last(items + [run[0]]) == run[0] && Init(items + [run[0]]) == items;
    assert [run[0]] + run[1..] == run;
  }

  /** closeGrouping's end: the components and the operand below them
      become one filter. */
  lemma CloseEnd(out: seq<Filter>, op: string, cs: seq<Filter>)
    requires |out| == 1 && cs != []
    ensures CloseGroupingLoop([], out, true, Some(op), Some(op), cs)
            == Ok(Grouping(Some(op), [], [Combine(op, out + cs)]))
  {
    assert Init(out) == [] && [Last(out)] == out;
    assert [] + [Combine(op, out + cs)] == [Combine(op, out + cs)];
  }

  /** The two connectives: neither opens a group, and only "and" is "and". */
  lemma ConnectiveFacts()
    ensures !OpensGroup("and") && !OpensGroup("or")
    ensures EqualsIgnoreCase("and", "and") && !EqualsIgnoreCase("or", "and")
  {
    assert LowerChar("and"[0]) != LowerChar("not"[0]);
    assert LowerChar("or"[0]) != LowerChar("not"[0]);
    assert LowerChar("or"[0]) != LowerChar("and"[0]);
  }

  /** The "or"s below the last run: every item and the last run's group
      join one OR. */
  lemma CloseOrs(items: seq<Filter>, top: Filter, m: nat)
    requires m > 0 && |items| == m
    ensures CloseGroupingLoop(Repeat("or", m - 1), items, true, Some("or"), Some("or"), [top])
            == Ok(Grouping(Some("or"), [], [Or(items + [top])]))
  {
    ConnectiveFacts();
    var cs := items[1..] + [top];
    assert [] + Repeat("or", m - 1) == Repeat("or", m - 1);
    CloseRun([], items, true, "or", m - 1, [top]);
    assert items[..|items| - (m - 1)] == [items[0]] && items[|items| - (m - 1)..] == items[1..];
    CloseEnd([items[0]], "or", cs);
    assert [items[0]] + cs == items + [top];
  }
}
