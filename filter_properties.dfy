/** Properties of the filter reader on small texts: operator precedence,
    grouping, and the errors for unbalanced parentheses. */
module FilterProperties {
  import opened Common
  import opened Filters
  import opened ParserSpec
  import opened FilterSteps
  import opened FilterStacks
  import opened FlatFilters

  /** The flat text of three names. */
  lemma Text3(a: string, op1: string, b: string, op2: string, c: string)
    ensures FlatText([a, b, c], [op1, op2])
            == a + " pr " + op1 + " " + b + " pr " + op2 + " " + c + " pr"
  {
    assert [a, b, c][1..] == [b, c] && [b, c][1..] == [c] && [c][1..] == [];
    assert [op1, op2][1..] == [op2] && [op2][1..] == [];
    assert Rest([c], [op2]) == " pr " + (op2 + (" " + (c + " pr")));
    assert Rest([b, c], [op1, op2]) == " pr " + (op1 + (" " + (b + Rest([c], [op2]))));
  }

  /** The runs of two operands. */
  lemma Runs2(x: Filter, y: Filter, op: string)
    ensures Runs([x, y], [op]) == if op == "and" then [[x, y]] else [[x], [y]]
  {
    assert Init([x, y]) == [x] && Last([x, y]) == y && Init([op]) == [] && Last([op]) == op;
    assert Runs([x], []) == [[x]];
    assert Init([[x]]) == [] && Last([[x]]) == [x] && [x] + [y] == [x, y];
    assert [] + [[x, y]] == [[x, y]];
  }

  /** The runs of three operands. */
  lemma Runs3(x: Filter, y: Filter, z: Filter, op1: string, op2: string)
    ensures Runs([x, y, z], [op1, op2])
            == if op1 == "and" && op2 == "and" then [[x, y, z]]
               else if op1 == "and" then [[x, y], [z]]
               else if op2 == "and" then [[x], [y, z]]
               else [[x], [y], [z]]
  {
    assert Init([x, y, z]) == [x, y] && Last([x, y, z]) == z;
    assert Init([op1, op2]) == [op1] && Last([op1, op2]) == op2;
    Runs2(x, y, op1);
    var g := Runs([x, y], [op1]);
    if op1 == "and" {
      assert Init(g) == [] && Last(g) == [x, y] && [x, y] + [z] == [x, y, z];
      assert [] + [[x, y, z]] == [[x, y, z]];
    } else {
      assert Init(g) == [[x]] && Last(g) == [y] && [y] + [z] == [y, z];
      assert [[x]] + [[y, z]] == [[x], [y, z]];
    }
  }

  /** "a pr and b pr or c pr" is (a pr and b pr) or c pr: "and" binds
      tighter than "or". */
  lemma AndBindsTighterThanOr(a: string, b: string, c: string, lit: bool)
    requires AttrName(a) && AttrName(b) && AttrName(c)
    ensures ParseFilterSpec(a + " pr " + "and" + " " + b + " pr " + "or" + " " + c + " pr", lit)
            == Ok(Or([And([Pr(a), Pr(b)]), Pr(c)]))
  {
    Text3(a, "and", b, "or", c);
    FlatParse([a, b, c], ["and", "or"], lit);
    Prs3(a, b, c);
    AndOrReading(Pr(a), Pr(b), Pr(c));
  }

  /** "a pr or b pr and c pr" is a pr or (b pr and c pr). */
  lemma OrThenAnd(a: string, b: string, c: string, lit: bool)
    requires AttrName(a) && AttrName(b) && AttrName(c)
    ensures ParseFilterSpec(a + " pr " + "or" + " " + b + " pr " + "and" + " " + c + " pr", lit)
            == Ok(Or([Pr(a), And([Pr(b), Pr(c)])]))
  {
    Text3(a, "or", b, "and", c);
    FlatParse([a, b, c], ["or", "and"], lit);
    Prs3(a, b, c);
    OrAndReading(Pr(a), Pr(b), Pr(c));
  }

  lemma Prs3(a: string, b: string, c: string)
    ensures Prs([a, b, c]) == [Pr(a), Pr(b), Pr(c)]
  {
  }

  /** The reference reading of x and y or z. */
  lemma AndOrReading(x: Filter, y: Filter, z: Filter)
    ensures Precedence([x, y, z], ["and", "or"]) == Or([And([x, y]), z])
  {
    Runs3(x, y, z, "and", "or");
    var g := Runs([x, y, z], ["and", "or"]);
    assert Group(g[0]) == And([x, y]) && Group(g[1]) == z;
    assert Groups(g) == [And([x, y]), z];
  }

  /** The reference reading of x or y and z. */
  lemma OrAndReading(x: Filter, y: Filter, z: Filter)
    ensures Precedence([x, y, z], ["or", "and"]) == Or([x, And([y, z])])
  {
    Runs3(x, y, z, "or", "and");
    var g := Runs([x, y, z], ["or", "and"]);
    assert Group(g[0]) == x && Group(g[1]) == And([y, z]);
    assert Groups(g) == [x, And([y, z])];
  }
}
