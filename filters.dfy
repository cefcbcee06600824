/** The filter and attribute-path trees the parser builds (sections 3.4.2.2
    and 3.10 of RFC 7644), and the value semantics of the filter classes the
    SCIM SDK defines for them: ComparisonFilter (path, value, rendering),
    EndsWithFilter (structural equality and hash) and AndFilter (equality by
    containment of operands, list hash). */
module Filters {
  import opened Common
  import opened JsonScalar

  /** The nine attribute operators that take a comparison value. */
  datatype CompareOp = Eq | Ne | Co | Sw | Ew | Gt | Ge | Lt | Le

  /** One node of a filter tree.  `Comparison` stands for the ComparisonFilter
      subclasses (EqualFilter, ..., EndsWithFilter, ...), told apart by `op`. */
  datatype Filter =
    | Comparison(op: CompareOp, path: Path, value: JsonValue)
    | Present(path: Path)
    | And(operands: seq<Filter>)
    | Or(operands: seq<Filter>)
    | Not(operand: Filter)
    | HasComplexValue(path: Path, valueFilter: Filter)

  /** One attribute name of a path, with the value filter written in
      brackets after it, if any. */
  datatype Element = Element(name: string, valueFilter: Option<Filter>)

  /** An attribute path: an optional schema URN and the attribute names from
      the outermost in.  With no elements it is the root of the resource or
      of the extension named by the URN. */
  datatype Path = Path(schemaUrn: Option<string>, elements: seq<Element>)

  /** The type a filter reports through getFilterType. */
  datatype FilterType =
    | ComparisonType(op: CompareOp)
    | PresentType
    | AndType
    | OrType
    | NotType
    | ComplexValueType

  function GetFilterType(f: Filter): (t: FilterType)
    ensures f.Comparison? <==> t.ComparisonType?
    ensures f.Comparison? ==> t.op == f.op
    ensures f.And? <==> t == AndType
  {
    match f
    case Comparison(op, _, _) => ComparisonType(op)
    case Present(_) => PresentType
    case And(_) => AndType
    case Or(_) => OrType
    case Not(_) => NotType
    case HasComplexValue(_, _) => ComplexValueType
  }

  /** The string value of each operator's filter type: the keyword the
      filter grammar uses for it. */
  function Keyword(op: CompareOp): string {
    match op
    case Eq => "eq"
    case Ne => "ne"
    case Co => "co"
    case Sw => "sw"
    case Ew => "ew"
    case Gt => "gt"
    case Ge => "ge"
    case Lt => "lt"
    case Le => "le"
  }

  /** The operator a keyword names, compared without regard to case, as the
      parser's chain of equalsIgnoreCase tests does. */
  function ComparisonOp(token: string): (r: Option<CompareOp>)
    ensures r.Some? ==> EqualsIgnoreCase(token, Keyword(r.value))
  {
    if EqualsIgnoreCase(token, "eq") then Some(Eq)
    else if EqualsIgnoreCase(token, "ne") then Some(Ne)
    else if EqualsIgnoreCase(token, "co") then Some(Co)
    else if EqualsIgnoreCase(token, "sw") then Some(Sw)
    else if EqualsIgnoreCase(token, "ew") then Some(Ew)
    else if EqualsIgnoreCase(token, "gt") then Some(Gt)
    else if EqualsIgnoreCase(token, "ge") then Some(Ge)
    else if EqualsIgnoreCase(token, "lt") then Some(Lt)
    else if EqualsIgnoreCase(token, "le") then Some(Le)
    else None
  }

  /** A token is recognised exactly when it spells one of the nine keywords,
      in any case, and then it names that operator. */
  lemma ComparisonOpKeyword(token: string, op: CompareOp)
    ensures EqualsIgnoreCase(token, Keyword(op)) <==> ComparisonOp(token) == Some(op)
  {
    if EqualsIgnoreCase(token, Keyword(op)) {
      forall o: CompareOp | o != op ensures !EqualsIgnoreCase(token, Keyword(o)) {
        KeywordsDiffer(token, op, o);
      }
    }
  }

  lemma KeywordsDiffer(token: string, a: CompareOp, b: CompareOp)
    requires a != b && EqualsIgnoreCase(token, Keyword(a))
    ensures !EqualsIgnoreCase(token, Keyword(b))
  {
    var ka, kb := Keyword(a), Keyword(b);
    assert |ka| == 2 && |kb| == 2;
    assert ka[0] != kb[0] || ka[1] != kb[1];
    assert forall c: char :: 'a' <= c <= 'z' ==> LowerChar(c) == c;
  }

  // ---------------------------------------------------------------------
  // ComparisonFilter

  /** The ComparisonFilter constructor: a null comparison value is stored as
      the JSON null node.  The parser passes None for no value and the model
      of a JSON value otherwise. */
  function NewComparison(op: CompareOp, path: Path, value: Option<JsonValue>): (f: Filter)
    ensures IsComparisonFilter(f) && GetFilterType(f) == ComparisonType(op)
    ensures GetAttributePath(f) == path
    ensures value.Some? ==> GetComparisonValue(f) == value.value
    ensures value.None? ==> GetComparisonValue(f) == JNull
  {
    Comparison(op, path, if value.Some? then value.value else JNull)
  }

  function GetAttributePath(f: Filter): Path
    requires f.Comparison?
  {
    f.path
  }

  function GetComparisonValue(f: Filter): JsonValue
    requires f.Comparison?
  {
    f.value
  }

  predicate IsComparisonFilter(f: Filter) {
    f.Comparison?
  }

  /** The canonical text of a path whose elements carry no value filter:
      the schema URN and a colon, then the names joined by periods. */
  function PathText(p: Path): string {
    (if p.schemaUrn.Some? then p.schemaUrn.value + ":" else "") + NamesText(p.elements)
  }

  function NamesText(es: seq<Element>): string {
    if es == [] then ""
    else if |es| == 1 then es[0].name
    else es[0].name + "." + NamesText(es[1..])
  }

  /** ComparisonFilter.toString(builder): the path, a space, the operator
      keyword, a space and the text of the value, which the JSON reader
      reads back as that value, ending at the text's last character. */
  function ComparisonText(f: Filter): (text: string)
    requires f.Comparison?
    ensures var head := PathText(f.path) + " " + Keyword(f.op) + " ";
      && At(text, 0, head)
      && var r := Scan(text[|head|..]);
      r.Scanned? && r.value == f.value && |head| + r.offset == |text| - 1
  {
    var head := PathText(f.path) + " " + Keyword(f.op) + " ";
    var text := head + Render(f.value);
    AtSlice(text, 0, head);
    ScanRender(f.value, []);
    assert text[|head|..] == Render(f.value) + [];
    text
  }

  // ---------------------------------------------------------------------
  // Java int arithmetic for hash codes

  newtype int32 = x: int | -0x8000_0000 <= x < 0x8000_0000

  /** Two's-complement truncation of an int result to 32 bits. */
  function Wrap32(x: int): (r: int32)
    ensures (r as int - x) % 0x1_0000_0000 == 0
    ensures -0x8000_0000 <= x < 0x8000_0000 ==> r as int == x
  {
    var m := (x + 0x8000_0000) % 0x1_0000_0000;
    (m - 0x8000_0000) as int32
  }

  // ---------------------------------------------------------------------
  // EndsWithFilter

  predicate IsEndsWith(f: Filter) {
    f.Comparison? && f.op == Ew
  }

  /** EndsWithFilter.equals: `o` is None for a null argument.  Path and
      value nodes are compared structurally. */
  predicate EndsWithEquals(a: Filter, o: Option<Filter>)
    requires IsEndsWith(a)
  {
    o.Some? && IsEndsWith(o.value)
    && GetAttributePath(a) == GetAttributePath(o.value)
    && GetComparisonValue(a) == GetComparisonValue(o.value)
  }

  /** EndsWithFilter.hashCode: 31 times the path's hash plus the value's
      hash, in 32-bit arithmetic.  The hashes of Path and ValueNode are not
      part of this model and are parameters. */
  function EndsWithHash(a: Filter, pathHash: Path -> int32, valueHash: JsonValue -> int32): int32
    requires IsEndsWith(a)
  {
    Wrap32(31 * pathHash(GetAttributePath(a)) as int + valueHash(GetComparisonValue(a)) as int)
  }

  /** equals is false for null and for any filter that is not an
      EndsWithFilter; between two EndsWithFilters it holds exactly when the
      two are the same value, so it is reflexive, symmetric and transitive. */
  lemma EndsWithEqualsIsIdentity(a: Filter, o: Option<Filter>)
    requires IsEndsWith(a)
    ensures o.None? ==> !EndsWithEquals(a, o)
    ensures o.Some? && !IsEndsWith(o.value) ==> !EndsWithEquals(a, o)
    ensures o.Some? && IsEndsWith(o.value) ==> (EndsWithEquals(a, o) <==> a == o.value)
    ensures EndsWithEquals(a, Some(a))
  {
  }

  /** Equal EndsWithFilters have equal hash codes. */
  lemma EndsWithHashConsistent(a: Filter, b: Filter, pathHash: Path -> int32,
                               valueHash: JsonValue -> int32)
    requires IsEndsWith(a) && IsEndsWith(b) && EndsWithEquals(a, Some(b))
    ensures EndsWithHash(a, pathHash, valueHash) == EndsWithHash(b, pathHash, valueHash)
  {
  }

  // ---------------------------------------------------------------------
  // AndFilter

  /** AndFilter.equals: `a` holds every operand of `o` (List.containsAll).
      Operands are compared structurally. */
  predicate AndEquals(a: Filter, o: Option<Filter>)
    requires a.And?
  {
    o.Some? && o.value.And? && forall g :: g in o.value.operands ==> g in a.operands
  }

  /** List.hashCode of the operand list: 1, then 31 * h + hash(e) for each
      operand e in order, in 32-bit arithmetic.  The operands' own hashes are
      a parameter. */
  function AndHash(a: Filter, hash: Filter -> int32): int32
    requires a.And?
  {
    ListHash(a.operands, hash)
  }

  function ListHash(fs: seq<Filter>, hash: Filter -> int32): int32 {
    if fs == [] then 1 else Wrap32(31 * ListHash(Init(fs), hash) as int + hash(Last(fs)) as int)
  }

  /** Reordering the operands keeps the filters equal, in both directions. */
  lemma AndEqualsPermutation(a: Filter, b: Filter)
    requires a.And? && b.And? && multiset(a.operands) == multiset(b.operands)
    ensures AndEquals(a, Some(b)) && AndEquals(b, Some(a))
  {
    forall g | g in b.operands ensures g in a.operands {
      assert g in multiset(b.operands);
    }
    forall g | g in a.operands ensures g in b.operands {
      assert g in multiset(a.operands);
    }
  }

  /** Never equal to null or to a filter of another class, such as an OR of
      the same operands; always equal to itself. */
  lemma AndEqualsClass(a: Filter, o: Option<Filter>)
    requires a.And?
    ensures o.None? ==> !AndEquals(a, o)
    ensures o.Some? && !o.value.And? ==> !AndEquals(a, o)
    ensures !AndEquals(a, Some(Or(a.operands)))
    ensures AndEquals(a, Some(a))
  {
  }

  /** As written, equality is one-directional: an AND of two operands
      equals an AND of one of them, but not the other way round. */
  lemma AndEqualsNotSymmetric()
    ensures var x, y := Present(Path(None, [])), Present(Path(Some("urn"), []));
            AndEquals(And([x, y]), Some(And([x]))) && !AndEquals(And([x]), Some(And([x, y])))
  {
    var x, y := Present(Path(None, [])), Present(Path(Some("urn"), []));
    assert y in And([x, y]).operands && y !in And([x]).operands;
  }

  /** As written, the hash depends on operand order while equality does not:
      AND(x, y) and AND(y, x) are equal both ways, and their hash codes
      differ whenever the operands' hashes differ by anything but a multiple
      of 2^31. */
  lemma AndHashNotConsistent(x: Filter, y: Filter, hash: Filter -> int32)
    requires (hash(x) as int - hash(y) as int) % 0x8000_0000 != 0
    ensures AndEquals(And([x, y]), Some(And([y, x]))) && AndEquals(And([y, x]), Some(And([x, y])))
    ensures AndHash(And([x, y]), hash) != AndHash(And([y, x]), hash)
  {
    AndEqualsPermutation(And([x, y]), And([y, x]));
    AndHashSwap(x, y, hash);
  }

  /** Swapping two operands keeps the list hash exactly when their hashes
      differ by a multiple of 2^31: the two hashes differ by 30 times the
      difference of the operands' hashes, modulo 2^32. */
  lemma AndHashSwap(x: Filter, y: Filter, hash: Filter -> int32)
    ensures AndHash(And([x, y]), hash) == AndHash(And([y, x]), hash)
            <==> (hash(x) as int - hash(y) as int) % 0x8000_0000 == 0
  {
    var hx, hy := hash(x) as int, hash(y) as int;
    var a1, a := PairHash(x, y, hash);
    var b1, b := PairHash(y, x, hash);
    var k1 := Congruence(a1, 31 + hx);
    var k2 := Congruence(b1, 31 + hy);
    var k3 := Congruence(a, 31 * a1 + hy);
    var k4 := Congruence(b, 31 * b1 + hx);
    SwapDifference(a, b, hx - hy, 31 * (k1 - k2) + k3 - k4);
  }

  /** The list hash of [x, y], one Wrap32 at a time. */
  lemma PairHash(x: Filter, y: Filter, hash: Filter -> int32) returns (h1: int, h2: int)
    ensures h1 == Wrap32(31 + hash(x) as int) as int && h2 == ListHash([x, y], hash) as int
    ensures h2 == Wrap32(31 * h1 + hash(y) as int) as int
  {
    assert Init([x, y]) == [x] && Last([x, y]) == y && Init([x]) == [] && Last([x]) == x;
    var e: seq<Filter> := [];
    assert ListHash(e, hash) == 1;
    assert ListHash([x], hash) == Wrap32(31 * ListHash(e, hash) as int + hash(x) as int);
    h1 := ListHash([x], hash) as int;
    h2 := ListHash([x, y], hash) as int;
  }

  /** A Wrap32 result and its argument differ by k times 2^32. */
  lemma Congruence(r: int, v: int) returns (k: int)
    requires (r - v) % 0x1_0000_0000 == 0
    ensures r == v + 0x1_0000_0000 * k
  {
    k := (r - v) / 0x1_0000_0000;
  }

  /** Two 32-bit values that differ by 30 d plus a multiple of 2^32 are
      equal exactly when d is a multiple of 2^31.  15 times 0xEEEE_EEEF is
      1 plus 14 times 2^32, so 15 has an inverse modulo 2^32. */
  lemma SwapDifference(a: int, b: int, d: int, k: int)
    requires -0x8000_0000 <= a < 0x8000_0000 && -0x8000_0000 <= b < 0x8000_0000
    requires a - b == 30 * d + 0x1_0000_0000 * k
    ensures a == b <==> d % 0x8000_0000 == 0
  {
    if d % 0x8000_0000 == 0 {
      var q := d / 0x8000_0000;
      assert a - b == 0x1_0000_0000 * (15 * q + k);
    }
    if a == b {
      assert 15 * d == -0x8000_0000 * k;
      assert d == 0xEEEE_EEEF * (15 * d) - 14 * 0x1_0000_0000 * d;
      assert d == 0x8000_0000 * (-0xEEEE_EEEF * k - 28 * d);
    }
  }

  /** Equality of AND filters by containment in both directions: the same
      operands, in any order and number of repetitions. */
  predicate AndEqualsMutual(a: Filter, o: Option<Filter>)
    requires a.And?
  {
    o.Some? && o.value.And? && AndEquals(a, o) && AndEquals(o.value, Some(a))
  }

  /** The order-insensitive hash that goes with AndEqualsMutual: the 32-bit
      sum of the hashes of the distinct operands. */
  function AndHashMutual(a: Filter, hash: Filter -> int32): int32
    requires a.And?
  {
    Wrap32(DistinctSum(a.operands, hash))
  }

  /** The sum of the hashes of the operands, each distinct operand counted
      once, at its first occurrence. */
  function DistinctSum(fs: seq<Filter>, hash: Filter -> int32): int {
    if fs == [] then 0
    else DistinctSum(Init(fs), hash) + if Last(fs) in Init(fs) then 0 else hash(Last(fs)) as int
  }

  function OperandSet(a: Filter): set<Filter>
    requires a.And?
  {
    set g | g in a.operands
  }

  /** The sum of the hashes of a set, used to show that DistinctSum does
      not depend on order or repetition. */
  ghost function SetSum(fs: set<Filter>, hash: Filter -> int32): int {
    if fs == {} then 0
    else
      var g := Pick(fs);
      hash(g) as int + SetSum(fs - {g}, hash)
  }

  ghost function Pick(fs: set<Filter>): Filter
    requires fs != {}
  {
    var g :| g in fs; g
  }

  /** Any element can be taken out of a set's sum first. */
  lemma {:induction false} SetSumRemove(fs: set<Filter>, g: Filter, hash: Filter -> int32)
    requires g in fs
    ensures SetSum(fs, hash) == hash(g) as int + SetSum(fs - {g}, hash)
    decreases |fs|
  {
    var h := Pick(fs);
    if h != g {
      SetSumRemove(fs - {h}, g, hash);
      SetSumRemove(fs - {g}, h, hash);
      assert fs - {h} - {g} == fs - {g} - {h};
    }
  }

  /** DistinctSum is the sum over the set of operands. */
  lemma {:induction false} DistinctSumIsSetSum(fs: seq<Filter>, hash: Filter -> int32)
    ensures DistinctSum(fs, hash) == SetSum((set g | g in fs), hash)
    decreases |fs|
  {
    if fs != [] {
      var init, x := Init(fs), Last(fs);
      DistinctSumIsSetSum(init, hash);
      var si := set g | g in init;
      assert fs == init + [x];
      assert (set g | g in fs) == si + {x};
      if x in init {
        assert si + {x} == si;
      } else {
        SetSumRemove(si + {x}, x, hash);
        assert si + {x} - {x} == si;
      }
    }
  }

  /** Mutual containment is an equivalence, and it is the same thing as
      having the same set of operands. */
  lemma AndEqualsMutualIsSetEquality(a: Filter, b: Filter)
    requires a.And? && b.And?
    ensures AndEqualsMutual(a, Some(b)) <==> OperandSet(a) == OperandSet(b)
    ensures AndEqualsMutual(a, Some(b)) <==> AndEqualsMutual(b, Some(a))
    ensures AndEqualsMutual(a, Some(a))
  {
    var sa, sb := OperandSet(a), OperandSet(b);
    if AndEqualsMutual(a, Some(b)) {
      assert forall g :: g in sa <==> g in sb;
    }
    if sa == sb {
      assert forall g :: g in b.operands ==> g in sb;
      assert forall g :: g in a.operands ==> g in sa;
    }
  }

  /** Filters equal by mutual containment have equal hashes. */
  lemma AndHashMutualConsistent(a: Filter, b: Filter, hash: Filter -> int32)
    requires a.And? && b.And? && AndEqualsMutual(a, Some(b))
    ensures AndHashMutual(a, hash) == AndHashMutual(b, hash)
  {
    AndEqualsMutualIsSetEquality(a, b);
    DistinctSumIsSetSum(a.operands, hash);
    DistinctSumIsSetSum(b.operands, hash);
  }

  // ---------------------------------------------------------------------
  // Visitors

  /** The outcome of a visitor method: a value, or the exception it throws. */
  datatype Outcome<R> = Returned(value: R) | Thrown(message: string)

  /** A FilterVisitor, one method per filter class of this model; the
      classes outside it share `visitOther`. */
  datatype Visitor<R, !P> = Visitor(
    visitEndsWith: (Filter, P) -> Outcome<R>,
    visitAnd: (Filter, P) -> Outcome<R>,
    visitOther: (Filter, P) -> Outcome<R>)

  /** Filter.visit: double dispatch to the visitor method for the filter's
      class, whose outcome, thrown exceptions included, is passed on. */
  function Visit<R, P>(f: Filter, v: Visitor<R, P>, param: P): (r: Outcome<R>)
    ensures IsEndsWith(f) ==> r == v.visitEndsWith(f, param)
    ensures f.And? ==> r == v.visitAnd(f, param)
  {
    if IsEndsWith(f) then v.visitEndsWith(f, param)
    else if f.And? then v.visitAnd(f, param)
    else v.visitOther(f, param)
  }
}
