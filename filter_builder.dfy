/** The builder half of Filters/Filter.php on values: `where`, `and`, `or`, the
    operator methods, `andWhere` and `addCondition`, each taking the state of a
    builder and giving the state it leaves behind (or the LogicException it throws).
    The class in module Filters is proved against these functions. */
module FilterBuilder {
  import opened Wrappers
  import opened Text
  import opened FilterSyntax

  /** The exception `addCondition` throws. */
  datatype FilterError = LogicException(message: string)

  const NoPropertyMessage: string :=
    "Cannot add condition without a property. Use where() or a property method first."

  /** The values `greaterThan`/`lessThan` and their kin accept: `string|int`. */
  type Ordered = v: Value | v.StrValue? || v.IntValue? witness StrValue("")

  /** A builder that has just been started on property `p`. */
  predicate StartedOn(f: FilterState, p: string)
  {
    f.conditions == [] && f.currentProperty == Some(p)
  }

  /** What `addCondition` promises: it throws exactly when there is no current
      property; otherwise it appends one comparison on the current property,
      keeps the earlier conditions in order and keeps the current property. */
  predicate Appends(f: FilterState, op: Operator, arg: Arg, r: Result<FilterState, FilterError>)
  {
    (r.Failure? <==> f.currentProperty.None?) &&
    (r.Failure? ==> r.error == LogicException(NoPropertyMessage)) &&
    (r.Success? ==>
       && |r.value.conditions| == |f.conditions| + 1
       && r.value.conditions[..|f.conditions|] == f.conditions
       && r.value.conditions[|f.conditions|] == Comparison(f.currentProperty.value, op, arg)
       && r.value.currentProperty == f.currentProperty)
  }

  /** `where($property)`: a fresh builder whose current property is `$property`. */
  function Where(property: string): (f: FilterState)
    ensures StartedOn(f, property)
    ensures ToString(f) == ""
  {
    FilterState([], Some(property))
  }

  /** `and(...$filters)`: a fresh builder holding one logical `and` over the filters,
      with no current property. */
  function And(filters: seq<FilterState>): (f: FilterState)
    ensures f.currentProperty == None
    ensures ToString(f) == "and(" + Join(", ", ChildStrings(filters)) + ")"
  {
    RenderLogical(AndOp, filters);
    FilterState([Logical(AndOp, filters)], None)
  }

  /** `or(...$filters)`, as `and` with the `or` operator. */
  function Or(filters: seq<FilterState>): (f: FilterState)
    ensures f.currentProperty == None
    ensures ToString(f) == "or(" + Join(", ", ChildStrings(filters)) + ")"
  {
    RenderLogical(OrOp, filters);
    FilterState([Logical(OrOp, filters)], None)
  }

  /** `addCondition($operator, $value)`. */
  function AddCondition(f: FilterState, op: Operator, arg: Arg): (r: Result<FilterState, FilterError>)
    ensures Appends(f, op, arg, r)
  {
    match f.currentProperty
    case None => Failure(LogicException(NoPropertyMessage))
    case Some(p) =>
      var cs := f.conditions + [Comparison(p, op, arg)];
      assert cs[..|f.conditions|] == f.conditions;
      Success(FilterState(cs, f.currentProperty))
  }

  function Equals(f: FilterState, value: Value): (r: Result<FilterState, FilterError>)
    ensures Appends(f, EqOp, Single(value), r)
  {
    AddCondition(f, EqOp, Single(value))
  }

  function Eq(f: FilterState, value: Value): (r: Result<FilterState, FilterError>)
    ensures Appends(f, EqOp, Single(value), r)
  {
    Equals(f, value)
  }

  function NotEquals(f: FilterState, value: Value): (r: Result<FilterState, FilterError>)
    ensures Appends(f, NeOp, Single(value), r)
  {
    AddCondition(f, NeOp, Single(value))
  }

  function Ne(f: FilterState, value: Value): (r: Result<FilterState, FilterError>)
    ensures Appends(f, NeOp, Single(value), r)
  {
    NotEquals(f, value)
  }

  function GreaterThan(f: FilterState, value: Ordered): (r: Result<FilterState, FilterError>)
    ensures Appends(f, GtOp, Single(value), r)
  {
    AddCondition(f, GtOp, Single(value))
  }

  function Gt(f: FilterState, value: Ordered): (r: Result<FilterState, FilterError>)
    ensures Appends(f, GtOp, Single(value), r)
  {
    GreaterThan(f, value)
  }

  function GreaterThanOrEqual(f: FilterState, value: Ordered): (r: Result<FilterState, FilterError>)
    ensures Appends(f, GeOp, Single(value), r)
  {
    AddCondition(f, GeOp, Single(value))
  }

  function Gte(f: FilterState, value: Ordered): (r: Result<FilterState, FilterError>)
    ensures Appends(f, GeOp, Single(value), r)
  {
    GreaterThanOrEqual(f, value)
  }

  function LessThan(f: FilterState, value: Ordered): (r: Result<FilterState, FilterError>)
    ensures Appends(f, LtOp, Single(value), r)
  {
    AddCondition(f, LtOp, Single(value))
  }

  function Lt(f: FilterState, value: Ordered): (r: Result<FilterState, FilterError>)
    ensures Appends(f, LtOp, Single(value), r)
  {
    LessThan(f, value)
  }

  function LessThanOrEqual(f: FilterState, value: Ordered): (r: Result<FilterState, FilterError>)
    ensures Appends(f, LeOp, Single(value), r)
  {
    AddCondition(f, LeOp, Single(value))
  }

  function Lte(f: FilterState, value: Ordered): (r: Result<FilterState, FilterError>)
    ensures Appends(f, LeOp, Single(value), r)
  {
    LessThanOrEqual(f, value)
  }

  function Like(f: FilterState, pattern: string): (r: Result<FilterState, FilterError>)
    ensures Appends(f, LikeOp, Single(StrValue(pattern)), r)
  {
    AddCondition(f, LikeOp, Single(StrValue(pattern)))
  }

  function In(f: FilterState, values: seq<Value>): (r: Result<FilterState, FilterError>)
    ensures Appends(f, InOp, Many(values), r)
  {
    AddCondition(f, InOp, Many(values))
  }

  function NotIn(f: FilterState, values: seq<Value>): (r: Result<FilterState, FilterError>)
    ensures Appends(f, NotInOp, Many(values), r)
  {
    AddCondition(f, NotInOp, Many(values))
  }

  function IsNull(f: FilterState): (r: Result<FilterState, FilterError>)
    ensures Appends(f, IsNullOp, NoValue, r)
  {
    AddCondition(f, IsNullOp, NoValue)
  }

  function IsNotNull(f: FilterState): (r: Result<FilterState, FilterError>)
    ensures Appends(f, IsNotNullOp, NoValue, r)
  {
    AddCondition(f, IsNotNullOp, NoValue)
  }

  function Contains(f: FilterState, value: string): (r: Result<FilterState, FilterError>)
    ensures Appends(f, ContainsOp, Single(StrValue(value)), r)
  {
    AddCondition(f, ContainsOp, Single(StrValue(value)))
  }

  function ContainsAny(f: FilterState, values: seq<Value>): (r: Result<FilterState, FilterError>)
    ensures Appends(f, ContainsAnyOp, Many(values), r)
  {
    AddCondition(f, ContainsAnyOp, Many(values))
  }

  function ContainsAll(f: FilterState, values: seq<Value>): (r: Result<FilterState, FilterError>)
    ensures Appends(f, ContainsAllOp, Many(values), r)
  {
    AddCondition(f, ContainsAllOp, Many(values))
  }

  function ContainsExactly(f: FilterState, values: seq<Value>): (r: Result<FilterState, FilterError>)
    ensures Appends(f, ContainsExactlyOp, Many(values), r)
  {
    AddCondition(f, ContainsExactlyOp, Many(values))
  }

  function IsEmpty(f: FilterState): (r: Result<FilterState, FilterError>)
    ensures Appends(f, IsEmptyOp, NoValue, r)
  {
    AddCondition(f, IsEmptyOp, NoValue)
  }

  /** `andWhere($property)`: moves the current property, adds nothing, never throws. */
  function AndWhere(f: FilterState, property: string): (r: FilterState)
    ensures r.conditions == f.conditions
    ensures r.currentProperty == Some(property)
    ensures ToString(r) == ToString(f)
  {
    f.(currentProperty := Some(property))
  }

  // ---------------------------------------------------------------------------
  // Properties relating several calls
  // ---------------------------------------------------------------------------

  /** A fresh `where` builder accepts every operator. */
  lemma WhereAcceptsEveryOperator(p: string, op: Operator, arg: Arg)
    ensures AddCondition(Where(p), op, arg) == Success(FilterState([Comparison(p, op, arg)], Some(p)))
  {
    var r := AddCondition(Where(p), op, arg);
    assert r.value.conditions == [Comparison(p, op, arg)];
  }

  /** The short names are aliases: each gives what its long form gives, on every
      builder and value, exception included. */
  lemma AliasesAgree(f: FilterState, v: Value, o: Ordered)
    ensures Eq(f, v) == Equals(f, v)
    ensures Ne(f, v) == NotEquals(f, v)
    ensures Gt(f, o) == GreaterThan(f, o)
    ensures Gte(f, o) == GreaterThanOrEqual(f, o)
    ensures Lt(f, o) == LessThan(f, o)
    ensures Lte(f, o) == LessThanOrEqual(f, o)
  {
  }

  /** A builder made by `and`/`or` has no current property, so every operator
      throws on it and nothing is appended until `andWhere` sets one. */
  lemma LogicalRejectsEveryOperator(fs: seq<FilterState>, op: Operator, arg: Arg)
    ensures AddCondition(And(fs), op, arg) == Failure(LogicException(NoPropertyMessage))
    ensures AddCondition(Or(fs), op, arg) == Failure(LogicException(NoPropertyMessage))
  {
  }

  /** After `andWhere`, an and/or builder accepts operators again, and the new
      condition follows the logical one. */
  lemma AndWhereReenables(fs: seq<FilterState>, p: string, op: Operator, arg: Arg)
    ensures AddCondition(AndWhere(And(fs), p), op, arg)
         == Success(FilterState([Logical(AndOp, fs), Comparison(p, op, arg)], Some(p)))
  {
    var r := AddCondition(AndWhere(And(fs), p), op, arg);
    assert r.value.conditions == [Logical(AndOp, fs), Comparison(p, op, arg)];
  }

  /** One step of a chain of operator calls on the same builder. */
  datatype Step = Step(op: Operator, arg: Arg)

  /** Applies a chain of operator calls; the first exception ends the chain. */
  function ApplyAll(f: FilterState, steps: seq<Step>): Result<FilterState, FilterError>
    decreases |steps|
  {
    if |steps| == 0 then Success(f)
    else
      match AddCondition(f, steps[0].op, steps[0].arg)
      case Failure(e) => Failure(e)
      case Success(g) => ApplyAll(g, steps[1..])
  }

  /** The comparisons a chain of calls appends on property `p`. */
  function ComparisonsOn(p: string, steps: seq<Step>): (cs: seq<Condition>)
    ensures |cs| == |steps|
  {
    if |steps| == 0 then []
    else
      var rest := steps[1..];
      [Comparison(p, steps[0].op, steps[0].arg)] + ComparisonsOn(p, rest)
  }

  /** The i-th comparison of a chain is the i-th call on `p`. */
  lemma {:induction false} ComparisonsOnAt(p: string, steps: seq<Step>, i: nat)
    requires i < |steps|
    ensures |ComparisonsOn(p, steps)| == |steps|
    ensures ComparisonsOn(p, steps)[i] == Comparison(p, steps[i].op, steps[i].arg)
    decreases |steps|
  {
    if i > 0 {
      ComparisonsOnAt(p, steps[1..], i - 1);
    }
  }

  /** The first call of a chain on a builder with a current property appends its comparison. */
  lemma ApplyFirst(f: FilterState, steps: seq<Step>)
    requires f.currentProperty.Some? && |steps| > 0
    ensures ApplyAll(f, steps)
         == ApplyAll(FilterState(f.conditions + [Comparison(f.currentProperty.value, steps[0].op, steps[0].arg)], f.currentProperty), steps[1..])
  {
  }

  /** Chaining operators on a builder with a current property never throws, appends
      one comparison per call, all on that property and in call order, and keeps the
      property: `where('a')->eq(1)->ne(2)` holds two conditions on `a`. */
  lemma {:induction false} ChainAppendsInOrder(f: FilterState, steps: seq<Step>)
    requires f.currentProperty.Some?
    ensures ApplyAll(f, steps)
         == Success(FilterState(f.conditions + ComparisonsOn(f.currentProperty.value, steps), f.currentProperty))
    decreases |steps|
  {
    var p := f.currentProperty.value;
    if |steps| > 0 {
      var c := Comparison(p, steps[0].op, steps[0].arg);
      var g := FilterState(f.conditions + [c], f.currentProperty);
      ApplyFirst(f, steps);
      ChainAppendsInOrder(g, steps[1..]);
      var rest := ComparisonsOn(p, steps[1..]);
      assert f.conditions + ComparisonsOn(p, steps) == g.conditions + rest;
    } else {
      assert f.conditions + ComparisonsOn(p, steps) == f.conditions;
    }
  }

  /** On a builder with no current property a non-empty chain throws at its first call. */
  lemma ChainWithoutPropertyThrows(f: FilterState, steps: seq<Step>)
    requires f.currentProperty.None? && |steps| > 0
    ensures ApplyAll(f, steps) == Failure(LogicException(NoPropertyMessage))
  {
  }

  // ---------------------------------------------------------------------------
  // Rendering a freshly started builder after one operator call
  // ---------------------------------------------------------------------------

  /** `where(p)->op(v)` renders as `p.op(t)` when `v` formats as `t`. */
  lemma OneValue(p: string, op: Operator, v: Value, t: string)
    requires Token(op) !in NoValueTokens && FormatValue(v) == t
    ensures AddCondition(Where(p), op, Single(v)).Success?
    ensures ToString(AddCondition(Where(p), op, Single(v)).value) == Call(p, Token(op), t)
  {
    WhereAcceptsEveryOperator(p, op, Single(v));
    RenderSingle(p, op, v);
  }

  /** `where(p)->op([v1, ..])` renders as `p.op(t1, ..)` when each `vi` formats as `ti`. */
  lemma ManyValues(p: string, op: Operator, vs: seq<Value>, ts: seq<string>)
    requires Token(op) !in NoValueTokens && FormatValues(vs) == ts
    ensures AddCondition(Where(p), op, Many(vs)).Success?
    ensures ToString(AddCondition(Where(p), op, Many(vs)).value) == Call(p, Token(op), Join(", ", ts))
  {
    WhereAcceptsEveryOperator(p, op, Many(vs));
    RenderMany(p, op, vs);
  }

  /** `where(p)->op('s')` for a string without quotes renders as `p.op('s')`. */
  lemma OneString(p: string, op: Operator, s: string)
    requires Token(op) !in NoValueTokens && '\'' !in s
    ensures AddCondition(Where(p), op, Single(StrValue(s))).Success?
    ensures ToString(AddCondition(Where(p), op, Single(StrValue(s))).value) == Call(p, Token(op), Quote(s))
  {
    QuotedPlain(s);
    OneValue(p, op, StrValue(s), Quote(s));
  }

  /** `where(p)->op(['a', 'b'])` for strings without quotes. */
  lemma TwoStrings(p: string, op: Operator, a: string, b: string)
    requires Token(op) !in NoValueTokens && '\'' !in a && '\'' !in b
    ensures AddCondition(Where(p), op, Many(StrValues([a, b]))).Success?
    ensures ToString(AddCondition(Where(p), op, Many(StrValues([a, b]))).value)
         == Call(p, Token(op), Quote(a) + ", " + Quote(b))
  {
    var ss := [a, b];
    QuotedPlainAll(ss);
    ManyValues(p, op, StrValues(ss), Quoted(ss));
    assert Quoted(ss) == [Quote(a), Quote(b)];
    JoinTwo(", ", Quote(a), Quote(b));
  }

  /** `where(p)->op(['a', 'b', 'c'])` for strings without quotes. */
  lemma ThreeStrings(p: string, op: Operator, a: string, b: string, c: string)
    requires Token(op) !in NoValueTokens && '\'' !in a && '\'' !in b && '\'' !in c
    ensures AddCondition(Where(p), op, Many(StrValues([a, b, c]))).Success?
    ensures ToString(AddCondition(Where(p), op, Many(StrValues([a, b, c]))).value)
         == Call(p, Token(op), Quote(a) + ", " + Quote(b) + ", " + Quote(c))
  {
    var ss := [a, b, c];
    QuotedPlainAll(ss);
    ManyValues(p, op, StrValues(ss), Quoted(ss));
    assert Quoted(ss) == [Quote(a), Quote(b), Quote(c)];
    JoinThree(", ", Quote(a), Quote(b), Quote(c));
  }

  /** `where(p)->op(['a', 'b', 'c', 'd'])` for strings without quotes. */
  lemma FourStrings(p: string, op: Operator, a: string, b: string, c: string, d: string)
    requires Token(op) !in NoValueTokens && '\'' !in a && '\'' !in b && '\'' !in c && '\'' !in d
    ensures AddCondition(Where(p), op, Many(StrValues([a, b, c, d]))).Success?
    ensures ToString(AddCondition(Where(p), op, Many(StrValues([a, b, c, d]))).value)
         == Call(p, Token(op), Quote(a) + ", " + Quote(b) + ", " + Quote(c) + ", " + Quote(d))
  {
    var ss := [a, b, c, d];
    QuotedPlainAll(ss);
    ManyValues(p, op, StrValues(ss), Quoted(ss));
    assert Quoted(ss) == [Quote(a), Quote(b), Quote(c), Quote(d)];
    JoinFour(", ", Quote(a), Quote(b), Quote(c), Quote(d));
  }

  /** `where(p)->op([a, b, c])` for integers: their decimal forms, comma-separated. */
  lemma ThreeInts(p: string, op: Operator, a: Int64, b: Int64, c: Int64)
    requires Token(op) !in NoValueTokens
    ensures AddCondition(Where(p), op, Many([IntValue(a), IntValue(b), IntValue(c)])).Success?
    ensures ToString(AddCondition(Where(p), op, Many([IntValue(a), IntValue(b), IntValue(c)])).value)
         == Call(p, Token(op), IntToString(a) + ", " + IntToString(b) + ", " + IntToString(c))
  {
    var vs := [IntValue(a), IntValue(b), IntValue(c)];
    var ts := [IntToString(a), IntToString(b), IntToString(c)];
    assert FormatValues(vs) == ts;
    ManyValues(p, op, vs, ts);
    JoinThree(", ", ts[0], ts[1], ts[2]);
  }

  /** `where(p)->isNull()` and its kin render as `p.op()`. */
  lemma NoValueCall(p: string, op: Operator)
    requires Token(op) in NoValueTokens
    ensures AddCondition(Where(p), op, NoValue).Success?
    ensures ToString(AddCondition(Where(p), op, NoValue).value) == Call(p, Token(op), "")
  {
    WhereAcceptsEveryOperator(p, op, NoValue);
    RenderNoValue(p, op, NoValue);
  }

  /** The text of an `and` over two filters with known texts. */
  lemma AndOfTwo(a: FilterState, b: FilterState, ta: string, tb: string)
    requires ToString(a) == ta && ToString(b) == tb
    ensures ToString(And([a, b])) == "and(" + ta + ", " + tb + ")"
  {
    ChildTexts([a, b], [ta, tb]);
    assert [ta, tb] == [ta] + [tb];
    JoinCons(", ", ta, [tb]);
  }

  /** The text of an `or` over two filters with known texts. */
  lemma OrOfTwo(a: FilterState, b: FilterState, ta: string, tb: string)
    requires ToString(a) == ta && ToString(b) == tb
    ensures ToString(Or([a, b])) == "or(" + ta + ", " + tb + ")"
  {
    ChildTexts([a, b], [ta, tb]);
    assert [ta, tb] == [ta] + [tb];
    JoinCons(", ", ta, [tb]);
  }

  /** The children of an and/or, rendered. */
  lemma ChildTexts(fs: seq<FilterState>, texts: seq<string>)
    requires |fs| == |texts|
    requires forall i :: 0 <= i < |fs| ==> ToString(fs[i]) == texts[i]
    ensures ChildStrings(fs) == texts
  {
    ChildStringsAll(fs);
  }
}
