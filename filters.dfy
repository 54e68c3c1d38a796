/** Filters/Filter.php as the mutable builder it is: an object holding a list of
    conditions and a current property, whose operator methods append to the list
    in place and return the same object. Every method is proved against the
    value-level function of the same name in FilterBuilder. */
module Filters {
  import opened Wrappers
  import opened FilterSyntax
  import FilterBuilder

  /** The states of several builders, read at the moment they are combined. */
  function States(fs: seq<Filter>): (r: seq<FilterState>)
    reads fs
    ensures |r| == |fs|
    ensures forall i :: 0 <= i < |fs| ==> r[i] == fs[i].State()
  {
    seq(|fs|, i requires 0 <= i < |fs| reads fs => fs[i].State())
  }

  class Filter {
    /** `$conditions`. */
    var conditions: seq<Condition>
    /** `$currentProperty`; `None` is PHP's `null`. */
    var currentProperty: Option<string>

    /** The builder's fields as one value. */
    function State(): FilterState
      reads this
    {
      FilterState(conditions, currentProperty)
    }

    /** What a call that may throw did: on the exception nothing changed; otherwise
        the builder holds the state the value-level function computes and the call
        returned the builder itself. */
    twostate predicate Became(spec: Result<FilterState, FilterBuilder.FilterError>,
                              new r: Result<Filter, FilterBuilder.FilterError>)
      reads this
    {
      match spec
      case Failure(e) => r == Failure(e) && unchanged(this)
      case Success(s) => r == Success(this) && State() == s
    }

    /** `where($property)`. */
    constructor Where(property: string)
      ensures State() == FilterBuilder.Where(property)
    {
      conditions := [];
      currentProperty := Some(property);
    }

    /** `and(...$filters)`. The logical condition records the children's states. */
    constructor And(filters: seq<Filter>)
      ensures State() == FilterBuilder.And(States(filters))
    {
      conditions := [Logical(AndOp, States(filters))];
      currentProperty := None;
    }

    /** `or(...$filters)`. */
    constructor Or(filters: seq<Filter>)
      ensures State() == FilterBuilder.Or(States(filters))
    {
      conditions := [Logical(OrOp, States(filters))];
      currentProperty := None;
    }

    /** `addCondition($operator, $value)`: the guard, then one append. */
    method AddCondition(op: Operator, arg: Arg) returns (r: Result<Filter, FilterBuilder.FilterError>)
      modifies this
      ensures Became(FilterBuilder.AddCondition(old(State()), op, arg), r)
    {
      match currentProperty
      case None =>
        r := Failure(FilterBuilder.LogicException(FilterBuilder.NoPropertyMessage));
      case Some(p) =>
        conditions := conditions + [Comparison(p, op, arg)];
        r := Success(this);
    }

    method Equals(value: Value) returns (r: Result<Filter, FilterBuilder.FilterError>)
      modifies this
      ensures Became(FilterBuilder.Equals(old(State()), value), r)
    {
      r := AddCondition(EqOp, Single(value));
    }

    method Eq(value: Value) returns (r: Result<Filter, FilterBuilder.FilterError>)
      modifies this
      ensures Became(FilterBuilder.Eq(old(State()), value), r)
    {
      r := Equals(value);
    }

    method NotEquals(value: Value) returns (r: Result<Filter, FilterBuilder.FilterError>)
      modifies this
      ensures Became(FilterBuilder.NotEquals(old(State()), value), r)
    {
      r := AddCondition(NeOp, Single(value));
    }

    method Ne(value: Value) returns (r: Result<Filter, FilterBuilder.FilterError>)
      modifies this
      ensures Became(FilterBuilder.Ne(old(State()), value), r)
    {
      r := NotEquals(value);
    }

    method GreaterThan(value: FilterBuilder.Ordered) returns (r: Result<Filter, FilterBuilder.FilterError>)
      modifies this
      ensures Became(FilterBuilder.GreaterThan(old(State()), value), r)
    {
      r := AddCondition(GtOp, Single(value));
    }

    method Gt(value: FilterBuilder.Ordered) returns (r: Result<Filter, FilterBuilder.FilterError>)
      modifies this
      ensures Became(FilterBuilder.Gt(old(State()), value), r)
    {
      r := GreaterThan(value);
    }

    method GreaterThanOrEqual(value: FilterBuilder.Ordered) returns (r: Result<Filter, FilterBuilder.FilterError>)
      modifies this
      ensures Became(FilterBuilder.GreaterThanOrEqual(old(State()), value), r)
    {
      r := AddCondition(GeOp, Single(value));
    }

    method Gte(value: FilterBuilder.Ordered) returns (r: Result<Filter, FilterBuilder.FilterError>)
      modifies this
      ensures Became(FilterBuilder.Gte(old(State()), value), r)
    {
      r := GreaterThanOrEqual(value);
    }

    method LessThan(value: FilterBuilder.Ordered) returns (r: Result<Filter, FilterBuilder.FilterError>)
      modifies this
      ensures Became(FilterBuilder.LessThan(old(State()), value), r)
    {
      r := AddCondition(LtOp, Single(value));
    }

    method Lt(value: FilterBuilder.Ordered) returns (r: Result<Filter, FilterBuilder.FilterError>)
      modifies this
      ensures Became(FilterBuilder.Lt(old(State()), value), r)
    {
      r := LessThan(value);
    }

    method LessThanOrEqual(value: FilterBuilder.Ordered) returns (r: Result<Filter, FilterBuilder.FilterError>)
      modifies this
      ensures Became(FilterBuilder.LessThanOrEqual(old(State()), value), r)
    {
      r := AddCondition(LeOp, Single(value));
    }

    method Lte(value: FilterBuilder.Ordered) returns (r: Result<Filter, FilterBuilder.FilterError>)
      modifies this
      ensures Became(FilterBuilder.Lte(old(State()), value), r)
    {
      r := LessThanOrEqual(value);
    }

    method Like(pattern: string) returns (r: Result<Filter, FilterBuilder.FilterError>)
      modifies this
      ensures Became(FilterBuilder.Like(old(State()), pattern), r)
    {
      r := AddCondition(LikeOp, Single(StrValue(pattern)));
    }

    method In(values: seq<Value>) returns (r: Result<Filter, FilterBuilder.FilterError>)
      modifies this
      ensures Became(FilterBuilder.In(old(State()), values), r)
    {
      r := AddCondition(InOp, Many(values));
    }

    method NotIn(values: seq<Value>) returns (r: Result<Filter, FilterBuilder.FilterError>)
      modifies this
      ensures Became(FilterBuilder.NotIn(old(State()), values), r)
    {
      r := AddCondition(NotInOp, Many(values));
    }

    method IsNull() returns (r: Result<Filter, FilterBuilder.FilterError>)
      modifies this
      ensures Became(FilterBuilder.IsNull(old(State())), r)
    {
      r := AddCondition(IsNullOp, NoValue);
    }

    method IsNotNull() returns (r: Result<Filter, FilterBuilder.FilterError>)
      modifies this
      ensures Became(FilterBuilder.IsNotNull(old(State())), r)
    {
      r := AddCondition(IsNotNullOp, NoValue);
    }

    method Contains(value: string) returns (r: Result<Filter, FilterBuilder.FilterError>)
      modifies this
      ensures Became(FilterBuilder.Contains(old(State()), value), r)
    {
      r := AddCondition(ContainsOp, Single(StrValue(value)));
    }

    method ContainsAny(values: seq<Value>) returns (r: Result<Filter, FilterBuilder.FilterError>)
      modifies this
      ensures Became(FilterBuilder.ContainsAny(old(State()), values), r)
    {
      r := AddCondition(ContainsAnyOp, Many(values));
    }

    method ContainsAll(values: seq<Value>) returns (r: Result<Filter, FilterBuilder.FilterError>)
      modifies this
      ensures Became(FilterBuilder.ContainsAll(old(State()), values), r)
    {
      r := AddCondition(ContainsAllOp, Many(values));
    }

    method ContainsExactly(values: seq<Value>) returns (r: Result<Filter, FilterBuilder.FilterError>)
      modifies this
      ensures Became(FilterBuilder.ContainsExactly(old(State()), values), r)
    {
      r := AddCondition(ContainsExactlyOp, Many(values));
    }

    method IsEmpty() returns (r: Result<Filter, FilterBuilder.FilterError>)
      modifies this
      ensures Became(FilterBuilder.IsEmpty(old(State())), r)
    {
      r := AddCondition(IsEmptyOp, NoValue);
    }

    /** `andWhere($property)`: only the current property moves. */
    method AndWhere(property: string) returns (r: Filter)
      modifies this
      ensures r == this
      ensures State() == FilterBuilder.AndWhere(old(State()), property)
    {
      currentProperty := Some(property);
      r := this;
    }

    /** `toString()` and `__toString()`: a function of the fields, so it changes
        nothing and two calls on an unchanged builder agree; the text is empty
        exactly when the builder holds no condition. */
    function ToString(): (r: string)
      reads this
      ensures r == "" <==> conditions == []
    {
      FilterSyntax.ToString(State())
    }
  }

  /** `where('a')->eq(1)->ne(2)` on one object: both calls return that object, the
      property stays `a`, and the builder ends with two conditions on `a`, in order. */
  method ChainOnOneObject() returns (f: Filter)
    ensures fresh(f)
    ensures f.conditions == [Comparison("a", EqOp, Single(IntValue(1))), Comparison("a", NeOp, Single(IntValue(2)))]
    ensures f.currentProperty == Some("a")
  {
    f := new Filter.Where("a");
    var r1 := f.Eq(IntValue(1));
    assert r1 == Success(f);
    var r2 := f.Ne(IntValue(2));
    assert r2 == Success(f);
  }

  /** Wrapping builders copies their state: a child changed after `and()` does
      not change the combined builder in this model (PHP keeps a reference). */
  method CombineThenChange() returns (a: Filter, c: Filter)
    ensures fresh(a) && fresh(c) && a != c
    ensures a.conditions == [Comparison("x", EqOp, Single(BoolValue(true)))]
    ensures c.conditions == [Logical(AndOp, [FilterBuilder.Where("x")])]
  {
    a := new Filter.Where("x");
    c := new Filter.And([a]);
    assert States([a]) == [FilterBuilder.Where("x")];
    var r := a.Equals(BoolValue(true));
  }
}
