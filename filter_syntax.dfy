/** The pure half of Filters/Filter.php: the condition tree a filter builder
    holds and its serialisation into the controller's filter text
    (`toString`, `buildFilterString`, `buildComparisonString`, `formatValue`). */
module FilterSyntax {
  import opened Wrappers
  import opened Text
  import opened Enums

  /** PHP's native integer: 64-bit, two's complement. */
  type Int64 = i: int | -0x8000_0000_0000_0000 <= i < 0x8000_0000_0000_0000

  /** A value handed to an operator method: `string|int|bool|\BackedEnum`. */
  datatype Value = StrValue(s: string) | IntValue(i: Int64) | BoolValue(b: bool) | EnumValue(e: BackedEnum)

  /** The comparison operators, one per operator method (aliases share one). */
  datatype Operator =
    | EqOp | NeOp | GtOp | GeOp | LtOp | LeOp | LikeOp | InOp | NotInOp | IsNullOp | IsNotNullOp
    | ContainsOp | ContainsAnyOp | ContainsAllOp | ContainsExactlyOp | IsEmptyOp

  /** The operator token written into the filter text. */
  function Token(op: Operator): (t: string)
  {
    match op
    case EqOp => "eq"
    case NeOp => "ne"
    case GtOp => "gt"
    case GeOp => "ge"
    case LtOp => "lt"
    case LeOp => "le"
    case LikeOp => "like"
    case InOp => "in"
    case NotInOp => "notIn"
    case IsNullOp => "isNull"
    case IsNotNullOp => "isNotNull"
    case ContainsOp => "contains"
    case ContainsAnyOp => "containsAny"
    case ContainsAllOp => "containsAll"
    case ContainsExactlyOp => "containsExactly"
    case IsEmptyOp => "isEmpty"
  }

  /** The operator a token stands for: the inverse of Token. */
  function TokenOperator(t: string): (r: Option<Operator>)
    ensures r.Some? ==> Token(r.value) == t
  {
    if t == "eq" then Some(EqOp) else if t == "ne" then Some(NeOp)
    else if t == "gt" then Some(GtOp) else if t == "ge" then Some(GeOp)
    else if t == "lt" then Some(LtOp) else if t == "le" then Some(LeOp)
    else if t == "like" then Some(LikeOp) else if t == "in" then Some(InOp)
    else if t == "notIn" then Some(NotInOp) else if t == "isNull" then Some(IsNullOp)
    else if t == "isNotNull" then Some(IsNotNullOp) else if t == "contains" then Some(ContainsOp)
    else if t == "containsAny" then Some(ContainsAnyOp) else if t == "containsAll" then Some(ContainsAllOp)
    else if t == "containsExactly" then Some(ContainsExactlyOp) else if t == "isEmpty" then Some(IsEmptyOp)
    else None
  }

  /** Every token reads back as its operator, so no two operators share a token. */
  lemma TokenRoundTrip(op: Operator)
    ensures TokenOperator(Token(op)) == Some(op)
  {
  }

  lemma TokenInjective(a: Operator, b: Operator)
    requires Token(a) == Token(b)
    ensures a == b
  {
    TokenRoundTrip(a);
    TokenRoundTrip(b);
  }

  /** The tokens written as `p.op()` whatever value the condition carries. */
  const NoValueTokens: seq<string> := ["isNull", "isNotNull", "isEmpty"]

  /** What a comparison carries: nothing (the `null` of isNull/isNotNull/isEmpty),
      one value, or the array of an `in`-style operator. */
  datatype Arg = NoValue | Single(value: Value) | Many(values: seq<Value>)

  datatype LogicalOp = AndOp | OrOp

  function LogicalToken(op: LogicalOp): string
  {
    match op
    case AndOp => "and"
    case OrOp => "or"
  }

  /** One entry of a filter's `$conditions` array. A logical entry holds the
      filters it combines; here they are copies of their state when combined. */
  datatype Condition =
    | Comparison(property: string, op: Operator, arg: Arg)
    | Logical(lop: LogicalOp, filters: seq<FilterState>)

  /** The state of one filter builder: its conditions and its current property. */
  datatype FilterState = FilterState(conditions: seq<Condition>, currentProperty: Option<string>)

  // ---------------------------------------------------------------------------
  // formatValue
  // ---------------------------------------------------------------------------

  /** What `str_replace("'", "\\'", $s)` puts in place of one character. */
  function EscapeChar(c: char): string
  {
    if c == '\'' then "\\'" else [c]
  }

  /** `str_replace("'", "\\'", $s)`: a backslash before every single quote, nothing else. */
  function Escape(s: string): (r: string)
  {
    Concat(seq(|s|, i requires 0 <= i < |s| => EscapeChar(s[i])))
  }

  /** Escaping works character by character, from the left. */
  lemma EscapeCons(s: string)
    ensures |s| == 0 ==> Escape(s) == ""
    ensures |s| > 0 ==> Escape(s) == EscapeChar(s[0]) + Escape(s[1..])
  {
    if |s| > 0 {
      var ps := seq(|s|, i requires 0 <= i < |s| => EscapeChar(s[i]));
      assert ps[1..] == seq(|s[1..]|, i requires 0 <= i < |s[1..]| => EscapeChar(s[1..][i]));
    }
  }

  /** Escaping lengthens a string by one character per quote in it. */
  lemma {:induction false} EscapeLength(s: string)
    ensures |Escape(s)| == |s| + multiset(s)['\'']
  {
    EscapeCons(s);
    if |s| > 0 {
      EscapeLength(s[1..]);
      assert s == [s[0]] + s[1..];
    }
  }

  /** Undoes Escape: drops the backslash of every `\'`. */
  function Unescape(s: string): string
    decreases |s|
  {
    if |s| == 0 then ""
    else if |s| >= 2 && s[0] == '\\' && s[1] == '\'' then "'" + Unescape(s[2..])
    else [s[0]] + Unescape(s[1..])
  }

  /** An escaped string never starts with a bare quote. */
  lemma {:induction false} EscapeFirst(s: string)
    ensures |Escape(s)| > 0 ==> Escape(s)[0] != '\''
  {
    EscapeCons(s);
  }

  /** Unescaping an escaped string gives the original back. */
  lemma {:induction false} EscapeRoundTrip(s: string)
    ensures Unescape(Escape(s)) == s
    decreases |s|
  {
    EscapeCons(s);
    if |s| > 0 {
      var rest := Escape(s[1..]);
      EscapeRoundTrip(s[1..]);
      if s[0] == '\'' {
        var e := "\\'" + rest;
        assert e[2..] == rest;
      } else {
        var e := [s[0]] + rest;
        EscapeFirst(s[1..]);
        assert e[1..] == rest;
        assert !(|e| >= 2 && e[0] == '\\' && e[1] == '\'');
      }
      assert s == [s[0]] + s[1..];
    }
  }

  /** Every quote of an escaped string sits right behind a backslash. */
  lemma {:induction false} EscapedQuotesArePrefixed(s: string, i: nat)
    requires i < |Escape(s)| && Escape(s)[i] == '\''
    ensures i > 0 && Escape(s)[i - 1] == '\\'
    decreases |s|
  {
    EscapeCons(s);
    var head := EscapeChar(s[0]);
    if i >= |head| {
      EscapedQuotesArePrefixed(s[1..], i - |head|);
    }
  }

  /** A string without quotes is left as it is. */
  lemma {:induction false} EscapeWithoutQuotes(s: string)
    requires '\'' !in s
    ensures Escape(s) == s
    decreases |s|
  {
    EscapeCons(s);
    if |s| > 0 {
      assert '\'' !in s[1..] by { assert forall c :: c in s[1..] ==> c in s; }
      EscapeWithoutQuotes(s[1..]);
      assert s == [s[0]] + s[1..];
    }
  }

  /** The value formatValue works on: an enum case is replaced by its backing string. */
  function Unwrap(v: Value): (w: Value)
    ensures !w.EnumValue?
  {
    if v.EnumValue? then StrValue(BackingValue(v.e)) else v
  }

  /** `formatValue`: booleans and integers bare, strings escaped and single-quoted. */
  function FormatValue(v: Value): (r: string)
  {
    var w := Unwrap(v);
    if w.BoolValue? then (if w.b then "true" else "false")
    else if w.IntValue? then IntToString(w.i)
    else "'" + Escape(w.s) + "'"
  }

  /** Reads a formatted value back: the partner of FormatValue. */
  function ParseValue(t: string): Option<Value>
  {
    if t == "true" then Some(BoolValue(true))
    else if t == "false" then Some(BoolValue(false))
    else if |t| >= 2 && t[0] == '\'' && t[|t| - 1] == '\'' then Some(StrValue(Unescape(t[1..|t| - 1])))
    else
      match ParseInt(t)
      case Some(i) => if -0x8000_0000_0000_0000 <= i < 0x8000_0000_0000_0000 then Some(IntValue(i)) else None
      case None => None
  }

  /** Formatting loses nothing but the enum wrapper. */
  lemma FormatValueRoundTrip(v: Value)
    ensures ParseValue(FormatValue(v)) == Some(Unwrap(v))
  {
    var w := Unwrap(v);
    var t := FormatValue(v);
    if w.IntValue? {
      assert t[0] != '\'' && t != "true" && t != "false";
    } else if w.StrValue? {
      EscapeRoundTrip(w.s);
      assert t[1..|t| - 1] == Escape(w.s);
      assert t != "true" && t != "false" by { assert t[0] == '\''; }
    }
  }

  /** Two values format alike exactly when they are the same once enums are unwrapped. */
  lemma FormatValueInjective(a: Value, b: Value)
    ensures FormatValue(a) == FormatValue(b) <==> Unwrap(a) == Unwrap(b)
  {
    FormatValueRoundTrip(a);
    FormatValueRoundTrip(b);
  }

  /** `array_map(formatValue, $values)`. */
  function FormatValues(vs: seq<Value>): (r: seq<string>)
    ensures |r| == |vs|
    ensures forall i :: 0 <= i < |vs| ==> r[i] == FormatValue(vs[i])
  {
    if |vs| == 0 then []
    else
      var rest := vs[1..];
      [FormatValue(vs[0])] + FormatValues(rest)
  }

  // ---------------------------------------------------------------------------
  // buildComparisonString
  // ---------------------------------------------------------------------------

  /** `buildComparisonString`: `p.op()` for the no-value operators, `p.op(v1, v2, ...)`
      for an array, `p.op(v)` otherwise. A `null` value on another operator formats
      as `''`, the way formatValue treats null. Whatever the operator and value,
      the text reads `property.token(...)`. */
  function ComparisonString(property: string, op: Operator, arg: Arg): (r: string)
    ensures exists args :: r == Call(property, Token(op), args)
  {
    var head := property + "." + Token(op);
    if Token(op) in NoValueTokens then
      assert head + "()" == Call(property, Token(op), "");
      head + "()"
    else
      match arg
      case Many(vs) =>
        var args := Join(", ", FormatValues(vs));
        assert head + "(" + args + ")" == Call(property, Token(op), args);
        head + "(" + args + ")"
      case Single(v) =>
        assert head + "(" + FormatValue(v) + ")" == Call(property, Token(op), FormatValue(v));
        head + "(" + FormatValue(v) + ")"
      case NoValue =>
        assert head + "(" + "''" + ")" == Call(property, Token(op), "''");
        head + "(" + "''" + ")"
  }

  // ---------------------------------------------------------------------------
  // buildFilterString / toString
  // ---------------------------------------------------------------------------

  /** `buildFilterString($conditions)`: nothing, the one condition, or an
      implicit `and(...)` over all of them. It is empty exactly when there are
      no conditions. */
  function FilterString(cs: seq<Condition>): (r: string)
    ensures r == "" <==> |cs| == 0
    decreases cs, 1
  {
    if |cs| == 0 then ""
    else if |cs| == 1 then ConditionString(cs[0])
    else "and(" + Join(", ", ConditionStrings(cs)) + ")"
  }

  /** `buildFilterString([$condition])`: a logical condition renders as
      `op(child1, child2, ...)` from its children's toString; a comparison as its
      comparison string. No condition renders as the empty string. */
  function ConditionString(c: Condition): (r: string)
    ensures r != ""
    decreases c, 0
  {
    match c
    case Logical(op, fs) => LogicalToken(op) + "(" + Join(", ", ChildStrings(fs)) + ")"
    case Comparison(p, op, arg) => ComparisonString(p, op, arg)
  }

  /** The `array_map` over the conditions in the implicit-and case. */
  function ConditionStrings(cs: seq<Condition>): seq<string>
    decreases cs, 0
  {
    if |cs| == 0 then []
    else
      var rest := cs[1..];
      [ConditionString(cs[0])] + ConditionStrings(rest)
  }

  /** `array_map(fn ($filter) => $filter->toString(), $filters)`. */
  function ChildStrings(fs: seq<FilterState>): seq<string>
    decreases fs, 0
  {
    if |fs| == 0 then []
    else
      var rest := fs[1..];
      [FilterString(fs[0].conditions)] + ChildStrings(rest)
  }

  /** `toString()`: only the conditions matter, the current property does not;
      the text is empty exactly when there are none. */
  function ToString(f: FilterState): (r: string)
    ensures r == "" <==> f.conditions == []
  {
    FilterString(f.conditions)
  }

  // ---------------------------------------------------------------------------
  // Properties of the serialisation
  // ---------------------------------------------------------------------------

  lemma {:induction false} ConditionStringsAt(cs: seq<Condition>, i: nat)
    requires i < |cs|
    ensures |ConditionStrings(cs)| == |cs|
    ensures ConditionStrings(cs)[i] == ConditionString(cs[i])
    decreases cs
  {
    if i > 0 {
      ConditionStringsAt(cs[1..], i - 1);
    } else if |cs| > 1 {
      ConditionStringsAt(cs[1..], 0);
    }
  }

  lemma {:induction false} ChildStringsAt(fs: seq<FilterState>, i: nat)
    requires i < |fs|
    ensures |ChildStrings(fs)| == |fs|
    ensures ChildStrings(fs)[i] == ToString(fs[i])
    decreases fs
  {
    if i > 0 {
      ChildStringsAt(fs[1..], i - 1);
    } else if |fs| > 1 {
      ChildStringsAt(fs[1..], 0);
    }
  }

  /** In the implicit-and case each element renders exactly as it would alone. */
  lemma ImplicitAndElement(cs: seq<Condition>, i: nat)
    requires i < |cs|
    ensures |ConditionStrings(cs)| == |cs|
    ensures ConditionStrings(cs)[i] == FilterString([cs[i]])
  {
    ConditionStringsAt(cs, i);
  }

  /** Several top-level conditions render the same as an explicit `and(...)` of
      filters that each hold one of them, in order. */
  lemma {:induction false} ImplicitAndIsExplicitAnd(cs: seq<Condition>, fs: seq<FilterState>)
    requires |cs| >= 2 && |fs| == |cs|
    requires forall i :: 0 <= i < |fs| ==> fs[i].conditions == [cs[i]]
    ensures FilterString(cs) == FilterString([Logical(AndOp, fs)])
  {
    assert ChildStrings(fs) == ConditionStrings(cs) by {
      ChildStringsAt(fs, 0);
      ConditionStringsAt(cs, 0);
      forall i | 0 <= i < |cs|
        ensures ChildStrings(fs)[i] == ConditionStrings(cs)[i]
      {
        ChildStringsAt(fs, i);
        ConditionStringsAt(cs, i);
      }
    }
  }

  /** Two strings that read `a(...` and `b(...` with no `(` in `a` or `b` agree on it. */
  lemma {:induction false} SameHeadBeforeParen(a: string, x: string, b: string, y: string)
    requires a + "(" + x == b + "(" + y
    requires '(' !in a && '(' !in b
    ensures a == b
  {
    var s := a + "(" + x;
    assert s[|a|] == '(';
    assert s[|b|] == '(';
    assert a == s[..|a|] && b == s[..|b|];
  }

  lemma TokenHasNoParen(op: Operator)
    ensures '(' !in Token(op)
  {
  }

  lemma DropPrefix(h: string, x: string, y: string)
    requires h + x == h + y
    ensures x == y
  {
    assert x == (h + x)[|h|..];
  }

  lemma SameHeadAfterProperty(p: string, t1: string, r1: string, t2: string, r2: string)
    requires p + "." + t1 + "(" + r1 == p + "." + t2 + "(" + r2
    requires '(' !in t1 && '(' !in t2
    ensures t1 == t2
  {
    var s := p + "." + t1 + "(" + r1;
    assert s == (p + ".") + (t1 + "(" + r1);
    assert s == (p + ".") + (t2 + "(" + r2);
    DropPrefix(p + ".", t1 + "(" + r1, t2 + "(" + r2);
    SameHeadBeforeParen(t1, r1, t2, r2);
  }

  /** What follows the `(` of a comparison string. */
  lemma ComparisonShape(p: string, op: Operator, arg: Arg) returns (rest: string)
    ensures ComparisonString(p, op, arg) == p + "." + Token(op) + "(" + rest
  {
    var head := p + "." + Token(op);
    if Token(op) in NoValueTokens {
      rest := ")";
    } else {
      match arg
      case Many(vs) =>
        rest := Join(", ", FormatValues(vs)) + ")";
      case Single(v) =>
        rest := FormatValue(v) + ")";
      case NoValue =>
        rest := "''" + ")";
    }
  }

  /** Tokens hold no `(`, so a comparison string determines its operator once the
      property is known. */
  lemma ComparisonDeterminesOperator(p: string, op1: Operator, a1: Arg, op2: Operator, a2: Arg)
    requires ComparisonString(p, op1, a1) == ComparisonString(p, op2, a2)
    ensures op1 == op2
  {
    var r1 := ComparisonShape(p, op1, a1);
    var r2 := ComparisonShape(p, op2, a2);
    TokenHasNoParen(op1);
    TokenHasNoParen(op2);
    SameHeadAfterProperty(p, Token(op1), r1, Token(op2), r2);
    TokenInjective(op1, op2);
  }

  /** With the same property and operator, a single-valued comparison determines its
      value, up to unwrapping an enum. */
  lemma ComparisonDeterminesValue(p: string, op: Operator, a: Value, b: Value)
    requires Token(op) !in NoValueTokens
    requires ComparisonString(p, op, Single(a)) == ComparisonString(p, op, Single(b))
    ensures Unwrap(a) == Unwrap(b)
  {
    var head := p + "." + Token(op) + "(";
    var fa, fb := FormatValue(a), FormatValue(b);
    assert ComparisonString(p, op, Single(a)) == head + fa + ")";
    assert ComparisonString(p, op, Single(b)) == head + fb + ")";
    assert |fa| == |fb|;
    assert fa == (head + fa + ")")[|head|..|head| + |fa|];
    assert fb == (head + fb + ")")[|head|..|head| + |fb|];
    FormatValueInjective(a, b);
  }
  // ---------------------------------------------------------------------------
  // Rendering steps, used to compute the text of concrete filters
  // ---------------------------------------------------------------------------

  /** A string between single quotes. */
  function Quote(s: string): string
  {
    "'" + s + "'"
  }

  /** The interpolation `"{$property}.{$operator}({$args})"` every comparison
      string is made of. */
  function Call(property: string, operator: string, args: string): string
  {
    property + "." + operator + "(" + args + ")"
  }

  /** A string without quotes formats as itself between single quotes. */
  lemma QuotedPlain(s: string)
    requires '\'' !in s
    ensures FormatValue(StrValue(s)) == Quote(s)
  {
    EscapeWithoutQuotes(s);
  }

  /** An enum case formats as its backing string between single quotes. */
  lemma QuotedEnum(e: BackedEnum)
    ensures FormatValue(EnumValue(e)) == Quote(BackingValue(e))
  {
    assert '\'' !in BackingValue(e);
    EscapeWithoutQuotes(BackingValue(e));
  }

  /** Plain strings as filter values. */
  function StrValues(ss: seq<string>): (vs: seq<Value>)
    ensures |vs| == |ss|
    ensures forall i :: 0 <= i < |ss| ==> vs[i] == StrValue(ss[i])
  {
    seq(|ss|, i requires 0 <= i < |ss| => StrValue(ss[i]))
  }

  /** Each string between single quotes. */
  function Quoted(ss: seq<string>): (qs: seq<string>)
    ensures |qs| == |ss|
    ensures forall i :: 0 <= i < |ss| ==> qs[i] == Quote(ss[i])
  {
    seq(|ss|, i requires 0 <= i < |ss| => Quote(ss[i]))
  }

  /** Strings without quotes format as themselves between single quotes. */
  lemma QuotedPlainAll(ss: seq<string>)
    requires forall i :: 0 <= i < |ss| ==> '\'' !in ss[i]
    ensures FormatValues(StrValues(ss)) == Quoted(ss)
  {
    forall i | 0 <= i < |ss|
      ensures FormatValues(StrValues(ss))[i] == Quoted(ss)[i]
    {
      QuotedPlain(ss[i]);
    }
  }

  /** Proof helper for the literal examples: the text of one condition, spelled out. */
  lemma RenderSingle(p: string, op: Operator, v: Value)
    requires Token(op) !in NoValueTokens
    ensures FilterString([Comparison(p, op, Single(v))]) == Call(p, Token(op), FormatValue(v))
  {
  }

  /** Proof helper for the literal examples: the text of one condition, spelled out. */
  lemma RenderNoValue(p: string, op: Operator, arg: Arg)
    requires Token(op) in NoValueTokens
    ensures FilterString([Comparison(p, op, arg)]) == Call(p, Token(op), "")
  {
  }

  /** Proof helper for the literal examples: the text of one condition, spelled out. */
  lemma RenderMany(p: string, op: Operator, vs: seq<Value>)
    requires Token(op) !in NoValueTokens
    ensures FilterString([Comparison(p, op, Many(vs))]) == Call(p, Token(op), Join(", ", FormatValues(vs)))
  {
  }

  /** Proof helper for the literal examples: the text of one condition, spelled out. */
  lemma RenderLogical(op: LogicalOp, fs: seq<FilterState>)
    ensures FilterString([Logical(op, fs)]) == LogicalToken(op) + "(" + Join(", ", ChildStrings(fs)) + ")"
  {
  }

  /** The children's texts, listed. */
  lemma {:induction false} ChildStringsAll(fs: seq<FilterState>)
    ensures |ChildStrings(fs)| == |fs|
    ensures forall i :: 0 <= i < |fs| ==> ChildStrings(fs)[i] == ToString(fs[i])
  {
    if |fs| > 0 {
      ChildStringsAt(fs, 0);
    }
    forall i | 0 <= i < |fs|
      ensures ChildStrings(fs)[i] == ToString(fs[i])
    {
      ChildStringsAt(fs, i);
    }
  }
}
