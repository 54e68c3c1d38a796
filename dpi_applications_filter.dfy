/** Filters/SupportingResources/DpiApplicationsFilter.php: filters over the applications
    deep packet inspection recognises. */
module DpiApplicationsFilter {
  import opened Wrappers
  import opened Text
  import opened FilterSyntax
  import opened FilterBuilder

  function Id(): (f: FilterState)
    ensures StartedOn(f, "id")
  {
    Where("id")
  }

  function Name(): (f: FilterState)
    ensures StartedOn(f, "name")
  {
    Where("name")
  }

  // ---------------------------------------------------------------------------
  // Presets
  // ---------------------------------------------------------------------------

  function Netflix(): (f: FilterState)
    ensures f.currentProperty == Some("name")
    ensures ToString(f) == Call("name", "eq", Quote("Netflix"))
  {
    OneString("name", EqOp, "Netflix");
    Equals(Name(), StrValue("Netflix")).value
  }

  function Youtube(): (f: FilterState)
    ensures f.currentProperty == Some("name")
    ensures ToString(f) == Call("name", "eq", Quote("YouTube"))
  {
    OneString("name", EqOp, "YouTube");
    Equals(Name(), StrValue("YouTube")).value
  }

  function Facebook(): (f: FilterState)
    ensures f.currentProperty == Some("name")
    ensures ToString(f) == Call("name", "eq", Quote("Facebook"))
  {
    OneString("name", EqOp, "Facebook");
    Equals(Name(), StrValue("Facebook")).value
  }

  /** `name()->like($pattern)`, the building block of `streamingServices()`. */
  function NameLike(pattern: string): (f: FilterState)
    requires '\'' !in pattern
    ensures f.currentProperty == Some("name")
    ensures ToString(f) == Call("name", "like", Quote(pattern))
  {
    QuotedPlain(pattern);
    OneValue("name", LikeOp, StrValue(pattern), Quote(pattern));
    Like(Name(), pattern).value
  }

  /** The texts of `name()->like($p)` for each pattern. */
  function NameLikeTexts(patterns: seq<string>): (ts: seq<string>)
    ensures |ts| == |patterns|
    ensures forall i :: 0 <= i < |patterns| ==> ts[i] == Call("name", "like", Quote(patterns[i]))
  {
    seq(|patterns|, i requires 0 <= i < |patterns| => Call("name", "like", Quote(patterns[i])))
  }

  /** `or(name()->like($p1), name()->like($p2), ...)`. */
  function AnyNameLike(patterns: seq<string>): (f: FilterState)
    requires forall i :: 0 <= i < |patterns| ==> '\'' !in patterns[i]
    ensures f.currentProperty == None
    ensures ToString(f) == "or(" + Join(", ", NameLikeTexts(patterns)) + ")"
  {
    var fs := seq(|patterns|, i requires 0 <= i < |patterns| => NameLike(patterns[i]));
    ChildTexts(fs, NameLikeTexts(patterns));
    Or(fs)
  }

  const StreamingPatterns: seq<string> := ["*Netflix*", "*YouTube*", "*Prime*", "*Disney*", "*Hulu*"]

  /** The `or` of five name patterns, in the order given. */
  function StreamingServices(): (f: FilterState)
    ensures f.currentProperty == None
    ensures ToString(f) == "or(" + Join(", ", [Call("name", "like", Quote("*Netflix*")), Call("name", "like", Quote("*YouTube*")),
      Call("name", "like", Quote("*Prime*")), Call("name", "like", Quote("*Disney*")), Call("name", "like", Quote("*Hulu*"))]) + ")"
  {
    var ts := NameLikeTexts(StreamingPatterns);
    assert ts == [ts[0], ts[1], ts[2], ts[3], ts[4]];
    AnyNameLike(StreamingPatterns)
  }

  // ---------------------------------------------------------------------------
  // The examples of the class comment
  // ---------------------------------------------------------------------------

  /** `name()->like('*Tube*')`. */
  function TubeExample(): (f: FilterState)
    ensures f.currentProperty == Some("name")
    ensures ToString(f) == Call("name", "like", Quote("*Tube*"))
  {
    OneString("name", LikeOp, "*Tube*");
    Like(Name(), "*Tube*").value
  }

  /** `id()->in([100, 101, 102])`: integers are written bare. */
  function IdsExample(): (f: FilterState)
    ensures f.currentProperty == Some("id")
    ensures ToString(f) == Call("id", "in", "100" + ", " + "101" + ", " + "102")
  {
    ThreeInts("id", InOp, 100, 101, 102);
    HundredsExample();
    In(Id(), [IntValue(100), IntValue(101), IntValue(102)]).value
  }
}
