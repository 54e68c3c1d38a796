/** Filters/SupportingResources/CountriesFilter.php: filters over ISO country codes and
    names, with presets for single countries and two regions. */
module CountriesFilter {
  import opened Wrappers
  import opened Text
  import opened FilterSyntax
  import opened FilterBuilder

  function Code(): (f: FilterState)
    ensures StartedOn(f, "code")
  {
    Where("code")
  }

  function Name(): (f: FilterState)
    ensures StartedOn(f, "name")
  {
    Where("name")
  }

  // ---------------------------------------------------------------------------
  // Presets
  // ---------------------------------------------------------------------------

  function UnitedStates(): (f: FilterState)
    ensures f.currentProperty == Some("code")
    ensures ToString(f) == Call("code", "eq", Quote("US"))
  {
    OneString("code", EqOp, "US");
    Equals(Code(), StrValue("US")).value
  }

  function UnitedKingdom(): (f: FilterState)
    ensures f.currentProperty == Some("code")
    ensures ToString(f) == Call("code", "eq", Quote("GB"))
  {
    OneString("code", EqOp, "GB");
    Equals(Code(), StrValue("GB")).value
  }

  function Canada(): (f: FilterState)
    ensures f.currentProperty == Some("code")
    ensures ToString(f) == Call("code", "eq", Quote("CA"))
  {
    OneString("code", EqOp, "CA");
    Equals(Code(), StrValue("CA")).value
  }

  function Australia(): (f: FilterState)
    ensures f.currentProperty == Some("code")
    ensures ToString(f) == Call("code", "eq", Quote("AU"))
  {
    OneString("code", EqOp, "AU");
    Equals(Code(), StrValue("AU")).value
  }

  function NorthAmerica(): (f: FilterState)
    ensures f.currentProperty == Some("code")
    ensures ToString(f) == Call("code", "in", Quote("US") + ", " + Quote("CA") + ", " + Quote("MX"))
  {
    ThreeStrings("code", InOp, "US", "CA", "MX");
    In(Code(), StrValues(["US", "CA", "MX"])).value
  }

  /** The member states `europeanUnion()` lists, in its order and in its three rows. */
  const EuropeanUnionRow1: seq<string> := ["AT", "BE", "BG", "HR", "CY", "CZ", "DK", "EE", "FI", "FR"]
  const EuropeanUnionRow2: seq<string> := ["DE", "GR", "HU", "IE", "IT", "LV", "LT", "LU", "MT", "NL"]
  const EuropeanUnionRow3: seq<string> := ["PL", "PT", "RO", "SK", "SI", "ES", "SE"]
  const EuropeanUnionCodes: seq<string> := EuropeanUnionRow1 + EuropeanUnionRow2 + EuropeanUnionRow3

  /** No string of either list holds a quote, so neither does their concatenation. */
  lemma PlainConcat(a: seq<string>, b: seq<string>)
    requires forall i :: 0 <= i < |a| ==> '\'' !in a[i]
    requires forall i :: 0 <= i < |b| ==> '\'' !in b[i]
    ensures forall i :: 0 <= i < |a + b| ==> '\'' !in (a + b)[i]
  {
  }

  /** The 27 codes hold no quote, shown one row at a time. */
  lemma EuropeanUnionCodesPlain()
    ensures forall i :: 0 <= i < |EuropeanUnionCodes| ==> '\'' !in EuropeanUnionCodes[i]
  {
    assert forall i :: 0 <= i < |EuropeanUnionRow1| ==> '\'' !in EuropeanUnionRow1[i];
    assert forall i :: 0 <= i < |EuropeanUnionRow2| ==> '\'' !in EuropeanUnionRow2[i];
    assert forall i :: 0 <= i < |EuropeanUnionRow3| ==> '\'' !in EuropeanUnionRow3[i];
    PlainConcat(EuropeanUnionRow1, EuropeanUnionRow2);
    PlainConcat(EuropeanUnionRow1 + EuropeanUnionRow2, EuropeanUnionRow3);
  }

  /** `code()->in($codes)` for codes without quotes: each code quoted, comma-separated. */
  function CodeIn(codes: seq<string>): (f: FilterState)
    requires forall i :: 0 <= i < |codes| ==> '\'' !in codes[i]
    ensures f.currentProperty == Some("code")
    ensures ToString(f) == Call("code", "in", Join(", ", Quoted(codes)))
  {
    QuotedPlainAll(codes);
    ManyValues("code", InOp, StrValues(codes), Quoted(codes));
    In(Code(), StrValues(codes)).value
  }

  /** `code()->in([...])` over the 27 codes. */
  function EuropeanUnion(): (f: FilterState)
    ensures f.currentProperty == Some("code")
    ensures ToString(f) == Call("code", "in", Join(", ", Quoted(EuropeanUnionCodes)))
  {
    EuropeanUnionCodesPlain();
    CodeIn(EuropeanUnionCodes)
  }

  // ---------------------------------------------------------------------------
  // The examples of the class comment
  // ---------------------------------------------------------------------------

  /** `name()->like('United*')`. */
  function UnitedPrefixExample(): (f: FilterState)
    ensures f.currentProperty == Some("name")
    ensures ToString(f) == Call("name", "like", Quote("United*"))
  {
    OneString("name", LikeOp, "United*");
    Like(Name(), "United*").value
  }

  /** `code()->in(['US', 'GB', 'CA', 'AU'])`. */
  function EnglishSpeakingExample(): (f: FilterState)
    ensures f.currentProperty == Some("code")
    ensures ToString(f) == Call("code", "in", Quote("US") + ", " + Quote("GB") + ", " + Quote("CA") + ", " + Quote("AU"))
  {
    FourStrings("code", InOp, "US", "GB", "CA", "AU");
    In(Code(), StrValues(["US", "GB", "CA", "AU"])).value
  }

  /** `name()->like('*Kingdom*')`. */
  function KingdomExample(): (f: FilterState)
    ensures f.currentProperty == Some("name")
    ensures ToString(f) == Call("name", "like", Quote("*Kingdom*"))
  {
    OneString("name", LikeOp, "*Kingdom*");
    Like(Name(), "*Kingdom*").value
  }
}
