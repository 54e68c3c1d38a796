/** Filters/Hotspot/VoucherFilter.php: filters over hotspot vouchers. */
module VoucherFilter {
  import opened Wrappers
  import opened FilterSyntax
  import opened FilterBuilder

  function Id(): (f: FilterState)
    ensures StartedOn(f, "id")
  {
    Where("id")
  }

  function Name(): (f: FilterState)
    ensures StartedOn(f, "name")
  {
    Where("name")
  }

  function Code(): (f: FilterState)
    ensures StartedOn(f, "code")
  {
    Where("code")
  }

  function Expired(): (f: FilterState)
    ensures StartedOn(f, "expired")
  {
    Where("expired")
  }

  // ---------------------------------------------------------------------------
  // Presets
  // ---------------------------------------------------------------------------

  function Active(): (f: FilterState)
    ensures f.currentProperty == Some("expired")
    ensures ToString(f) == Call("expired", "eq", "false")
  {
    OneValue("expired", EqOp, BoolValue(false), "false");
    Equals(Expired(), BoolValue(false)).value
  }

  function ExpiredOnly(): (f: FilterState)
    ensures f.currentProperty == Some("expired")
    ensures ToString(f) == Call("expired", "eq", "true")
  {
    OneValue("expired", EqOp, BoolValue(true), "true");
    Equals(Expired(), BoolValue(true)).value
  }

  // ---------------------------------------------------------------------------
  // The examples of the class comment
  // ---------------------------------------------------------------------------

  /** `name()->like('Event*')`. */
  function EventExample(): (f: FilterState)
    ensures f.currentProperty == Some("name")
    ensures ToString(f) == Call("name", "like", Quote("Event*"))
  {
    OneString("name", LikeOp, "Event*");
    Like(Name(), "Event*").value
  }

  /** `code()->equals('ABC123')`. */
  function CodeExample(): (f: FilterState)
    ensures f.currentProperty == Some("code")
    ensures ToString(f) == Call("code", "eq", Quote("ABC123"))
  {
    OneString("code", EqOp, "ABC123");
    Equals(Code(), StrValue("ABC123")).value
  }
}
