/** Filters/Sites/SitesFilter.php: filters over sites. */
module SitesFilter {
  import opened Wrappers
  import opened Text
  import opened FilterSyntax
  import opened FilterBuilder

  function Id(): (f: FilterState)
    ensures StartedOn(f, "id")
  {
    Where("id")
  }

  function InternalReference(): (f: FilterState)
    ensures StartedOn(f, "internalReference")
  {
    Where("internalReference")
  }

  function Name(): (f: FilterState)
    ensures StartedOn(f, "name")
  {
    Where("name")
  }

  // ---------------------------------------------------------------------------
  // The examples of the class comment
  // ---------------------------------------------------------------------------

  /** `name()->equals('Default')`. */
  function DefaultExample(): (f: FilterState)
    ensures f.currentProperty == Some("name")
    ensures ToString(f) == Call("name", "eq", Quote("Default"))
  {
    OneString("name", EqOp, "Default");
    Equals(Name(), StrValue("Default")).value
  }

  /** `id()->in(['uuid1', 'uuid2', 'uuid3'])`. */
  function IdsExample(): (f: FilterState)
    ensures f.currentProperty == Some("id")
    ensures ToString(f) == Call("id", "in", Quote("uuid1") + ", " + Quote("uuid2") + ", " + Quote("uuid3"))
  {
    ThreeStrings("id", InOp, "uuid1", "uuid2", "uuid3");
    In(Id(), StrValues(["uuid1", "uuid2", "uuid3"])).value
  }
}
