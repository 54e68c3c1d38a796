/** Filters/SupportingResources/DpiCategoriesFilter.php: filters over the categories deep
    packet inspection sorts applications into. */
module DpiCategoriesFilter {
  import opened Wrappers
  import opened Text
  import opened FilterSyntax
  import opened FilterBuilder

  function Id(): (f: FilterState)
    ensures StartedOn(f, "id")
  {
    Where("id")
  }

  function Name(): (f: FilterState)
    ensures StartedOn(f, "name")
  {
    Where("name")
  }

  // ---------------------------------------------------------------------------
  // Presets
  // ---------------------------------------------------------------------------

  function SocialMedia(): (f: FilterState)
    ensures f.currentProperty == Some("name")
    ensures ToString(f) == Call("name", "like", Quote("*Social*"))
  {
    OneString("name", LikeOp, "*Social*");
    Like(Name(), "*Social*").value
  }

  function Streaming(): (f: FilterState)
    ensures f.currentProperty == Some("name")
    ensures ToString(f) == Call("name", "like", Quote("*Streaming*"))
  {
    OneString("name", LikeOp, "*Streaming*");
    Like(Name(), "*Streaming*").value
  }

  function Gaming(): (f: FilterState)
    ensures f.currentProperty == Some("name")
    ensures ToString(f) == Call("name", "like", Quote("*Gam*"))
  {
    OneString("name", LikeOp, "*Gam*");
    Like(Name(), "*Gam*").value
  }

  // ---------------------------------------------------------------------------
  // The examples of the class comment
  // ---------------------------------------------------------------------------

  /** `name()->equals('Social Networking')`: the blank is kept as it is. */
  function SocialNetworkingExample(): (f: FilterState)
    ensures f.currentProperty == Some("name")
    ensures ToString(f) == Call("name", "eq", Quote("Social Networking"))
  {
    OneString("name", EqOp, "Social Networking");
    Equals(Name(), StrValue("Social Networking")).value
  }

  /** `name()->like('*Gaming*')`. */
  function GamingExample(): (f: FilterState)
    ensures f.currentProperty == Some("name")
    ensures ToString(f) == Call("name", "like", Quote("*Gaming*"))
  {
    OneString("name", LikeOp, "*Gaming*");
    Like(Name(), "*Gaming*").value
  }

  /** `id()->in([1, 2, 3])`. */
  function IdsExample(): (f: FilterState)
    ensures f.currentProperty == Some("id")
    ensures ToString(f) == Call("id", "in", "1" + ", " + "2" + ", " + "3")
  {
    ThreeInts("id", InOp, 1, 2, 3);
    DigitsExample();
    In(Id(), [IntValue(1), IntValue(2), IntValue(3)]).value
  }
}
