/**
  The stratagem catalog (`STRATAGEM_DATA`, loaded from a JSON file and handed in here)
  and the built-in support stratagems (`SUPPORT_STRATAGEMS`, hellmacro.py:22-28).
*/
module Catalog {
  import opened Base

  /**
    One catalog value. A JSON object may or may not carry a "sequence" list of direction
    names; any other JSON value is `NotAnObject`. Display colours are presentation and left out.
  */
  datatype CatalogEntry = Entry(sequence: Option<seq<string>>) | NotAnObject

  /** The first item of every stratagem combo box; it names no stratagem. */
  const Placeholder: string := "Select Stratagem"

  const SupportNames: seq<string> := ["Reinforce", "Resupply", "SEAF Artillery", "Hellbomb", "Eagle Rearm"]

  const SupportSequences: seq<seq<string>> := [
    ["up", "down", "right", "left", "up"],
    ["down", "down", "up", "right"],
    ["right", "up", "up", "down"],
    ["down", "up", "left", "down", "up", "right", "down", "up"],
    ["up", "up", "left", "up", "right"]
  ]

  /** A name a combo box can show: the placeholder or a catalog key. */
  predicate Listed(catalog: map<string, CatalogEntry>, name: string) {
    name == Placeholder || name in catalog
  }

  /**
    The sequence a triggered stratagem slot plays (hellmacro.py:1189): the entry must be an
    object with a non-empty "sequence".
  */
  function LaunchSequence(catalog: map<string, CatalogEntry>, name: string): (r: Option<seq<string>>)
    ensures r.Some? <==> name in catalog && catalog[name].Entry? && catalog[name].sequence.Some?
                         && |catalog[name].sequence.value| > 0
    ensures r.Some? ==> r.value == catalog[name].sequence.value
  {
    if name in catalog then
      match catalog[name]
      case Entry(Some(s)) => if |s| > 0 then Some(s) else None
      case _ => None
    else None
  }

  /**
    The sequence the Test button plays (hellmacro.py:1325-1331): unlike a trigger, an empty
    "sequence" is still played.
  */
  function TestSequence(catalog: map<string, CatalogEntry>, name: string): (r: Option<seq<string>>)
    ensures r.Some? <==> name in catalog && catalog[name].Entry? && catalog[name].sequence.Some?
    ensures r.Some? ==> r.value == catalog[name].sequence.value
    ensures LaunchSequence(catalog, name).Some? ==> r == LaunchSequence(catalog, name)
  {
    if name in catalog then
      match catalog[name]
      case Entry(s) => s
      case NotAnObject => None
    else None
  }
}
