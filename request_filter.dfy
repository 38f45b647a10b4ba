/**
 * The event-type filter of the request builders (src/request/mod.rs).
 */
module RequestFilter {

  /** `EventTypeFilter`; `All` is the derived default. */
  datatype EventTypeFilter = All | Lan | Online

  /** `impl Display for EventTypeFilter`: the value HLTV expects in the
      `matchType` / `eventType` query parameter. */
  function FilterDisplay(f: EventTypeFilter): (s: string)
    ensures f == All ==> s == "All"
    ensures f == Lan ==> s == "LAN"
    ensures f == Online ==> s == "Online"
  {
    match f
    case All => "All"
    case Lan => "LAN"
    case Online => "Online"
  }

  /** The three filters print as three different words, none of which holds
      a query-string delimiter. */
  lemma FilterDisplayInjective(a: EventTypeFilter, b: EventTypeFilter)
    ensures FilterDisplay(a) == FilterDisplay(b) ==> a == b
    ensures '&' !in FilterDisplay(a) && '=' !in FilterDisplay(a)
  {
    assert "All"[0] != "LAN"[0] && "All"[0] != "Online"[0] && "LAN"[0] != "Online"[0];
  }

  /** The derived `EventTypeFilter::default()`: no filtering, printed "All". */
  function FilterDefault(): (f: EventTypeFilter)
    ensures FilterDisplay(f) == "All"
  {
    All
  }
}
