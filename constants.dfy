/** The fixed registry of sending firms, in the key order in which it is searched. */
module Constants {
  import opened Wrappers
  import opened Types

  const Mobile := "9422593814 / 8888099776"

  const HreenkarCreation := Firm(
    "Hreenkar Creation",
    Some("30AACPB7378Q1ZH"),
    "COSMOS CENTER SHOP NO 32 GROUND FLOOR MOROD MAPUSA Goa 403507",
    Mobile)

  const KambeshwarAgencies := Firm(
    "Kambeshwar Agencies",
    None,
    "Upper Ground Floor, Shop No. 6, Essar Trade Centre, Shashikant Narvekar Road, Morod, Mapusa, North Goa, Goa, 403507",
    Mobile)

  /** `FIRMS` as (key, firm) pairs in the order `Object.keys` lists them. */
  const Firms: seq<(string, Firm)> := [("HC", HreenkarCreation), ("KA", KambeshwarAgencies)]

  /** The key used when no registered firm has the selected name. */
  const DefaultKey := "HC"

  /** The position of the first entry whose firm is named `name` (`Array.prototype.find`). */
  function FindIndex(entries: seq<(string, Firm)>, name: string): (r: Option<nat>)
    ensures r.None? <==> forall i | 0 <= i < |entries| :: entries[i].1.name != name
    ensures r.Some? ==> r.value < |entries| && entries[r.value].1.name == name
    ensures r.Some? ==> forall j | 0 <= j < r.value :: entries[j].1.name != name
    decreases |entries|
  {
    if entries == [] then None
    else if entries[0].1.name == name then Some(0)
    else
      match FindIndex(entries[1..], name)
      case None => None
      case Some(i) => Some(i + 1)
  }

  /** The `firmKey` sent to the backend for the selected firm: the first registry key
      whose firm has the same name, else "HC". */
  function FirmKey(selected: Firm): string
  {
    match FindIndex(Firms, selected.name)
    case Some(i) => Firms[i].0
    case None => DefaultKey
  }

  /** The registry has exactly two entries, keyed "HC" then "KA", with distinct names;
      only "HC" carries a GSTIN and both share one mobile string. */
  lemma RegistryShape()
    ensures |Firms| == 2 && Firms[0].0 == "HC" && Firms[1].0 == "KA"
    ensures Firms[0].1.name == "Hreenkar Creation" && Firms[1].1.name == "Kambeshwar Agencies"
    ensures Firms[0].1.name != Firms[1].1.name
    ensures Firms[0].1.gstin.Some? && Firms[1].1.gstin.None?
    ensures Firms[0].1.mobile == Firms[1].1.mobile
  {
  }

  /** Because the names are distinct, the name lookup gives back each firm's own key. */
  lemma FirmKeyOfRegistered(i: int)
    requires 0 <= i < |Firms|
    ensures FirmKey(Firms[i].1) == Firms[i].0
  {
    if i == 1 {
      assert Firms[0].1.name != Firms[1].1.name;
    }
  }

  /** A firm whose name is not registered is sent under "HC". */
  lemma FirmKeyOfUnregistered(f: Firm)
    requires forall i | 0 <= i < |Firms| :: Firms[i].1.name != f.name
    ensures FirmKey(f) == "HC"
  {
  }

  /** Selecting "Kambeshwar Agencies" resolves to "KA". */
  lemma FirmKeyExample()
    ensures FirmKey(KambeshwarAgencies) == "KA"
  {
    FirmKeyOfRegistered(1);
  }
}
