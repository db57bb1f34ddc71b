// The bus schema of models/bus.model.js: a required, unique `numero`, an
// `etat` enum defaulting to 'en service', and a capacity defaulting to 50.

module BusModel {
  import opened Common

  datatype Etat = EnService | Maintenance | HorsService

  function EtatName(e: Etat): string {
    match e
    case EnService => "en service"
    case Maintenance => "maintenance"
    case HorsService => "hors service"
  }

  function ParseEtat(s: string): (r: Option<Etat>)
    ensures r.Some? ==> EtatName(r.value) == s
  {
    if s == "en service" then Some(EnService)
    else if s == "maintenance" then Some(Maintenance)
    else if s == "hors service" then Some(HorsService)
    else None
  }

  lemma EtatRoundTrip(e: Etat)
    ensures ParseEtat(EtatName(e)) == Some(e)
  {
  }

  const DefaultEtat: Etat := EnService
  const DefaultCapacite: int := 50

  datatype Bus = Bus(id: Id, numero: string, etat: Etat, capacite: int)

  predicate Valid(b: Bus) {
    b.numero != ""
  }

  /** The fields of a request body that the schema knows. */
  datatype BusInput = BusInput(numero: Option<string>, etat: Option<string>, capacite: Option<int>)

  predicate CreateAccepted(b: BusInput) {
    Filled(b.numero) && (b.etat.Some? ==> ParseEtat(b.etat.value).Some?)
  }

  predicate UpdateAccepted(b: BusInput) {
    SetStringOk(b.numero) && (b.etat.Some? ==> ParseEtat(b.etat.value).Some?)
  }

  /** `Bus.create(body)` before the unique index is consulted: the defaults
      fill `etat` and `capacite`; None when validation rejects the body. */
  function Create(id: Id, b: BusInput): (r: Option<Bus>)
    ensures r.Some? <==> CreateAccepted(b)
    ensures r.Some? ==> Valid(r.value) && r.value.id == id && r.value.numero == b.numero.value
    ensures r.Some? && b.etat.None? ==> r.value.etat == DefaultEtat
    ensures r.Some? && b.etat.Some? ==> EtatName(r.value.etat) == b.etat.value
    ensures r.Some? && b.capacite.None? ==> r.value.capacite == DefaultCapacite
    ensures r.Some? && b.capacite.Some? ==> r.value.capacite == b.capacite.value
  {
    if CreateAccepted(b) then
      Some(Bus(id, b.numero.value,
               if b.etat.Some? then ParseEtat(b.etat.value).value else DefaultEtat,
               Or(b.capacite, DefaultCapacite)))
    else None
  }

  /** findByIdAndUpdate(id, body, { runValidators: true }) on the found bus. */
  function Update(bus: Bus, b: BusInput): (r: Option<Bus>)
    ensures r.Some? <==> UpdateAccepted(b)
    ensures r.Some? ==> r.value.id == bus.id
    ensures r.Some? && Valid(bus) ==> Valid(r.value)
    ensures r.Some? && b.numero.None? ==> r.value.numero == bus.numero
    ensures r.Some? && b.numero.Some? ==> r.value.numero == b.numero.value
    ensures r.Some? && b.etat.None? ==> r.value.etat == bus.etat
    ensures r.Some? && b.etat.Some? ==> EtatName(r.value.etat) == b.etat.value
    ensures r.Some? && b.capacite.None? ==> r.value.capacite == bus.capacite
    ensures r.Some? && b.capacite.Some? ==> r.value.capacite == b.capacite.value
  {
    if UpdateAccepted(b) then
      Some(bus.(numero := Or(b.numero, bus.numero),
                etat := if b.etat.Some? then ParseEtat(b.etat.value).value else bus.etat,
                capacite := Or(b.capacite, bus.capacite)))
    else None
  }

  /** The unique index on `numero`. */
  predicate NumerosUnique(s: seq<Bus>) {
    forall i, j :: 0 <= i < j < |s| ==> s[i].numero != s[j].numero
  }
}
