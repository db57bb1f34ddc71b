// The driver schema of models/chauffeur.model.js: required names and a
// telephone of at most 12 characters, and a bus reference defaulting to
// null. The schema puts no uniqueness constraint on `bus`.

module ChauffeurModel {
  import opened Common

  const MaxTelephone: int := 12

  datatype Chauffeur = Chauffeur(id: Id, prenom: string, nom: string, telephone: string, bus: Option<Id>)

  predicate TelephoneOk(t: string) {
    t != "" && |t| <= MaxTelephone
  }

  predicate Valid(c: Chauffeur) {
    c.prenom != "" && c.nom != "" && TelephoneOk(c.telephone)
  }

  /** `Chauffeur.create({ prenom, nom, telephone, bus })`; None when validation rejects it. */
  function Create(id: Id, prenom: Option<string>, nom: Option<string>, telephone: Option<string>,
                  bus: Option<Id>): (r: Option<Chauffeur>)
    ensures r.Some? <==> Filled(prenom) && Filled(nom) && telephone.Some? && TelephoneOk(telephone.value)
    ensures r.Some? ==> Valid(r.value) && r.value.id == id && r.value.bus == bus
                        && r.value.telephone == telephone.value
  {
    if Filled(prenom) && Filled(nom) && telephone.Some? && TelephoneOk(telephone.value) then
      Some(Chauffeur(id, prenom.value, nom.value, telephone.value, bus))
    else None
  }

  predicate UpdateAccepted(prenom: Option<string>, nom: Option<string>, telephone: Option<string>) {
    SetStringOk(prenom) && SetStringOk(nom) && (telephone.Some? ==> TelephoneOk(telephone.value))
  }

  /** findByIdAndUpdate(id, { prenom, nom, telephone, bus }, { runValidators: true }):
      paths that are undefined are dropped from the update, `bus` is always set. */
  function Update(c: Chauffeur, prenom: Option<string>, nom: Option<string>, telephone: Option<string>,
                  bus: Option<Id>): (r: Option<Chauffeur>)
    ensures r.Some? <==> UpdateAccepted(prenom, nom, telephone)
    ensures r.Some? ==> r.value.id == c.id && r.value.bus == bus
    ensures r.Some? && Valid(c) ==> Valid(r.value)
    ensures r.Some? && prenom.None? ==> r.value.prenom == c.prenom
    ensures r.Some? && nom.None? ==> r.value.nom == c.nom
    ensures r.Some? && telephone.None? ==> r.value.telephone == c.telephone
  {
    if UpdateAccepted(prenom, nom, telephone) then
      Some(c.(prenom := Or(prenom, c.prenom), nom := Or(nom, c.nom),
              telephone := Or(telephone, c.telephone), bus := bus))
    else None
  }

  /** No two drivers hold the same bus. The schema does not enforce this;
      only the driver handlers keep it. */
  predicate BusesHeldOnce(s: seq<Chauffeur>) {
    forall i, j :: 0 <= i < j < |s| && s[i].bus.Some? ==> s[i].bus != s[j].bus
  }
}
