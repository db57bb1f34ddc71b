// controllers/colis.controller.js: creating, reading and updating parcels.
// Every write goes through `save()`: the schema's validators run first, then
// the pre-save hook (a tracking code for a new parcel, the price when the
// weight changed), then the unique index on `code_suivi` is checked.

module ColisController {
  import opened Common
  import opened Calendar
  import opened Collection
  import Co = ColisModel
  import opened Store
  import D = Dashboard

  /** The fields creerColis takes from the body; `distance` and `valeur` are
      not schema paths and are dropped. */
  datatype ColisInput = ColisInput(description: Option<string>, poids: Option<int>,
                                   expediteur_nom: Option<string>, expediteur_telephone: Option<string>,
                                   destinataire_nom: Option<string>, destinataire_telephone: Option<string>)

  /** `new Colis({...})` with the given trip reference: a missing string is
      left empty (which `required` rejects), the status is 'enregistré' and the
      date is now; None when the required weight is missing. */
  function NewColis(id: Id, trajet: Option<Id>, b: ColisInput, now: Instant): (r: Option<Co.Colis>)
    ensures r.Some? <==> b.poids.Some?
    ensures r.Some? ==> r.value.id == id && r.value.trajet == trajet && r.value.statut == Co.DefaultStatut
                        && r.value.poids == b.poids.value && r.value.code_suivi.None?
                        && r.value.date_enregistrement == now
    ensures r.Some? ==> (Co.Valid(r.value) <==> (
                          trajet.Some? && Filled(b.description)
                          && Filled(b.expediteur_nom) && Filled(b.expediteur_telephone)
                          && Filled(b.destinataire_nom) && Filled(b.destinataire_telephone) && ValidInstant(now)))
  {
    if b.poids.None? then None
    else Some(Co.Colis(id, trajet, Or(b.description, ""), b.poids.value, 0, Co.DefaultStatut, None,
                       Or(b.expediteur_nom, ""), Or(b.expediteur_telephone, ""), None,
                       Or(b.destinataire_nom, ""), Or(b.destinataire_telephone, ""), now))
  }

  /** When the redraw loop of the hook can end for a parcel: some candidate
      code is free. Only a parcel that passes validation reaches the hook. */
  predicate SomeCodeFree(stored: seq<Co.Colis>, candidates: seq<seq<real>>)
    requires Co.Candidates(candidates)
  {
    exists k :: 0 <= k < |candidates| && !Co.Taken(stored, Co.CandidateCode(candidates, k))
  }

  /** `save()` of a new parcel: 400 when validation rejects it; otherwise the
      hook gives it a tracking code no stored parcel holds and the price of
      its weight, and it is appended (201). */
  method SaveNew(db: Database, c: Co.Colis, candidates: seq<seq<real>>) returns (status: int, saved: Option<Co.Colis>)
    requires ColisTable(db.colis) && Fresh(db.colis, ColisKey, c.id) && Co.Candidates(candidates)
    requires Co.Valid(c) ==> SomeCodeFree(db.colis, candidates)
    modifies db`colis
    ensures ColisTable(db.colis)
    ensures status in {201, 400}
    ensures status == 400 <==> !Co.Valid(c)
    ensures status == 400 ==> db.colis == old(db.colis) && saved.None?
    ensures status == 201 ==> saved.Some? && db.colis == old(db.colis) + [saved.value]
    ensures status == 201 ==> saved.value == c.(code_suivi := saved.value.code_suivi, prix := Co.CalculPrix(c.poids))
    ensures status == 201 ==> saved.value.code_suivi.Some? && !Co.Taken(old(db.colis), saved.value.code_suivi.value)
                              && |saved.value.code_suivi.value| == Co.DefaultCodeLength
  {
    if !Co.Valid(c) {
      return 400, None;
    }
    var d := new Co.ColisDocument(c);
    var ok := d.PreSave(db.colis, candidates);
    assert ok;
    var s := d.doc;
    assert forall i :: 0 <= i < |db.colis| ==> db.colis[i].code_suivi != s.code_suivi;
    DistinctAfterAppend(db.colis, ColisKey, s);
    db.colis := db.colis + [s];
    return 201, Some(s);
  }

  /** creerColis: the handler never passes a trip, and the schema requires
      one, so every call is refused with 400 and nothing is stored. */
  method CreerColis(db: Database, body: ColisInput, newId: Id, now: Instant, candidates: seq<seq<real>>)
    returns (status: int, created: Option<Co.Colis>)
    requires ColisTable(db.colis) && Fresh(db.colis, ColisKey, newId) && Co.Candidates(candidates)
    modifies db`colis
    ensures ColisTable(db.colis)
    ensures status == 400 && created.None? && db.colis == old(db.colis)
  {
    var c := NewColis(newId, None, body, now);
    if c.None? {
      return 400, None;    // a missing required weight also fails validation
    }
    status, created := SaveNew(db, c.value, candidates);
  }

  /** creerColis with the body's `trajet` passed to `new Colis`: 201 exactly
      when the weight, the trip, the description and every sender and
      recipient field are given, the new parcel, with a free code and the
      price of its weight, being appended; otherwise 400 and nothing stored. */
  method CreerColisWithTrajet(db: Database, body: ColisInput, trajet: Option<Id>, newId: Id, now: Instant,
                              candidates: seq<seq<real>>)
    returns (status: int, created: Option<Co.Colis>)
    requires ColisTable(db.colis) && Fresh(db.colis, ColisKey, newId) && Co.Candidates(candidates)
    requires SomeCodeFree(db.colis, candidates)
    modifies db`colis
    ensures ColisTable(db.colis)
    ensures status in {201, 400}
    ensures status == 201 <==> body.poids.Some? && trajet.Some? && Filled(body.description)
                               && Filled(body.expediteur_nom) && Filled(body.expediteur_telephone)
                               && Filled(body.destinataire_nom) && Filled(body.destinataire_telephone)
                               && ValidInstant(now)
    ensures status == 400 ==> created.None? && db.colis == old(db.colis)
    ensures status == 201 ==> created.Some? && db.colis == old(db.colis) + [created.value]
                              && created.value.id == newId && created.value.trajet == trajet
                              && created.value.poids == body.poids.value
                              && created.value.prix == Co.CalculPrix(body.poids.value)
                              && created.value.code_suivi.Some? && !Co.Taken(old(db.colis), created.value.code_suivi.value)
  {
    var c := NewColis(newId, trajet, body, now);
    if c.None? {
      return 400, None;
    }
    status, created := SaveNew(db, c.value, candidates);
  }

  datatype ColisReply = ColisReply(status: int, colis: Option<Co.Colis>)

  /** getAllColis: every parcel, newest first. */
  function GetAllColis(s: seq<Co.Colis>): (r: seq<Co.Colis>)
    ensures multiset(r) == multiset(s)
    ensures forall i, j :: 0 <= i < j < |r| ==> TimeValue(r[j].date_enregistrement) <= TimeValue(r[i].date_enregistrement)
  {
    SortBySorted(s, D.NewestFirst);
    SortBy(s, D.NewestFirst)
  }

  /** getColisById: the parcel with that id, or 404. */
  function GetColisById(s: seq<Co.Colis>, id: Option<Id>): (r: ColisReply)
    ensures r.status in {200, 404}
    ensures r.status == 404 <==> IndexOf(s, ColisKey, id).None?
    ensures r.status == 200 ==> r.colis.Some? && r.colis.value in s && Some(r.colis.value.id) == id
    ensures r.status == 404 ==> r.colis.None?
  {
    match Lookup(s, ColisKey, id)
    case None => ColisReply(404, None)
    case Some(c) => ColisReply(200, Some(c))
  }

  /** `findOne({ code_suivi: code })`: the first parcel holding the code. */
  function FindByCode(s: seq<Co.Colis>, code: string): (r: Option<nat>)
    ensures r.Some? ==> r.value < |s| && s[r.value].code_suivi == Some(code)
    ensures r.None? <==> !Co.Taken(s, code)
    ensures r.Some? ==> forall j :: 0 <= j < r.value ==> s[j].code_suivi != Some(code)
  {
    FirstIndex(s, (c: Co.Colis) => c.code_suivi == Some(code))
  }

  /** getColisByCode: the parcel holding the tracking code, or 404. */
  function GetColisByCode(s: seq<Co.Colis>, code: string): (r: ColisReply)
    ensures r.status in {200, 404}
    ensures r.status == 404 <==> !Co.Taken(s, code)
    ensures r.status == 200 ==> r.colis.Some? && r.colis.value in s && r.colis.value.code_suivi == Some(code)
    ensures r.status == 404 ==> r.colis.None?
  {
    match FindByCode(s, code)
    case None => ColisReply(404, None)
    case Some(i) => ColisReply(200, Some(s[i]))
  }

  /** With unique codes, the parcel found by its code is the only one holding it. */
  lemma GetColisByCodeUnique(s: seq<Co.Colis>, code: string, i: nat)
    requires Co.CodesUnique(s) && i < |s| && s[i].code_suivi == Some(code)
    ensures GetColisByCode(s, code) == ColisReply(200, Some(s[i]))
  {
    var k := FindByCode(s, code);
    assert k.Some? && k.value <= i;
    assert s[k.value].code_suivi == s[i].code_suivi;
  }

  // ---------------------------------------------------------------------
  // Status update
  // ---------------------------------------------------------------------

  /** The statuses an admin may set by hand: 'enregistré', 'encours', 'arrivé'. */
  predicate StatutUpdateAllowed(statut: Option<string>) {
    statut == Some("enregistré") || statut == Some("encours") || statut == Some("arrivé")
  }

  /** Every allowed status is a schema status other than 'annulé', and
      'annulé' is refused although the schema accepts it. */
  lemma StatutUpdateAllowedIsSchemaStatus(statut: Option<string>)
    ensures StatutUpdateAllowed(statut) ==> statut.Some? && Co.ParseStatut(statut.value).Some?
                                            && Co.ParseStatut(statut.value) != Some(Co.AnnuleColis)
    ensures !StatutUpdateAllowed(Some("annulé")) && Co.ParseStatut("annulé") == Some(Co.AnnuleColis)
  {
  }

  /** updateStatutColis: a status outside the allowed three gives 400, an
      unknown id 404, both without a change; otherwise only `statut` changes
      (the weight is not modified, so the hook keeps the price). */
  method UpdateStatutColis(db: Database, id: Option<Id>, statut: Option<string>)
    returns (status: int, updated: Option<Co.Colis>)
    requires ColisTable(db.colis)
    modifies db`colis
    ensures ColisTable(db.colis)
    ensures status in {200, 400, 404}
    ensures status == 400 <==> !StatutUpdateAllowed(statut)
    ensures status == 404 <==> StatutUpdateAllowed(statut) && IndexOf(old(db.colis), ColisKey, id).None?
    ensures status != 200 ==> db.colis == old(db.colis) && updated.None?
    ensures status == 200 ==> (
              var k := IndexOf(old(db.colis), ColisKey, id).value;
              updated == Some(old(db.colis)[k].(statut := Co.ParseStatut(statut.value).value))
              && db.colis == old(db.colis)[k := updated.value])
  {
    if !StatutUpdateAllowed(statut) {
      return 400, None;
    }
    var k := IndexOf(db.colis, ColisKey, id);
    if k.None? {
      return 404, None;
    }
    var c := db.colis[k.value];
    var d := new Co.ColisDocument.Loaded(c);
    d.Assign(c.(statut := Co.ParseStatut(statut.value).value));
    var ok := d.PreSave(db.colis, []);
    var s := d.doc;
    assert s == c.(statut := Co.ParseStatut(statut.value).value);
    DistinctAfterReplace(db.colis, ColisKey, k.value, s);
    db.colis := db.colis[k.value := s];
    return 200, Some(s);
  }

  // ---------------------------------------------------------------------
  // Full update
  // ---------------------------------------------------------------------

  /** The schema paths a body may set through Object.assign. */
  datatype ColisUpdate = ColisUpdate(
    trajet: Option<Id>,
    description: Option<string>,
    poids: Option<int>,
    prix: Option<int>,
    statut: Option<string>,
    code_suivi: Option<string>,
    expediteur_nom: Option<string>,
    expediteur_telephone: Option<string>,
    expediteur_email: Option<string>,
    destinataire_nom: Option<string>,
    destinataire_telephone: Option<string>,
    date_enregistrement: Option<Instant>)

  /** Every path the update sets holds the update's value in r. */
  predicate TakesSetPaths(r: Co.Colis, u: ColisUpdate) {
    (u.trajet.Some? ==> r.trajet == u.trajet)
    && (u.description.Some? ==> r.description == u.description.value)
    && (u.poids.Some? ==> r.poids == u.poids.value)
    && (u.prix.Some? ==> r.prix == u.prix.value)
    && (u.statut.Some? ==> Co.StatutName(r.statut) == u.statut.value)
    && (u.code_suivi.Some? ==> r.code_suivi == u.code_suivi)
    && (u.expediteur_nom.Some? ==> r.expediteur_nom == u.expediteur_nom.value)
    && (u.expediteur_telephone.Some? ==> r.expediteur_telephone == u.expediteur_telephone.value)
    && (u.expediteur_email.Some? ==> r.expediteur_email == u.expediteur_email)
    && (u.destinataire_nom.Some? ==> r.destinataire_nom == u.destinataire_nom.value)
    && (u.destinataire_telephone.Some? ==> r.destinataire_telephone == u.destinataire_telephone.value)
    && (u.date_enregistrement.Some? ==> r.date_enregistrement == u.date_enregistrement.value)
  }

  /** Every path the update leaves out holds c's value in r. */
  predicate KeepsUnsetPaths(r: Co.Colis, c: Co.Colis, u: ColisUpdate) {
    r.id == c.id
    && (u.trajet.None? ==> r.trajet == c.trajet)
    && (u.description.None? ==> r.description == c.description)
    && (u.poids.None? ==> r.poids == c.poids)
    && (u.prix.None? ==> r.prix == c.prix)
    && (u.statut.None? ==> r.statut == c.statut)
    && (u.code_suivi.None? ==> r.code_suivi == c.code_suivi)
    && (u.expediteur_nom.None? ==> r.expediteur_nom == c.expediteur_nom)
    && (u.expediteur_telephone.None? ==> r.expediteur_telephone == c.expediteur_telephone)
    && (u.expediteur_email.None? ==> r.expediteur_email == c.expediteur_email)
    && (u.destinataire_nom.None? ==> r.destinataire_nom == c.destinataire_nom)
    && (u.destinataire_telephone.None? ==> r.destinataire_telephone == c.destinataire_telephone)
    && (u.date_enregistrement.None? ==> r.date_enregistrement == c.date_enregistrement)
  }

  /** Object.assign(colis, updates): each path the body sets takes its value;
      None when the status is not one of the enum's names. */
  function Merge(c: Co.Colis, u: ColisUpdate): (r: Option<Co.Colis>)
    ensures r.Some? <==> u.statut.None? || Co.ParseStatut(u.statut.value).Some?
    ensures r.Some? ==> TakesSetPaths(r.value, u)
    ensures r.Some? ==> KeepsUnsetPaths(r.value, c, u)
  {
    var st := if u.statut.Some? then Co.ParseStatut(u.statut.value) else Some(c.statut);
    if st.None? then None
    else Some(Co.Colis(c.id,
                       if u.trajet.Some? then u.trajet else c.trajet,
                       Or(u.description, c.description),
                       Or(u.poids, c.poids),
                       Or(u.prix, c.prix),
                       st.value,
                       if u.code_suivi.Some? then u.code_suivi else c.code_suivi,
                       Or(u.expediteur_nom, c.expediteur_nom),
                       Or(u.expediteur_telephone, c.expediteur_telephone),
                       if u.expediteur_email.Some? then u.expediteur_email else c.expediteur_email,
                       Or(u.destinataire_nom, c.destinataire_nom),
                       Or(u.destinataire_telephone, c.destinataire_telephone),
                       Or(u.date_enregistrement, c.date_enregistrement)))
  }

  /** What the hook does to a stored parcel after the merge: the price is
      recomputed iff the weight took a different value. */
  function Repriced(c: Co.Colis, m: Co.Colis): Co.Colis {
    if m.poids != c.poids then m.(prix := Co.CalculPrix(m.poids)) else m
  }

  /** A body with a new weight gets the price of that weight. A body that
      sets no price keeps a parcel priced by its weight priced by its
      (possibly new) weight; a body that sets a price without changing the
      weight keeps that price. */
  lemma RepricedRule(c: Co.Colis, u: ColisUpdate)
    requires Merge(c, u).Some?
    ensures var r := Repriced(c, Merge(c, u).value);
            (u.poids.Some? && u.poids.value != c.poids ==> r.prix == Co.CalculPrix(u.poids.value))
            && (u.prix.None? && c.prix == Co.CalculPrix(c.poids) ==> r.prix == Co.CalculPrix(r.poids))
            && (u.prix.Some? && (u.poids.None? || u.poids.value == c.poids) ==> r.prix == u.prix.value)
  {
  }

  /** The merged parcel would hold a code that another stored parcel holds:
      the unique index refuses the write. */
  predicate CodeClash(s: seq<Co.Colis>, k: nat, m: Co.Colis) {
    m.code_suivi.Some? && exists i :: 0 <= i < |s| && i != k && s[i].code_suivi == m.code_suivi
  }

  /** updateColis: 404 for an unknown id; 400 when the merged parcel fails
      validation or its code clashes with another parcel's; otherwise the
      merged parcel, repriced if its weight changed, replaces the stored one. */
  method UpdateColis(db: Database, id: Option<Id>, u: ColisUpdate) returns (status: int, updated: Option<Co.Colis>)
    requires ColisTable(db.colis)
    modifies db`colis
    ensures ColisTable(db.colis)
    ensures status in {200, 400, 404}
    ensures status == 404 <==> IndexOf(old(db.colis), ColisKey, id).None?
    ensures status != 200 ==> db.colis == old(db.colis) && updated.None?
    ensures status != 404 ==> (
              var k := IndexOf(old(db.colis), ColisKey, id).value;
              var m := Merge(old(db.colis)[k], u);
              (status == 400 <==> m.None? || !Co.Valid(m.value) || CodeClash(old(db.colis), k, m.value))
              && (status == 200 ==>
                    updated == Some(Repriced(old(db.colis)[k], m.value))
                    && db.colis == old(db.colis)[k := updated.value]))
  {
    var k := IndexOf(db.colis, ColisKey, id);
    if k.None? {
      return 404, None;
    }
    var c := db.colis[k.value];
    var m := Merge(c, u);
    if m.None? || !Co.Valid(m.value) {
      return 400, None;
    }
    var d := new Co.ColisDocument.Loaded(c);
    d.Assign(m.value);
    var ok := d.PreSave(db.colis, []);
    var s := d.doc;
    assert s == Repriced(c, m.value);
    if CodeClash(db.colis, k.value, s) {
      return 400, None;
    }
    ReplaceKeepsColisTable(db.colis, k.value, s);
    db.colis := db.colis[k.value := s];
    return 200, Some(s);
  }

  /** Replacing parcel k by a valid parcel with the same id whose code no
      other parcel holds keeps the collection well formed. */
  lemma ReplaceKeepsColisTable(s: seq<Co.Colis>, k: nat, x: Co.Colis)
    requires ColisTable(s) && k < |s| && x.id == s[k].id && Co.Valid(x) && !CodeClash(s, k, x)
    ensures ColisTable(s[k := x])
  {
    DistinctAfterReplace(s, ColisKey, k, x);
    var t := s[k := x];
    forall i, j | 0 <= i < j < |t| && t[i].code_suivi.Some? ensures t[i].code_suivi != t[j].code_suivi {
      if i == k {
        assert s[j].code_suivi != x.code_suivi;
      } else if j == k {
        assert s[i].code_suivi != x.code_suivi;
      }
    }
  }
}
