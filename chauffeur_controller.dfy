// controllers/chauffeur.controller.js: the driver table. Creating or updating
// a driver with a bus first looks for another driver holding that bus; this
// lookup is the only thing that keeps a bus to one driver, and the methods
// below show that it does.

module ChauffeurController {
  import opened Common
  import opened Collection
  import B = BusModel
  import Ch = ChauffeurModel
  import opened Store

  /** The fields of a create or update body; `bus` is the bus id. */
  datatype ChauffeurBody = ChauffeurBody(prenom: Option<string>, nom: Option<string>,
                                         telephone: Option<string>, bus: Option<Id>)

  /** `busId || null`: a missing or empty bus id is stored as null. */
  function BusOf(busId: Option<Id>): (r: Option<Id>)
    ensures r.Some? <==> Filled(busId)
    ensures r.Some? ==> r == busId
  {
    if Filled(busId) then busId else None
  }

  /** `findOne({ bus })`, or with `_id: { $ne: except }` when a driver is
      excluded: another driver already holds the bus. */
  predicate HeldByOther(s: seq<Ch.Chauffeur>, bus: Id, except: Option<Id>) {
    exists i :: 0 <= i < |s| && s[i].bus == Some(bus) && (except.None? || s[i].id != except.value)
  }

  /** A driver's own bus is never held by another driver, so re-saving a
      driver with its own bus passes the conflict check. */
  lemma OwnBusNoConflict(s: seq<Ch.Chauffeur>, k: nat)
    requires ChauffeurTable(s) && k < |s| && s[k].bus.Some?
    ensures !HeldByOther(s, s[k].bus.value, Some(s[k].id))
  {
    assert forall i :: 0 <= i < k ==> s[i].bus.None? || s[i].bus != s[k].bus;
    assert forall i :: k < i < |s| ==> s[i].bus != s[k].bus;
  }

  /** Adding a driver whose bus nobody holds keeps buses held once. */
  lemma HeldOnceAfterAppend(s: seq<Ch.Chauffeur>, c: Ch.Chauffeur)
    requires Ch.BusesHeldOnce(s)
    requires c.bus.Some? ==> !HeldByOther(s, c.bus.value, None)
    ensures Ch.BusesHeldOnce(s + [c])
  {
    assert forall i :: 0 <= i < |s| && s[i].bus.Some? ==> s[i].bus != c.bus;
  }

  /** Giving the k-th driver a bus no other driver holds keeps buses held once. */
  lemma HeldOnceAfterReplace(s: seq<Ch.Chauffeur>, k: nat, c: Ch.Chauffeur)
    requires Ch.BusesHeldOnce(s) && DistinctBy(s, ChauffeurKey) && k < |s| && c.id == s[k].id
    requires c.bus.Some? ==> !HeldByOther(s, c.bus.value, Some(c.id))
    ensures Ch.BusesHeldOnce(s[k := c])
  {
    assert forall i :: 0 <= i < |s| && i != k ==> s[i].id != c.id;
    assert forall i :: 0 <= i < |s| && i != k && s[i].bus.Some? ==> s[i].bus != c.bus;
  }

  /** createChauffeur: with a bus id, 400 when another driver holds that bus
      and 404 when no bus has it; 500 when validation rejects the driver;
      otherwise the driver is added (201) with the bus, or null without one.
      No bus ever ends up held by two drivers. */
  method CreateChauffeur(db: Database, body: ChauffeurBody, newId: Id)
    returns (status: int, created: Option<Ch.Chauffeur>)
    requires ChauffeurTable(db.chauffeurs) && Fresh(db.chauffeurs, ChauffeurKey, newId)
    modifies db`chauffeurs
    ensures ChauffeurTable(db.chauffeurs)
    ensures status in {201, 400, 404, 500}
    ensures status == 400 <==> Filled(body.bus) && HeldByOther(old(db.chauffeurs), body.bus.value, None)
    ensures status == 404 <==> Filled(body.bus) && !HeldByOther(old(db.chauffeurs), body.bus.value, None)
                               && Lookup(db.buses, BusKey, body.bus).None?
    ensures status == 500 <==> (!Filled(body.bus) || (!HeldByOther(old(db.chauffeurs), body.bus.value, None)
                                                      && Lookup(db.buses, BusKey, body.bus).Some?))
                               && Ch.Create(newId, body.prenom, body.nom, body.telephone, BusOf(body.bus)).None?
    ensures status != 201 ==> db.chauffeurs == old(db.chauffeurs) && created.None?
    ensures status == 201 ==> created == Ch.Create(newId, body.prenom, body.nom, body.telephone, BusOf(body.bus))
                              && created.Some? && db.chauffeurs == old(db.chauffeurs) + [created.value]
  {
    if Filled(body.bus) {
      if exists i :: 0 <= i < |db.chauffeurs| && db.chauffeurs[i].bus == Some(body.bus.value) {
        return 400, None;
      }
      if Lookup(db.buses, BusKey, body.bus).None? {
        return 404, None;
      }
    }
    created := Ch.Create(newId, body.prenom, body.nom, body.telephone, BusOf(body.bus));
    if created.None? {
      return 500, None;
    }
    HeldOnceAfterAppend(db.chauffeurs, created.value);
    DistinctAfterAppend(db.chauffeurs, ChauffeurKey, created.value);
    db.chauffeurs := db.chauffeurs + [created.value];
    status := 201;
  }

  /** updateChauffeur: with a bus id, 400 when a driver other than this one
      holds it and 404 when no bus has it; then the validators (500 on a
      rejected field) and 404 for an unknown driver; otherwise the given
      fields are replaced and the bus is set, to null when none is given.
      No bus ever ends up held by two drivers. */
  method UpdateChauffeur(db: Database, id: Id, body: ChauffeurBody)
    returns (status: int, updated: Option<Ch.Chauffeur>)
    requires ChauffeurTable(db.chauffeurs)
    modifies db`chauffeurs
    ensures ChauffeurTable(db.chauffeurs)
    ensures status in {200, 400, 404, 500}
    ensures status == 400 <==> Filled(body.bus) && HeldByOther(old(db.chauffeurs), body.bus.value, Some(id))
    ensures status != 200 ==> db.chauffeurs == old(db.chauffeurs) && updated.None?
    ensures var busChecked := !Filled(body.bus) || (!HeldByOther(old(db.chauffeurs), body.bus.value, Some(id))
                                                    && Lookup(db.buses, BusKey, body.bus).Some?);
            var k := IndexOf(old(db.chauffeurs), ChauffeurKey, Some(id));
            ((Filled(body.bus) && !HeldByOther(old(db.chauffeurs), body.bus.value, Some(id))
              && Lookup(db.buses, BusKey, body.bus).None?) ==> status == 404)
            && (busChecked && !Ch.UpdateAccepted(body.prenom, body.nom, body.telephone) ==> status == 500)
            && (busChecked && Ch.UpdateAccepted(body.prenom, body.nom, body.telephone) && k.None? ==> status == 404)
            && (busChecked && Ch.UpdateAccepted(body.prenom, body.nom, body.telephone) && k.Some? ==>
                  status == 200
                  && updated == Ch.Update(old(db.chauffeurs)[k.value], body.prenom, body.nom, body.telephone, BusOf(body.bus))
                  && db.chauffeurs == old(db.chauffeurs)[k.value := updated.value])
  {
    if Filled(body.bus) {
      if exists i :: 0 <= i < |db.chauffeurs| && db.chauffeurs[i].bus == Some(body.bus.value) && db.chauffeurs[i].id != id {
        return 400, None;
      }
      if Lookup(db.buses, BusKey, body.bus).None? {
        return 404, None;
      }
    }
    if !Ch.UpdateAccepted(body.prenom, body.nom, body.telephone) {
      return 500, None;
    }
    var k := IndexOf(db.chauffeurs, ChauffeurKey, Some(id));
    if k.None? {
      return 404, None;
    }
    updated := Ch.Update(db.chauffeurs[k.value], body.prenom, body.nom, body.telephone, BusOf(body.bus));
    HeldOnceAfterReplace(db.chauffeurs, k.value, updated.value);
    DistinctAfterReplace(db.chauffeurs, ChauffeurKey, k.value, updated.value);
    db.chauffeurs := db.chauffeurs[k.value := updated.value];
    status := 200;
  }

  /** A driver with its bus populated: null when the bus is gone. */
  datatype DriverView = DriverView(chauffeur: Ch.Chauffeur, bus: Option<B.Bus>)

  function PopulateBus(c: Ch.Chauffeur, buses: seq<B.Bus>): (v: DriverView)
    ensures v.chauffeur == c
    ensures v.bus.Some? ==> c.bus.Some? && v.bus.value in buses && v.bus.value.id == c.bus.value
    ensures v.bus.None? <==> c.bus.None? || forall j :: 0 <= j < |buses| ==> buses[j].id != c.bus.value
  {
    DriverView(c, Lookup(buses, BusKey, c.bus))
  }

  /** getChauffeurs: every driver, in stored order, with its bus. */
  function GetChauffeurs(s: seq<Ch.Chauffeur>, buses: seq<B.Bus>): (r: seq<DriverView>)
    ensures |r| == |s|
    ensures forall i :: 0 <= i < |s| ==> r[i] == PopulateBus(s[i], buses)
  {
    seq(|s|, i requires 0 <= i < |s| => PopulateBus(s[i], buses))
  }

  datatype DriverReply = DriverReply(status: int, driver: Option<DriverView>)

  /** getChauffeurById: the driver with its bus, or 404. */
  function GetChauffeurById(s: seq<Ch.Chauffeur>, buses: seq<B.Bus>, id: Id): (r: DriverReply)
    ensures r.status in {200, 404}
    ensures r.status == 404 <==> Fresh(s, ChauffeurKey, id)
    ensures r.status == 200 ==> r.driver.Some? && r.driver.value.chauffeur in s && r.driver.value.chauffeur.id == id
                                && r.driver.value == PopulateBus(r.driver.value.chauffeur, buses)
  {
    match Lookup(s, ChauffeurKey, Some(id))
    case None => DriverReply(404, None)
    case Some(c) => DriverReply(200, Some(PopulateBus(c, buses)))
  }

  /** deleteChauffeur: 404 for an unknown driver; otherwise the driver is
      removed, which frees its bus for another driver. */
  method DeleteChauffeur(db: Database, id: Id) returns (status: int)
    requires ChauffeurTable(db.chauffeurs)
    modifies db`chauffeurs
    ensures ChauffeurTable(db.chauffeurs)
    ensures var k := IndexOf(old(db.chauffeurs), ChauffeurKey, Some(id));
            (k.None? ==> status == 404 && db.chauffeurs == old(db.chauffeurs))
            && (k.Some? ==> status == 200 && db.chauffeurs == RemoveAt(old(db.chauffeurs), k.value)
                            && (old(db.chauffeurs)[k.value].bus.Some? ==>
                                  !HeldByOther(db.chauffeurs, old(db.chauffeurs)[k.value].bus.value, None)))
  {
    var k := IndexOf(db.chauffeurs, ChauffeurKey, Some(id));
    if k.None? {
      return 404;
    }
    ghost var s := db.chauffeurs;
    DistinctAfterRemove(db.chauffeurs, ChauffeurKey, k.value);
    db.chauffeurs := RemoveAt(db.chauffeurs, k.value);
    if s[k.value].bus.Some? {
      OwnBusNoConflict(s, k.value);
      FreedAfterRemove(s, k.value);
    }
    return 200;
  }

  /** Once the only holder of a bus is removed, nobody holds it. */
  lemma FreedAfterRemove(s: seq<Ch.Chauffeur>, k: nat)
    requires ChauffeurTable(s) && k < |s| && s[k].bus.Some?
    requires !HeldByOther(s, s[k].bus.value, Some(s[k].id))
    ensures !HeldByOther(RemoveAt(s, k), s[k].bus.value, None)
  {
    var t := RemoveAt(s, k);
    forall i | 0 <= i < |t| ensures t[i].bus != s[k].bus {
      if i < k {
        assert t[i] == s[i];
      } else {
        assert t[i] == s[i + 1];
      }
    }
  }
}
