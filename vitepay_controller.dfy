// controllers/vitepay.controller.js: the payment notification of the mounted
// application. An authentic notification confirms its reservation, or cancels
// it and gives its seats back to the trip. The source does not check the prior
// status, so a second failure notice for the same reservation gives the
// seats back a second time; `HandleCallbackOnce` is the handler with that
// check added.

module VitePayCallback {
  import opened Common
  import opened Collection
  import T = TrajetModel
  import R = ReservationModel
  import opened Store
  import opened VitePay
  import opened SeatLedger

  /** The fields of a notification body; any of them may be missing. */
  datatype CallbackBody = CallbackBody(orderId: Option<string>, authenticity: Option<string>,
                                       success: Option<string>, amount100: Option<string>,
                                       currencyCode: Option<string>)

  /** The notification carries the authenticity computed with the API secret. */
  predicate IsAuthentic(body: CallbackBody, env: Env, sha1Hex: string -> string) {
    Authentic(body.authenticity, body.orderId, body.amount100, body.currencyCode, env.apiSecret, sha1Hex)
  }

  /** The status a notification asks for: 'confirmée' for success "1" exactly,
      'annulée' for anything else, a missing value included. */
  function Outcome(success: Option<string>): (s: R.Statut)
    ensures s == R.Confirmee <==> success == Some("1")
    ensures s == R.Annulee <==> success != Some("1")
  {
    if success == Some("1") then R.Confirmee else R.Annulee
  }

  /** The outcome never leaves a reservation pending. */
  lemma OutcomeSettles(success: Option<string>)
    ensures Outcome(success) != R.EnAttente
  {
  }

  /** Both collections after a notification was applied. */
  datatype Tables = Tables(trajets: seq<T.Trajet>, reservations: seq<R.Reservation>)

  /** The writes an authentic notification for the stored reservation k makes:
      the reservation takes the notified status and, on a failure, its seats
      go back to its trip when that trip is stored. With `once`, the seats go
      back only when the reservation was not cancelled already. */
  function Settle(ts: seq<T.Trajet>, rs: seq<R.Reservation>, k: nat, success: Option<string>, once: bool): (after: Tables)
    requires k < |rs|
    ensures |after.trajets| == |ts| && |after.reservations| == |rs|
  {
    var r := rs[k];
    var j := IndexOf(ts, TrajetKey, Some(r.trajet));
    var refund := Outcome(success) == R.Annulee && (!once || r.statut != R.Annulee) && j.Some?;
    Tables(if refund then ts[j.value := AddSeats(ts[j.value], r.placesReservees)] else ts,
           rs[k := r.(statut := Outcome(success))])
  }

  /** The writes keep both collections well formed; only the reservation k and
      at most the one trip it names change, and that trip only by the
      reservation's seats. */
  lemma SettleKeepsTables(ts: seq<T.Trajet>, rs: seq<R.Reservation>, k: nat, success: Option<string>, once: bool)
    requires TrajetTable(ts) && ReservationTable(rs) && k < |rs|
    ensures TrajetTable(Settle(ts, rs, k, success, once).trajets)
    ensures ReservationTable(Settle(ts, rs, k, success, once).reservations)
    ensures forall i :: 0 <= i < |ts| && ts[i].id != rs[k].trajet ==> Settle(ts, rs, k, success, once).trajets[i] == ts[i]
    ensures forall i :: 0 <= i < |ts| && ts[i].id == rs[k].trajet ==>
              Settle(ts, rs, k, success, once).trajets[i] == ts[i]
              || Settle(ts, rs, k, success, once).trajets[i] == AddSeats(ts[i], rs[k].placesReservees)
  {
    var r := rs[k];
    var j := IndexOf(ts, TrajetKey, Some(r.trajet));
    DistinctAfterReplace(rs, ReservationKey, k, r.(statut := Outcome(success)));
    if j.Some? {
      AddSeatsValid(ts[j.value], r.placesReservees);
      DistinctAfterReplace(ts, TrajetKey, j.value, AddSeats(ts[j.value], r.placesReservees));
      forall i | 0 <= i < |ts| && ts[i].id == r.trajet ensures i == j.value {
        IndexOfUnique(ts, TrajetKey, r.trajet, i);
      }
    }
  }

  /** A notification about a reservation that was not cancelled keeps every
      trip's seat ledger, with or without the prior-status check. */
  lemma SettleKeepsLedgers(ts: seq<T.Trajet>, rs: seq<R.Reservation>, k: nat, success: Option<string>, once: bool)
    requires TrajetTable(ts) && k < |rs| && rs[k].statut != R.Annulee
    ensures var after := Settle(ts, rs, k, success, once);
            forall i :: 0 <= i < |ts| ==> Ledger(after.trajets[i], after.reservations) == Ledger(ts[i], rs)
  {
    if Outcome(success) == R.Confirmee {
      forall i | 0 <= i < |ts| ensures Ledger(ts[i], rs[k := rs[k].(statut := R.Confirmee)]) == Ledger(ts[i], rs) {
        ConfirmKeepsLedger(rs, k, ts[i]);
      }
    } else {
      CancelKeepsAllLedgers(ts, rs, k, IndexOf(ts, TrajetKey, Some(rs[k].trajet)));
    }
  }

  /** Without the check, a failure notice for a reservation already cancelled
      grows its trip's ledger by the reservation's seats. */
  lemma RepeatedFailureInflatesLedger(ts: seq<T.Trajet>, rs: seq<R.Reservation>, k: nat, success: Option<string>)
    requires k < |rs| && rs[k].statut == R.Annulee && Outcome(success) == R.Annulee
    requires IndexOf(ts, TrajetKey, Some(rs[k].trajet)).Some?
    ensures var j := IndexOf(ts, TrajetKey, Some(rs[k].trajet)).value;
            var after := Settle(ts, rs, k, success, false);
            Ledger(after.trajets[j], after.reservations) == Ledger(ts[j], rs) + rs[k].placesReservees
  {
    var j := IndexOf(ts, TrajetKey, Some(rs[k].trajet)).value;
    RepeatedCancelInflatesLedger(rs, k, ts[j]);
  }

  /** With the check, a failure notice for a reservation already cancelled
      writes nothing at all. */
  lemma SettleOnceIdempotent(ts: seq<T.Trajet>, rs: seq<R.Reservation>, k: nat, success: Option<string>)
    requires k < |rs| && rs[k].statut == R.Annulee && Outcome(success) == R.Annulee
    ensures Settle(ts, rs, k, success, true) == Tables(ts, rs)
  {
    assert rs[k := rs[k].(statut := R.Annulee)] == rs;
  }

  /** With or without the check, a success notice for a reservation already
      cancelled confirms it without taking its seats again, so its trip's
      ledger grows by the reservation's seats. */
  lemma SuccessAfterFailureInflatesLedger(ts: seq<T.Trajet>, rs: seq<R.Reservation>, k: nat, once: bool)
    requires k < |rs| && rs[k].statut == R.Annulee
    requires IndexOf(ts, TrajetKey, Some(rs[k].trajet)).Some?
    ensures var j := IndexOf(ts, TrajetKey, Some(rs[k].trajet)).value;
            var after := Settle(ts, rs, k, Some("1"), once);
            after.reservations[k].statut == R.Confirmee
            && Ledger(after.trajets[j], after.reservations) == Ledger(ts[j], rs) + rs[k].placesReservees
  {
    var j := IndexOf(ts, TrajetKey, Some(rs[k].trajet)).value;
    ConfirmAfterCancelInflatesLedger(rs, k, ts[j]);
  }

  /** handleCallback: 400 for a notification that is not authentic and 404 for
      an unknown reservation, both without a change. Otherwise (200) the
      reservation takes the notified status and, on a failure, its seats are
      added back to its trip whatever the reservation's status was; a trip
      that is gone is left alone. */
  method HandleCallback(db: Database, body: CallbackBody, env: Env, sha1Hex: string -> string)
    returns (status: int)
    requires TrajetTable(db.trajets) && ReservationTable(db.reservations)
    modifies db`trajets, db`reservations
    ensures TrajetTable(db.trajets) && ReservationTable(db.reservations)
    ensures status in {200, 400, 404}
    ensures status == 400 <==> !IsAuthentic(body, env, sha1Hex)
    ensures status == 404 <==> IsAuthentic(body, env, sha1Hex)
                               && IndexOf(old(db.reservations), ReservationKey, body.orderId).None?
    ensures status != 200 ==> db.trajets == old(db.trajets) && db.reservations == old(db.reservations)
    ensures status == 200 ==>
              IndexOf(old(db.reservations), ReservationKey, body.orderId).Some?
              && Tables(db.trajets, db.reservations)
                 == Settle(old(db.trajets), old(db.reservations),
                           IndexOf(old(db.reservations), ReservationKey, body.orderId).value, body.success, false)
  {
    if !IsAuthentic(body, env, sha1Hex) {
      return 400;
    }
    var k := IndexOf(db.reservations, ReservationKey, body.orderId);
    if k.None? {
      return 404;
    }
    SettleKeepsTables(db.trajets, db.reservations, k.value, body.success, false);
    var r := db.reservations[k.value];
    var updated := r.(statut := Outcome(body.success));
    if updated.statut == R.Annulee {
      var j := IndexOf(db.trajets, TrajetKey, Some(r.trajet));
      if j.Some? {
        db.trajets := db.trajets[j.value := AddSeats(db.trajets[j.value], r.placesReservees)];
      }
    }
    db.reservations := db.reservations[k.value := updated];
    return 200;
  }

  /** Cancelling a reservation that was not cancelled and giving its seats
      back to its trip (when that trip is stored) keeps every trip's ledger. */
  lemma CancelKeepsAllLedgers(ts: seq<T.Trajet>, rs: seq<R.Reservation>, k: nat, j: Option<nat>)
    requires TrajetTable(ts) && k < |rs| && rs[k].statut != R.Annulee
    requires j == IndexOf(ts, TrajetKey, Some(rs[k].trajet))
    ensures var ts' := if j.Some? then ts[j.value := AddSeats(ts[j.value], rs[k].placesReservees)] else ts;
            forall i :: 0 <= i < |ts| ==>
              Ledger(ts'[i], rs[k := rs[k].(statut := R.Annulee)]) == Ledger(ts[i], rs)
  {
    var ts' := if j.Some? then ts[j.value := AddSeats(ts[j.value], rs[k].placesReservees)] else ts;
    var rs' := rs[k := rs[k].(statut := R.Annulee)];
    forall i | 0 <= i < |ts| ensures Ledger(ts'[i], rs') == Ledger(ts[i], rs) {
      if j.Some? && i == j.value {
        CancelKeepsLedger(rs, k, ts[i]);
      } else {
        assert ts[i].id != rs[k].trajet;
        OtherTripUnaffected(rs, k, rs[k].(statut := R.Annulee), ts[i]);
      }
    }
  }

  /** The handler with the prior status checked: a failure notice gives the
      seats back only if the reservation was not cancelled already. */
  method HandleCallbackOnce(db: Database, body: CallbackBody, env: Env, sha1Hex: string -> string)
    returns (status: int)
    requires TrajetTable(db.trajets) && ReservationTable(db.reservations)
    modifies db`trajets, db`reservations
    ensures TrajetTable(db.trajets) && ReservationTable(db.reservations)
    ensures status in {200, 400, 404}
    ensures status == 400 <==> !IsAuthentic(body, env, sha1Hex)
    ensures status == 404 <==> IsAuthentic(body, env, sha1Hex)
                               && IndexOf(old(db.reservations), ReservationKey, body.orderId).None?
    ensures status != 200 ==> db.trajets == old(db.trajets) && db.reservations == old(db.reservations)
    ensures status == 200 ==>
              IndexOf(old(db.reservations), ReservationKey, body.orderId).Some?
              && Tables(db.trajets, db.reservations)
                 == Settle(old(db.trajets), old(db.reservations),
                           IndexOf(old(db.reservations), ReservationKey, body.orderId).value, body.success, true)
  {
    if !IsAuthentic(body, env, sha1Hex) {
      return 400;
    }
    var k := IndexOf(db.reservations, ReservationKey, body.orderId);
    if k.None? {
      return 404;
    }
    SettleKeepsTables(db.trajets, db.reservations, k.value, body.success, true);
    var r := db.reservations[k.value];
    var updated := r.(statut := Outcome(body.success));
    if updated.statut == R.Annulee && r.statut != R.Annulee {
      var j := IndexOf(db.trajets, TrajetKey, Some(r.trajet));
      if j.Some? {
        db.trajets := db.trajets[j.value := AddSeats(db.trajets[j.value], r.placesReservees)];
      }
    }
    db.reservations := db.reservations[k.value := updated];
    return 200;
  }
}
