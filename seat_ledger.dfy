// The seat ledger of a trip: its free seats plus the seats its reservations
// hold while they are not cancelled. Booking, confirming and cancelling with
// a seat restore leave it unchanged; the lemmas below say which transitions
// of the handlers keep it and which do not.

module SeatLedger {
  import opened Common
  import opened Collection
  import T = TrajetModel
  import R = ReservationModel
  import opened Store

  /** The trip with n more free seats (`$inc: { placesDisponibles: n }`). */
  function AddSeats(t: T.Trajet, n: int): (r: T.Trajet)
    ensures r.placesDisponibles == t.placesDisponibles + n
    ensures r.(placesDisponibles := t.placesDisponibles) == t
  {
    t.(placesDisponibles := t.placesDisponibles + n)
  }

  lemma AddSeatsValid(t: T.Trajet, n: int)
    requires T.Valid(t)
    ensures T.Valid(AddSeats(t, n)) && AddSeats(t, n).id == t.id
  {
  }

  lemma HeldAppend(rs: seq<R.Reservation>, r: R.Reservation, id: Id)
    ensures Held(rs + [r], id) == Held(rs, id) + Holds(id)(r)
  {
    SumOfAppend(rs, r, Holds(id));
  }

  lemma HeldUpdate(rs: seq<R.Reservation>, i: nat, r: R.Reservation, id: Id)
    requires i < |rs|
    ensures Held(rs[i := r], id) == Held(rs, id) - Holds(id)(rs[i]) + Holds(id)(r)
  {
    SumOfUpdate(rs, i, r, Holds(id));
  }

  lemma HeldRemove(rs: seq<R.Reservation>, i: nat, id: Id)
    requires i < |rs|
    ensures Held(RemoveAt(rs, i), id) == Held(rs, id) - Holds(id)(rs[i])
  {
    SumOfRemove(rs, i, Holds(id));
  }

  /** Booking: a pending reservation holds the seats taken from its trip, so
      that trip's ledger is unchanged, and so is every other trip's. */
  lemma BookingKeepsLedger(t: T.Trajet, rs: seq<R.Reservation>, r: R.Reservation, other: T.Trajet)
    requires r.trajet == t.id && r.statut == R.EnAttente
    ensures Ledger(AddSeats(t, -r.placesReservees), rs + [r]) == Ledger(t, rs)
    ensures other.id != t.id ==> Ledger(other, rs + [r]) == Ledger(other, rs)
  {
    HeldAppend(rs, r, t.id);
    HeldAppend(rs, r, other.id);
  }

  /** Confirmation: a reservation that was not cancelled holds the same seats
      once confirmed. */
  lemma ConfirmKeepsLedger(rs: seq<R.Reservation>, i: nat, t: T.Trajet)
    requires i < |rs| && rs[i].statut != R.Annulee
    ensures Ledger(t, rs[i := rs[i].(statut := R.Confirmee)]) == Ledger(t, rs)
  {
    HeldUpdate(rs, i, rs[i].(statut := R.Confirmee), t.id);
  }

  /** Cancellation of a reservation that was not cancelled, with its seats
      given back to its trip: the ledger is unchanged. */
  lemma CancelKeepsLedger(rs: seq<R.Reservation>, i: nat, t: T.Trajet)
    requires i < |rs| && rs[i].trajet == t.id && rs[i].statut != R.Annulee
    ensures Ledger(AddSeats(t, rs[i].placesReservees), rs[i := rs[i].(statut := R.Annulee)]) == Ledger(t, rs)
  {
    HeldUpdate(rs, i, rs[i].(statut := R.Annulee), t.id);
  }

  /** Cancelling an already cancelled reservation and giving its seats back
      again grows the ledger by its seat count: seats that nobody freed
      become bookable. */
  lemma RepeatedCancelInflatesLedger(rs: seq<R.Reservation>, i: nat, t: T.Trajet)
    requires i < |rs| && rs[i].trajet == t.id && rs[i].statut == R.Annulee
    ensures Ledger(AddSeats(t, rs[i].placesReservees), rs[i := rs[i].(statut := R.Annulee)])
            == Ledger(t, rs) + rs[i].placesReservees
  {
    assert rs[i := rs[i].(statut := R.Annulee)] == rs;
  }

  /** Confirming an already cancelled reservation, whose seats were given
      back, without taking them again grows the ledger by its seat count:
      the same seats are free and held at once. */
  lemma ConfirmAfterCancelInflatesLedger(rs: seq<R.Reservation>, i: nat, t: T.Trajet)
    requires i < |rs| && rs[i].trajet == t.id && rs[i].statut == R.Annulee
    ensures Ledger(t, rs[i := rs[i].(statut := R.Confirmee)]) == Ledger(t, rs) + rs[i].placesReservees
  {
    HeldUpdate(rs, i, rs[i].(statut := R.Confirmee), t.id);
  }

  /** Deleting a confirmed reservation and giving its seats back keeps the
      ledger; deleting a pending one, whose seats are not given back, shrinks
      it by the seats it held. */
  lemma DeleteLedger(rs: seq<R.Reservation>, i: nat, t: T.Trajet)
    requires i < |rs| && rs[i].trajet == t.id
    ensures rs[i].statut == R.Confirmee ==>
              Ledger(AddSeats(t, rs[i].placesReservees), RemoveAt(rs, i)) == Ledger(t, rs)
    ensures rs[i].statut == R.EnAttente ==>
              Ledger(t, RemoveAt(rs, i)) == Ledger(t, rs) - rs[i].placesReservees
  {
    HeldRemove(rs, i, t.id);
  }

  /** A reservation on another trip plays no part in a trip's ledger. */
  lemma OtherTripUnaffected(rs: seq<R.Reservation>, i: nat, r: R.Reservation, t: T.Trajet)
    requires i < |rs| && rs[i].trajet != t.id && r.trajet != t.id
    ensures Ledger(t, rs[i := r]) == Ledger(t, rs)
    ensures Ledger(t, RemoveAt(rs, i)) == Ledger(t, rs)
  {
    HeldUpdate(rs, i, r, t.id);
    HeldRemove(rs, i, t.id);
  }
}
