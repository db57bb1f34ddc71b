// controllers/reservation.controller.js: booking with payment initiation
// inside one transaction, the read rule for a reservation, and the admin
// update and delete.

module ReservationController {
  import opened Common
  import opened Calendar
  import opened Collection
  import T = TrajetModel
  import R = ReservationModel
  import Cl = ClientModel
  import opened Store
  import opened VitePay
  import opened SeatLedger

  /** The request body of a booking. */
  datatype CreateBody = CreateBody(trajetId: Option<Id>, passagers: Option<seq<R.PassagerInput>>,
                                   contactEmail: Option<string>, contactTelephone: Option<string>)

  datatype Payment = Payment(orderId: string, amount100: int, currencyCode: string, countryCode: string,
                             description: string, returnUrl: string, declineUrl: string, cancelUrl: string,
                             callbackUrl: string, email: string, buyerName: string, buyerPhoneNumber: string,
                             buyerIpAdress: string)

  /** The body posted to the gateway; `is_test` is present outside production. */
  datatype Payload = Payload(payment: Payment, apiKey: string, hash: string, redirect: int, isTest: bool)

  /** What the reply calls `checkoutUrl`: a URL, or the whole answer body. */
  datatype Checkout = CheckoutUrl(url: string) | CheckoutBody(body: GatewayData)

  /** `data.redirect_url || data`, None when that is falsy (an empty text). */
  function CheckoutOf(data: GatewayData): (c: Option<Checkout>)
    ensures c.None? <==> data == TextBody("")
    ensures data.JsonBody? && Filled(data.redirectUrl) ==> c == Some(CheckoutUrl(data.redirectUrl.value))
    ensures data.JsonBody? && !Filled(data.redirectUrl) ==> c == Some(CheckoutBody(data))
    ensures data.TextBody? && data.text != "" ==> c == Some(CheckoutUrl(data.text))
  {
    match data
    case JsonBody(u) => if Filled(u) then Some(CheckoutUrl(u.value)) else Some(CheckoutBody(data))
    case TextBody(s) => if s != "" then Some(CheckoutUrl(s)) else None
  }

  /** The amount in hundredths of a franc: price times seats times 100. */
  function Amount100(t: T.Trajet, places: int): int {
    t.prix * places * 100
  }

  /** The string whose SHA1 signs the request: upper-cased
      "order_id;amount_100;XOF;callback_url;secret". */
  function SigningString(orderId: Id, amount100: int, env: Env): string {
    Upper(Signed(PaymentFields(orderId, IntToString(amount100), CallbackUrl(env), env.apiSecret)))
  }

  /** The payload of the booking with the given order id, trip and passengers. The
      buyer's name is the first passenger's "prenom nom". */
  function PayloadFor(orderId: Id, t: T.Trajet, ps: seq<R.PassagerInput>, body: CreateBody,
                      ip: string, env: Env, sha1Hex: string -> string): Payload
    requires |ps| >= 1 && R.PassagersAccepted(ps) && Filled(body.contactEmail) && Filled(body.contactTelephone)
  {
    var amount := Amount100(t, |ps|);
    Payload(
      Payment(orderId, amount, Currency, Country, "Réservation MyBus #" + orderId,
              env.frontendUrl + "/confirmation/" + orderId, env.frontendUrl + "/payment-failed",
              env.frontendUrl + "/search", CallbackUrl(env), body.contactEmail.value,
              ps[0].prenom.value + " " + ps[0].nom.value, body.contactTelephone.value, ip),
      env.apiKey, sha1Hex(SigningString(orderId, amount, env)), 0, !env.production)
  }

  /** The signing string reads back as the upper-cased order id, amount,
      currency, callback URL and secret, whenever none of them holds a ';'. */
  lemma SigningStringFields(orderId: Id, amount100: int, env: Env)
    requires NoSep(orderId, Separator) && NoSep(CallbackUrl(env), Separator) && NoSep(env.apiSecret, Separator)
    ensures Fields(SigningString(orderId, amount100, env), Separator)
            == [Upper(orderId), IntToString(amount100), Currency, Upper(CallbackUrl(env)), Upper(env.apiSecret)]
  {
    var fs := PaymentFields(orderId, IntToString(amount100), CallbackUrl(env), env.apiSecret);
    var a := IntToString(amount100);
    assert NoSep(a, Separator) by {
      if amount100 < 0 {
        assert a == "-" + Digits(-amount100);
      }
    }
    SignedRoundTrip(fs);
    assert Upper(a) == a by {
      if amount100 < 0 {
        assert a == "-" + Digits(-amount100);
      }
    }
    assert Upper(Currency) == Currency;
  }

  /** Every check of the handler passes: contact e-mail and telephone,
      passengers present, a user, a known trip with enough free seats, and a
      reservation the schema accepts. */
  predicate BookingAccepted(trajets: seq<T.Trajet>, body: CreateBody, user: Option<Id>) {
    Filled(body.contactEmail) && Filled(body.contactTelephone) && body.passagers.Some? && user.Some?
    && Lookup(trajets, TrajetKey, body.trajetId).Some?
    && Lookup(trajets, TrajetKey, body.trajetId).value.placesDisponibles >= |body.passagers.value|
    && |body.passagers.value| >= R.MinPlaces && R.PassagersAccepted(body.passagers.value)
  }

  datatype Created = Created(reservationId: Id, checkout: Checkout)

  /** The outcome of the handler's checks, in their order: the status of the
      first one that fails, or the trip's position and the pending
      reservation to store. */
  datatype Check = Refused(status: int) | Booked(k: nat, reservation: R.Reservation)

  /** The checks before the gateway call: contact e-mail and telephone (400),
      passengers present (400, `passagers.length` of undefined throws), a user
      (401), a known trip (400) with enough free seats (400), and a
      reservation the schema accepts (400). */
  function CheckBooking(trajets: seq<T.Trajet>, body: CreateBody, user: Option<Id>, newId: Id, now: Instant)
    : (c: Check)
    requires ValidInstant(now)
    ensures c.Booked? <==> BookingAccepted(trajets, body, user)
    ensures c.Refused? ==> c.status == (if Filled(body.contactEmail) && Filled(body.contactTelephone)
                                           && body.passagers.Some? && user.None? then 401 else 400)
    ensures c.Booked? ==>
              c.k < |trajets| && IndexOf(trajets, TrajetKey, body.trajetId) == Some(c.k)
              && R.New(newId, trajets[c.k].id, user.value, body.passagers.value, |body.passagers.value|, R.EnAttente, now).Some?
              && c.reservation == R.New(newId, trajets[c.k].id, user.value, body.passagers.value,
                                        |body.passagers.value|, R.EnAttente, now).value
  {
    if !Filled(body.contactEmail) || !Filled(body.contactTelephone) then Refused(400)
    else if body.passagers.None? then Refused(400)
    else if user.None? then Refused(401)
    else match IndexOf(trajets, TrajetKey, body.trajetId)
      case None => Refused(400)
      case Some(k) =>
        var ps := body.passagers.value;
        if trajets[k].placesDisponibles < |ps| then Refused(400)
        else match R.New(newId, trajets[k].id, user.value, ps, |ps|, R.EnAttente, now)
          case None => Refused(400)
          case Some(r) => Booked(k, r)
  }

  /** createReservationAndPay. The seats requested are the number of
      passengers. A failed check gives 400 (401 without a user); after the
      checks, the gateway's answer decides: no answer or no checkout URL aborts
      the transaction (400), otherwise the pending reservation and the seat
      decrement are committed (201). */
  method CreateReservationAndPay(db: Database, body: CreateBody, user: Option<Id>, newId: Id, now: Instant,
                                 env: Env, ip: string, sha1Hex: string -> string, answer: GatewayAnswer)
    returns (status: int, sent: Option<Payload>, created: Option<Created>)
    requires TrajetTable(db.trajets) && ReservationTable(db.reservations)
    requires Fresh(db.reservations, ReservationKey, newId) && ValidInstant(now)
    modifies db`trajets, db`reservations
    ensures TrajetTable(db.trajets) && ReservationTable(db.reservations)
    ensures status in {201, 400, 401}
    ensures !Filled(body.contactEmail) || !Filled(body.contactTelephone) ==> status == 400
    ensures status == 401 <==> Filled(body.contactEmail) && Filled(body.contactTelephone)
                               && body.passagers.Some? && user.None?
    ensures sent.Some? <==> BookingAccepted(old(db.trajets), body, user)
    ensures status == 201 <==> sent.Some? && answer.GatewaySuccess? && CheckoutOf(answer.data).Some?
    ensures status != 201 ==> db.trajets == old(db.trajets) && db.reservations == old(db.reservations) && created.None?
    ensures sent.Some? ==>
              var ps := body.passagers.value;
              var k := IndexOf(old(db.trajets), TrajetKey, body.trajetId).value;
              var t := old(db.trajets)[k];
              sent.value == PayloadFor(newId, t, ps, body, ip, env, sha1Hex)
              && (status == 201 ==>
                    created == Some(Created(newId, CheckoutOf(answer.data).value))
                    && db.trajets == old(db.trajets)[k := AddSeats(t, -|ps|)]
                    && db.trajets[k].placesDisponibles >= 0
                    && db.reservations == old(db.reservations) + [R.New(newId, t.id, user.value, ps, |ps|, R.EnAttente, now).value])
    ensures |db.trajets| == |old(db.trajets)|
    ensures forall j :: 0 <= j < |db.trajets| ==> Ledger(db.trajets[j], db.reservations) == Ledger(old(db.trajets)[j], old(db.reservations))
  {
    var check := CheckBooking(db.trajets, body, user, newId, now);
    if check.Refused? {
      return check.status, None, None;
    }
    var k, r := check.k, check.reservation;
    var ps := body.passagers.value;
    var t := db.trajets[k];
    var payload := PayloadFor(newId, t, ps, body, ip, env, sha1Hex);
    sent := Some(payload);
    if answer.GatewayFailure? {
      return 400, sent, None;
    }
    var checkout := CheckoutOf(answer.data);
    if checkout.None? {
      return 400, sent, None;
    }
    BookingKeepsAllLedgers(db.trajets, db.reservations, k, r);
    DistinctAfterAppend(db.reservations, ReservationKey, r);
    db.reservations := db.reservations + [r];
    AddSeatsValid(t, -|ps|);
    DistinctAfterReplace(db.trajets, TrajetKey, k, AddSeats(t, -|ps|));
    db.trajets := db.trajets[k := AddSeats(t, -|ps|)];
    return 201, sent, Some(Created(newId, checkout.value));
  }

  /** Committing a pending reservation and taking its seats from its trip
      keeps every trip's seat ledger. */
  lemma BookingKeepsAllLedgers(ts: seq<T.Trajet>, rs: seq<R.Reservation>, k: nat, r: R.Reservation)
    requires TrajetTable(ts) && k < |ts| && r.trajet == ts[k].id && r.statut == R.EnAttente
    ensures forall j :: 0 <= j < |ts| ==>
              Ledger(ts[k := AddSeats(ts[k], -r.placesReservees)][j], rs + [r]) == Ledger(ts[j], rs)
  {
    forall j | 0 <= j < |ts|
      ensures Ledger(ts[k := AddSeats(ts[k], -r.placesReservees)][j], rs + [r]) == Ledger(ts[j], rs)
    {
      BookingKeepsLedger(ts[k], rs, r, ts[j]);
      if j != k {
        assert TrajetKey(ts[j]) != TrajetKey(ts[k]);
      }
    }
  }

  /** `req.user` as the auth middleware sets it. */
  datatype Viewer = Viewer(id: Id, role: Cl.Role)

  datatype ReadReply = ReadReply(status: int, reservation: Option<R.Reservation>)

  /** getReservationByIdPublic: 404 when missing; the owner and admins see it
      (200), anyone else gets 403. A reservation whose client document is
      gone cannot be checked (`reservation.client._id` of null) and gives 500. */
  function GetReservationByIdPublic(rs: seq<R.Reservation>, clients: seq<Cl.Client>, id: Option<Id>,
                                    viewer: Viewer): (r: ReadReply)
    ensures r.status in {200, 403, 404, 500}
    ensures r.status == 404 <==> Lookup(rs, ReservationKey, id).None?
    ensures r.status == 500 <==> Lookup(rs, ReservationKey, id).Some?
                                 && Lookup(clients, ClientKey, Some(Lookup(rs, ReservationKey, id).value.client)).None?
    ensures r.status == 200 <==> Lookup(rs, ReservationKey, id).Some?
                                 && Lookup(clients, ClientKey, Some(Lookup(rs, ReservationKey, id).value.client)).Some?
                                 && (Lookup(rs, ReservationKey, id).value.client == viewer.id || viewer.role == Cl.AdminRole)
    ensures r.reservation.Some? <==> r.status == 200
    ensures r.status == 200 ==> r.reservation == Lookup(rs, ReservationKey, id)
  {
    match Lookup(rs, ReservationKey, id)
    case None => ReadReply(404, None)
    case Some(res) =>
      if Lookup(clients, ClientKey, Some(res.client)).None? then ReadReply(500, None)
      else if res.client != viewer.id && viewer.role != Cl.AdminRole then ReadReply(403, None)
      else ReadReply(200, Some(res))
  }

  /** deleteReservationAdmin: the seats go back to the trip only when the
      reservation was confirmed (a trip that is gone is left alone); 404 when
      nothing was deleted. */
  method DeleteReservationAdmin(db: Database, id: Option<Id>) returns (status: int)
    requires TrajetTable(db.trajets) && ReservationTable(db.reservations)
    modifies db`trajets, db`reservations
    ensures TrajetTable(db.trajets) && ReservationTable(db.reservations)
    ensures var k := IndexOf(old(db.reservations), ReservationKey, id);
            (k.None? ==> status == 404 && db.reservations == old(db.reservations) && db.trajets == old(db.trajets))
            && (k.Some? ==> (
                  var r := old(db.reservations)[k.value];
                  var j := IndexOf(old(db.trajets), TrajetKey, Some(r.trajet));
                  status == 200 && db.reservations == RemoveAt(old(db.reservations), k.value)
                  && (r.statut == R.Confirmee && j.Some? ==>
                        db.trajets == old(db.trajets)[j.value := AddSeats(old(db.trajets)[j.value], r.placesReservees)])
                  && (r.statut != R.Confirmee || j.None? ==> db.trajets == old(db.trajets))))
  {
    var k := IndexOf(db.reservations, ReservationKey, id);
    if k.None? {
      return 404;
    }
    var r := db.reservations[k.value];
    if r.statut == R.Confirmee {
      var j := IndexOf(db.trajets, TrajetKey, Some(r.trajet));
      if j.Some? {
        var t := db.trajets[j.value];
        AddSeatsValid(t, r.placesReservees);
        DistinctAfterReplace(db.trajets, TrajetKey, j.value, AddSeats(t, r.placesReservees));
        db.trajets := db.trajets[j.value := AddSeats(t, r.placesReservees)];
      }
    }
    DistinctAfterRemove(db.reservations, ReservationKey, k.value);
    db.reservations := RemoveAt(db.reservations, k.value);
    return 200;
  }

  /** updateReservationAdmin: the validators run on the update before the
      lookup, so a rejected body gives 400 even for an unknown id; then 404
      when missing; otherwise the set paths are replaced (200). Seats are not
      adjusted. */
  method UpdateReservationAdmin(db: Database, id: Option<Id>, body: R.ReservationInput)
    returns (status: int, updated: Option<R.Reservation>)
    requires ReservationTable(db.reservations)
    modifies db`reservations
    ensures ReservationTable(db.reservations)
    ensures var k := IndexOf(old(db.reservations), ReservationKey, id);
            (!R.UpdateAccepted(body) ==> status == 400)
            && (R.UpdateAccepted(body) && k.None? ==> status == 404)
            && (status != 200 ==> db.reservations == old(db.reservations) && updated.None?)
            && (R.UpdateAccepted(body) && k.Some? ==> (
                  status == 200
                  && updated == R.Update(old(db.reservations)[k.value], body)
                  && db.reservations == old(db.reservations)[k.value := updated.value]))
  {
    if !R.UpdateAccepted(body) {
      return 400, None;
    }
    var k := IndexOf(db.reservations, ReservationKey, id);
    if k.None? {
      return 404, None;
    }
    updated := R.Update(db.reservations[k.value], body);
    DistinctAfterReplace(db.reservations, ReservationKey, k.value, updated.value);
    db.reservations := db.reservations[k.value := updated.value];
    status := 200;
  }
}
