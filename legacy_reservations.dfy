// controllers/reservations.js: the older booking handlers over the models
// of models/Trajet.js and models/Reservation.js. Unlike the current handler,
// the booking is committed before the gateway is called, so a failed payment
// initiation keeps the reservation and the seat decrement.

module LegacyReservations {
  import opened Common
  import opened Calendar
  import opened Collection
  import LT = LegacyTrajetModel
  import LR = LegacyReservationModel
  import R = ReservationModel
  import opened Store
  import opened VitePay

  datatype CreateBody = CreateBody(trajetId: Option<Id>, client: Option<LR.ClientInput>, placesReservees: Option<int>)

  /** The catch block's `res.status(res.statusCode === 200 ? 400 : res.statusCode)`:
      a status set before the throw is kept, an error nobody classified is a 400. */
  function StatusOfThrow(statusCode: int): (s: int)
    ensures statusCode == 200 ==> s == 400
    ensures statusCode != 200 ==> s == statusCode
  {
    if statusCode == 200 then 400 else statusCode
  }

  datatype Payment = Payment(orderId: string, languageCode: string, currencyCode: string, countryCode: string,
                             pType: string, description: string, amount100: int, returnUrl: string,
                             declineUrl: string, cancelUrl: string, callbackUrl: string,
                             buyerIpAdress: string, email: string)

  datatype Payload = Payload(payment: Payment, redirect: int, apiKey: string, hash: string, isTest: bool)

  /** "order_id;amount_100;XOF;callback_url;secret", not upper-cased here. */
  function RawString(orderId: string, amount100: int, env: Env): string {
    Signed(PaymentFields(orderId, IntToString(amount100), CallbackUrl(env), env.apiSecret))
  }

  /** The payload for a committed reservation: the order id is the upper-cased
      reservation id and the hash is SHA1 applied twice to the raw string. */
  function PayloadFor(r: LR.Reservation, t: LT.Trajet, ip: string, env: Env, sha1Hex: string -> string): (p: Payload)
    ensures p.payment.orderId == Upper(r.id)
    ensures p.payment.amount100 == t.prix * r.placesReservees * 100
    ensures p.hash == sha1Hex(sha1Hex(RawString(Upper(r.id), t.prix * r.placesReservees * 100, env)))
  {
    var orderId := Upper(r.id);
    var amount := t.prix * r.placesReservees * 100;
    Payload(
      Payment(orderId, "fr", Currency, Country, "orange_money", "Réservation #" + orderId, amount,
              env.frontendUrl + "/confirmation/" + orderId, env.frontendUrl + "/payment-failed",
              env.frontendUrl + "/reservation/" + orderId, CallbackUrl(env), ip, r.client.email),
      0, env.apiKey, sha1Hex(sha1Hex(RawString(orderId, amount, env))), !env.production)
  }

  /** The raw string reads back as the order id, amount, currency, callback
      URL and secret, whenever none of them holds a ';'; the case of each is
      kept. */
  lemma RawStringFields(orderId: string, amount100: int, env: Env)
    requires NoSep(orderId, Separator) && NoSep(CallbackUrl(env), Separator) && NoSep(env.apiSecret, Separator)
    ensures Fields(RawString(orderId, amount100, env), Separator)
            == [orderId, IntToString(amount100), Currency, CallbackUrl(env), env.apiSecret]
  {
    var a := IntToString(amount100);
    assert NoSep(a, Separator) by {
      if amount100 < 0 {
        assert a == "-" + Digits(-amount100);
      }
    }
    SignedRoundTrip(PaymentFields(orderId, a, CallbackUrl(env), env.apiSecret));
  }

  /** The first phase's checks: the three fields present and truthy (a seat
      count of 0 is falsy). */
  predicate FieldsPresent(body: CreateBody) {
    Filled(body.trajetId) && body.client.Some? && body.placesReservees.Some? && body.placesReservees.value != 0
  }

  /** createReservation. Phase one validates, creates the pending reservation
      and takes the seats, and commits (400 for a missing field, 404 for an
      unknown trip, 400 for too few seats or a reservation the schema
      rejects). Phase two posts the payment: a failure gives 500 and keeps the
      committed state; otherwise 201 with the answer's `redirect_url`. */
  method CreateReservation(db: LegacyDatabase, body: CreateBody, newId: Id, now: Instant, env: Env, ip: string,
                           sha1Hex: string -> string, answer: GatewayAnswer)
    returns (status: int, sent: Option<Payload>, checkoutUrl: Option<string>)
    requires db.Valid() && Fresh(db.reservations, LegacyReservationKey, newId) && ValidInstant(now)
    modifies db
    ensures db.Valid()
    ensures status in {201, 400, 404, 500}
    ensures !FieldsPresent(body) ==> status == 400
    ensures var k := IndexOf(old(db.trajets), LegacyTrajetKey, body.trajetId);
            (FieldsPresent(body) && k.None? ==> status == 404)
            && (FieldsPresent(body) && k.Some? && old(db.trajets)[k.value].placesDisponibles < body.placesReservees.value
                ==> status == 400)
            && (FieldsPresent(body) && k.Some? && old(db.trajets)[k.value].placesDisponibles >= body.placesReservees.value
                ==> var t := old(db.trajets)[k.value];
                    var n := body.placesReservees.value;
                    (sent.Some? <==> LR.New(newId, t.id, body.client.value, n, R.EnAttente, now).Some?)
                    && (LR.New(newId, t.id, body.client.value, n, R.EnAttente, now).None? ==> status == 400))
            && (sent.None? ==> db.trajets == old(db.trajets) && db.reservations == old(db.reservations)
                               && status in {400, 404} && checkoutUrl.None?)
            && (sent.Some? ==> (
                  FieldsPresent(body) && k.Some? &&
                  var t := old(db.trajets)[k.value];
                  var n := body.placesReservees.value;
                  t.placesDisponibles >= n && LR.New(newId, t.id, body.client.value, n, R.EnAttente, now).Some? && (
                    var r := LR.New(newId, t.id, body.client.value, n, R.EnAttente, now).value;
                    db.reservations == old(db.reservations) + [r]
                    && db.trajets == old(db.trajets)[k.value := LT.TakeSeats(t, n)]
                    && sent.value == PayloadFor(r, t, ip, env, sha1Hex)
                    && (answer.GatewayFailure? ==> status == 500 && checkoutUrl.None?)
                    && (answer.GatewaySuccess? ==>
                          status == 201 && checkoutUrl == (if answer.data.JsonBody? then answer.data.redirectUrl else None)))))
  {
    // Phase one, inside the transaction.
    var statusCode := 200;
    if !FieldsPresent(body) {
      statusCode := 400;
      return StatusOfThrow(statusCode), None, None;
    }
    var k := IndexOf(db.trajets, LegacyTrajetKey, body.trajetId);
    if k.None? {
      statusCode := 404;
      return StatusOfThrow(statusCode), None, None;
    }
    var t := db.trajets[k.value];
    var n := body.placesReservees.value;
    if t.placesDisponibles < n {
      statusCode := 400;
      return StatusOfThrow(statusCode), None, None;
    }
    var r := LR.New(newId, t.id, body.client.value, n, R.EnAttente, now);
    if r.None? {
      return StatusOfThrow(statusCode), None, None;   // a validation error leaves the status at 200
    }
    DistinctAfterAppend(db.reservations, LegacyReservationKey, r.value);
    db.reservations := db.reservations + [r.value];
    DistinctAfterReplace(db.trajets, LegacyTrajetKey, k.value, LT.TakeSeats(t, n));
    db.trajets := db.trajets[k.value := LT.TakeSeats(t, n)];
    // Phase two, after the commit.
    sent := Some(PayloadFor(r.value, t, ip, env, sha1Hex));
    if answer.GatewayFailure? {
      return 500, sent, None;
    }
    checkoutUrl := if answer.data.JsonBody? then answer.data.redirectUrl else None;
    status := 201;
  }

  /** getReservationById: 404 for an unknown id, otherwise the reservation
      with its trip populated (None once the trip is gone). */
  function GetReservationById(rs: seq<LR.Reservation>, ts: seq<LT.Trajet>, id: Option<Id>)
    : (r: (int, Option<(LR.Reservation, Option<LT.Trajet>)>))
    ensures r.0 == 404 <==> Lookup(rs, LegacyReservationKey, id).None?
    ensures r.0 == 404 || r.0 == 200
    ensures r.0 == 200 ==> r.1.Some? && r.1.value.0 in rs && Some(r.1.value.0.id) == id
                           && r.1.value.1 == Lookup(ts, LegacyTrajetKey, Some(r.1.value.0.trajet))
  {
    match Lookup(rs, LegacyReservationKey, id)
    case None => (404, None)
    case Some(res) => (200, Some((res, Lookup(ts, LegacyTrajetKey, Some(res.trajet)))))
  }

  function NewestReservationFirst(r: LR.Reservation): int {
    -TimeValue(r.dateReservation)
  }

  /** getReservations: every reservation, newest first. */
  function GetReservations(rs: seq<LR.Reservation>): (r: seq<LR.Reservation>)
    ensures multiset(r) == multiset(rs)
    ensures forall i, j :: 0 <= i < j < |r| ==> TimeValue(r[j].dateReservation) <= TimeValue(r[i].dateReservation)
  {
    SortBySorted(rs, NewestReservationFirst);
    SortBy(rs, NewestReservationFirst)
  }
}
