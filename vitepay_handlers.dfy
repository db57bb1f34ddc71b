// controllers/vitepay.js: an older pair of VitePay handlers that takes every
// payment field from the request body. `createPayment` signs and forwards a
// payment request. `handleCallback` checks a notification's authenticity and
// would then record the notified status, but the file never imports the
// Reservation model: every authentic notification ends in a ReferenceError
// before anything is written. `HandleCallbackFixed` is the handler with the
// import in place, on the reservation collection of models/Reservation.js
// used by controllers/reservations.js. No request reaches either handler:
// routes/vitepay.js, which routes to them, is never mounted by app.js. The
// callback that app.js mounts, /api/payments/vitepay/callback, is the
// handler of controllers/vitepay.controller.js. The payment requests of
// controllers/reservations.js name /api/vitepay/callback, a path served by
// no route.

module VitePayHandlers {
  import opened Common
  import R = ReservationModel
  import LR = LegacyReservationModel
  import opened Store
  import opened VitePay
  import opened VitePayCallback
  import RC = ReservationController

  const Language: string := "fr"
  const NoRedirect: int := 0   // server-to-server call
  const PaymentFailedMessage: string := "Impossible de créer la session de paiement"

  /** The fields of a payment request body; any of them may be missing. */
  datatype PaymentBody = PaymentBody(orderId: Option<string>, amount100: Option<string>,
                                     description: Option<string>, returnUrl: Option<string>,
                                     declineUrl: Option<string>, cancelUrl: Option<string>,
                                     callbackUrl: Option<string>, buyerIpAdress: Option<string>,
                                     email: Option<string>)

  datatype Payment = Payment(orderId: Option<string>, languageCode: string, currencyCode: string,
                             countryCode: string, description: Option<string>, amount100: Option<string>,
                             returnUrl: Option<string>, declineUrl: Option<string>, cancelUrl: Option<string>,
                             callbackUrl: Option<string>, buyerIpAdress: Option<string>, email: Option<string>)

  /** The body posted to the gateway. */
  datatype Payload = Payload(payment: Payment, redirect: int, apiKey: string, hash: string)

  /** The string whose SHA1 signs the request: the upper-cased
      "order_id;amount_100;XOF;callback_url;secret", with a missing body
      field printed as "undefined". */
  function PaymentSigningString(body: PaymentBody, env: Env): string {
    Upper(Signed(PaymentFields(Shown(body.orderId), Shown(body.amount100), Shown(body.callbackUrl), env.apiSecret)))
  }

  /** The signing string reads back as the upper-cased order id, amount,
      currency, callback URL and secret whenever none of them holds a ';'. */
  lemma PaymentSigningStringFields(body: PaymentBody, env: Env)
    requires NoSep(Shown(body.orderId), Separator) && NoSep(Shown(body.amount100), Separator)
    requires NoSep(Shown(body.callbackUrl), Separator) && NoSep(env.apiSecret, Separator)
    ensures Fields(PaymentSigningString(body, env), Separator)
            == [Upper(Shown(body.orderId)), Upper(Shown(body.amount100)), Currency,
                Upper(Shown(body.callbackUrl)), Upper(env.apiSecret)]
  {
    SignedRoundTrip(PaymentFields(Shown(body.orderId), Shown(body.amount100), Shown(body.callbackUrl), env.apiSecret));
    assert Upper(Currency) == Currency;
  }

  /** For the order id, amount and callback URL that the booking handler of
      controllers/reservation.controller.js sends, this handler signs
      exactly the string that handler signs. */
  lemma SameSigningAsBooking(body: PaymentBody, orderId: Id, amount100: int, env: Env)
    requires body.orderId == Some(orderId) && body.amount100 == Some(IntToString(amount100))
    requires body.callbackUrl == Some(CallbackUrl(env))
    ensures PaymentSigningString(body, env) == RC.SigningString(orderId, amount100, env)
  {
  }

  /** The payload: the body's fields with language 'fr', currency 'XOF',
      country 'ML', redirect 0, the API key, and the upper-case hex SHA1 of
      the signing string. */
  function PaymentPayload(body: PaymentBody, env: Env, sha1Hex: string -> string): (p: Payload)
    ensures p.payment.languageCode == Language && p.payment.currencyCode == Currency
    ensures p.payment.countryCode == Country && p.redirect == NoRedirect && p.apiKey == env.apiKey
    ensures p.hash == Upper(sha1Hex(PaymentSigningString(body, env)))
    ensures NoLowerCase(p.hash)
    ensures p.payment.orderId == body.orderId && p.payment.amount100 == body.amount100
    ensures p.payment.callbackUrl == body.callbackUrl && p.payment.email == body.email
  {
    UpperIsIdempotent(sha1Hex(PaymentSigningString(body, env)));
    Payload(Payment(body.orderId, Language, Currency, Country, body.description, body.amount100,
                    body.returnUrl, body.declineUrl, body.cancelUrl, body.callbackUrl,
                    body.buyerIpAdress, body.email),
            NoRedirect, env.apiKey, Upper(sha1Hex(PaymentSigningString(body, env))))
  }

  /** The reply of createPayment: `{ checkout_url: data }` with status 200, or
      status 500 with the fixed message. */
  datatype PaymentReply = PaymentReply(status: int, checkoutUrl: Option<GatewayData>, message: Option<string>)

  /** createPayment, given the gateway's answer to the payload: any failure
      gives 500 with the fixed message; otherwise the whole answer body is
      returned as the checkout URL. */
  function CreatePayment(body: PaymentBody, env: Env, sha1Hex: string -> string,
                         answer: GatewayAnswer): (r: PaymentReply)
    ensures r.status in {200, 500}
    ensures r.status == 500 <==> answer.GatewayFailure?
    ensures r.status == 500 ==> r.message == Some(PaymentFailedMessage) && r.checkoutUrl.None?
    ensures r.status == 200 ==> r.checkoutUrl == Some(answer.data) && r.message.None?
  {
    match answer
    case GatewayFailure => PaymentReply(500, None, Some(PaymentFailedMessage))
    case GatewaySuccess(data) => PaymentReply(200, Some(data), None)
  }

  /** How handleCallback ends: with a reply, or with a rejected promise and no reply. */
  datatype CallbackEnd = Replied(status: int) | Threw

  /** handleCallback as written: a notification that is not authentic gets
      400; for an authentic one, the update refers to `Reservation`, which
      the file never defines, so the handler throws and nothing is written. */
  function HandleCallbackAsWritten(body: CallbackBody, env: Env, sha1Hex: string -> string): (e: CallbackEnd)
    ensures e == Replied(400) <==> !IsAuthentic(body, env, sha1Hex)
    ensures e == Threw <==> IsAuthentic(body, env, sha1Hex)
  {
    if !IsAuthentic(body, env, sha1Hex) then Replied(400) else Threw
  }

  /** The handler's evident promise, to acknowledge every authentic
      notification with 200, never holds: no notification at all is
      acknowledged, and each authentic one is lost. */
  lemma NoNotificationAcknowledged(body: CallbackBody, env: Env, sha1Hex: string -> string)
    ensures HandleCallbackAsWritten(body, env, sha1Hex) != Replied(200)
    ensures IsAuthentic(body, env, sha1Hex) ==> HandleCallbackAsWritten(body, env, sha1Hex).Threw?
  {
  }

  /** The id `findByIdAndUpdate(order_id, …)` looks for: an absent order id
      finds nothing, and a present one is cast to an ObjectId (None for a
      CastError). */
  function CallbackTarget(orderId: Option<string>): (r: Option<Id>)
    ensures orderId.None? ==> r.None?
    ensures orderId.Some? ==> r == CastObjectId(orderId.value)
  {
    if orderId.None? then None else CastObjectId(orderId.value)
  }

  /** handleCallback with the reservation model imported: an order id that
      cannot be cast to an ObjectId rejects the update's promise, which the
      handler does not catch, so nothing is written and no reply is sent.
      Otherwise `findByIdAndUpdate(order_id, { statut })` sets the notified
      status on the reservation when there is one and does nothing
      otherwise, and the notification is acknowledged with 200. Seats are
      not touched. */
  method HandleCallbackFixed(db: LegacyDatabase, body: CallbackBody, env: Env, sha1Hex: string -> string)
    returns (e: CallbackEnd)
    requires LegacyReservationTable(db.reservations)
    modifies db`reservations
    ensures LegacyReservationTable(db.reservations)
    ensures e == Replied(400) <==> HandleCallbackAsWritten(body, env, sha1Hex) == Replied(400)
    ensures e == Replied(200) <==> IsAuthentic(body, env, sha1Hex) && (body.orderId.None? || CallbackTarget(body.orderId).Some?)
    ensures e == Threw <==> IsAuthentic(body, env, sha1Hex) && body.orderId.Some? && CallbackTarget(body.orderId).None?
    ensures var k := IndexOf(old(db.reservations), LegacyReservationKey, CallbackTarget(body.orderId));
            (e != Replied(200) || k.None? ==> db.reservations == old(db.reservations))
            && (e == Replied(200) && k.Some? ==>
                  db.reservations == old(db.reservations)[k.value := old(db.reservations)[k.value].(statut := Outcome(body.success))])
  {
    if !IsAuthentic(body, env, sha1Hex) {
      return Replied(400);
    }
    var id := CallbackTarget(body.orderId);
    if body.orderId.Some? && id.None? {
      return Threw;
    }
    var k := IndexOf(db.reservations, LegacyReservationKey, id);
    if k.Some? {
      var updated := db.reservations[k.value].(statut := Outcome(body.success));
      DistinctAfterReplace(db.reservations, LegacyReservationKey, k.value, updated);
      db.reservations := db.reservations[k.value := updated];
    }
    return Replied(200);
  }

  /** The order id controllers/reservations.js sends is the reservation's
      ObjectId upper-cased; the fixed callback, given it back, finds that
      reservation. */
  lemma CallbackFindsOrder(rs: seq<LR.Reservation>, k: nat)
    requires LegacyReservationTable(rs) && k < |rs| && ObjectIdString(rs[k].id)
    ensures IndexOf(rs, LegacyReservationKey, CallbackTarget(Some(Upper(rs[k].id)))) == Some(k)
  {
    CastObjectIdIgnoresCase(rs[k].id);
    IndexOfUnique(rs, LegacyReservationKey, rs[k].id, k);
  }
}
