// What the VitePay handlers share: the environment the URLs and keys come
// from, the ';'-separated strings that are hashed to sign a payment request
// or to check a payment notification, and the shape of the gateway's answer.
// SHA1 itself is foreign: every handler takes the hex digest as a function.

module VitePay {
  import opened Common

  /** The environment variables, as a template literal prints them (an unset
      variable prints as "undefined"). */
  datatype Env = Env(backendUrl: string, frontendUrl: string, apiKey: string, apiSecret: string, production: bool)

  /** A request-body value inside a template literal: undefined prints as "undefined". */
  function Shown(o: Option<string>): (s: string)
    ensures o.Some? ==> s == o.value
    ensures o.None? ==> s == "undefined"
  {
    if o.Some? then o.value else "undefined"
  }

  const Separator: char := ';'
  const Currency: string := "XOF"
  const Country: string := "ML"
  const CallbackPath: string := "/api/vitepay/callback"

  function CallbackUrl(env: Env): string {
    env.backendUrl + CallbackPath
  }

  /** The fields of a payment signature: order id, amount in hundredths, currency, callback URL, secret. */
  function PaymentFields(orderId: string, amount100: string, callbackUrl: string, secret: string): seq<string> {
    [orderId, amount100, Currency, callbackUrl, secret]
  }

  /** The fields of a notification check: order id, amount, currency as notified, secret. */
  function CallbackFields(orderId: string, amount100: string, currency: string, secret: string): seq<string> {
    [orderId, amount100, currency, secret]
  }

  /** The fields joined with ';'. */
  function Signed(fields: seq<string>): string
    requires |fields| >= 1
  {
    Join(fields, Separator)
  }

  function UpperAll(parts: seq<string>): (r: seq<string>)
    ensures |r| == |parts|
    ensures forall i :: 0 <= i < |parts| ==> r[i] == Upper(parts[i])
  {
    seq(|parts|, i requires 0 <= i < |parts| => Upper(parts[i]))
  }

  /** Upper-casing the joined string is joining the upper-cased fields. */
  lemma {:induction false} UpperJoin(parts: seq<string>)
    requires |parts| >= 1
    ensures Upper(Join(parts, Separator)) == Join(UpperAll(parts), Separator)
    decreases |parts|
  {
    if |parts| > 1 {
      UpperJoin(parts[1..]);
      UpperConcat(parts[0] + [Separator], Join(parts[1..], Separator));
      UpperConcat(parts[0], [Separator]);
      assert Upper([Separator]) == [Separator];
      assert UpperAll(parts)[1..] == UpperAll(parts[1..]);
    }
  }

  /** Upper-casing never creates a separator. */
  lemma UpperKeepsNoSep(s: string)
    requires NoSep(s, Separator)
    ensures NoSep(Upper(s), Separator)
  {
  }

  /** A signature string reads back as its fields when no field holds a ';',
      also after upper-casing; so two such field lists that differ (up to
      case, once upper-cased) give different strings to hash. */
  lemma SignedRoundTrip(fields: seq<string>)
    requires |fields| >= 1
    requires forall k :: 0 <= k < |fields| ==> NoSep(fields[k], Separator)
    ensures Fields(Signed(fields), Separator) == fields
    ensures Fields(Upper(Signed(fields)), Separator) == UpperAll(fields)
  {
    JoinFields(fields, Separator);
    UpperJoin(fields);
    forall k | 0 <= k < |fields| ensures NoSep(UpperAll(fields)[k], Separator) {
      UpperKeepsNoSep(fields[k]);
    }
    JoinFields(UpperAll(fields), Separator);
  }

  /** The authenticity a notification must carry: the upper-case hex SHA1 of
      the upper-cased "order_id;amount_100;currency_code;secret". */
  function ExpectedAuthenticity(orderId: Option<string>, amount100: Option<string>, currency: Option<string>,
                                secret: string, sha1Hex: string -> string): string {
    Upper(sha1Hex(Upper(Signed(CallbackFields(Shown(orderId), Shown(amount100), Shown(currency), secret)))))
  }

  /** A notification is authentic iff it carries exactly the expected value;
      a notification without an authenticity never is. */
  predicate Authentic(authenticity: Option<string>, orderId: Option<string>, amount100: Option<string>,
                      currency: Option<string>, secret: string, sha1Hex: string -> string) {
    authenticity == Some(ExpectedAuthenticity(orderId, amount100, currency, secret, sha1Hex))
  }

  /** The expected value never has a lower-case letter, so an authenticity
      sent in lower-case hex is always refused. */
  lemma AuthenticityIsUpperCase(orderId: Option<string>, amount100: Option<string>, currency: Option<string>,
                                secret: string, sha1Hex: string -> string)
    ensures NoLowerCase(ExpectedAuthenticity(orderId, amount100, currency, secret, sha1Hex))
  {
    UpperIsIdempotent(sha1Hex(Upper(Signed(CallbackFields(Shown(orderId), Shown(amount100), Shown(currency), secret)))));
  }

  /** The body of the gateway's answer: a JSON object, which may carry a
      `redirect_url`, or a bare text (the checkout URL itself). */
  datatype GatewayData = JsonBody(redirectUrl: Option<string>) | TextBody(text: string)

  /** The result of the POST to the gateway: a rejected request (network
      error or non-2xx status) or a response body. */
  datatype GatewayAnswer = GatewayFailure | GatewaySuccess(data: GatewayData)
}
