// middlewares/auth.middleware.js: `protect` reads a bearer token from the
// Authorization header, verifies it and attaches the stored user, without
// its password, to the request; `isAdmin` lets a request on only for an
// admin user. getUserProfile (controllers/auth.controller.js) answers with
// the user `protect` attached. jwt.verify is a parameter: the token's
// payload, or None when verification throws (bad signature, expired, empty
// token, no secret).

module AuthMiddleware {
  import opened Common
  import opened Collection
  import Cl = ClientModel
  import opened Store

  const Scheme: string := "Bearer"
  const NoTokenMessage: string := "Non autorisé, pas de token"
  const InvalidTokenMessage: string := "Non autorisé, token invalide"
  const UnknownUserMessage: string := "Non autorisé, utilisateur non trouvé"
  const AdminRequiredMessage: string := "Accès refusé. Rôle administrateur requis."

  /** The decoded token: `{ id }` as it was signed. */
  datatype Payload = Payload(id: Option<Id>)

  /** A stored user as `select("-mot_de_passe")` returns it. */
  datatype SafeUser = SafeUser(id: Id, prenom: string, nom: string, email: string,
                               telephone: Option<string>, role: Cl.Role)

  function WithoutPassword(c: Cl.Client): SafeUser {
    SafeUser(c.id, c.prenom, c.nom, c.email, c.telephone, c.role)
  }

  /** What a middleware does with the request: pass it on (`next()`), or answer. */
  datatype Gate = Next | Deny(status: int, message: string)

  /** A header that passes the `startsWith("Bearer")` test. */
  predicate BearerHeader(header: Option<string>) {
    header.Some? && StartsWith(header.value, Scheme)
  }

  /** `authorization.split(" ")[1]`: None when there is no second field. */
  function TokenOf(header: string): (t: Option<string>)
    ensures t.Some? ==> NoSep(t.value, ' ')
  {
    FieldAt(header, ' ', 1)
  }

  /** A header made of the scheme, one space and a token without spaces
      gives back that token. */
  lemma TokenOfWellFormed(token: string)
    requires NoSep(token, ' ')
    ensures TokenOf(Scheme + " " + token) == Some(token)
  {
    JoinFields([Scheme, token], ' ');
    assert Join([Scheme, token], ' ') == Scheme + " " + token by {
      assert [Scheme, token][1..] == [token];
    }
  }

  /** Section 2.1 of RFC 6750 allows one or more spaces after the scheme;
      with two, the second field is empty and the token is lost. */
  lemma TwoSpacesLoseToken(token: string)
    requires NoSep(token, ' ')
    ensures TokenOf(Scheme + "  " + token) == Some("")
  {
    JoinFields([Scheme, "", token], ' ');
    assert Join([Scheme, "", token], ' ') == Scheme + "  " + token by {
      assert [Scheme, "", token][1..] == ["", token];
      assert ["", token][1..] == [token];
      assert Join(["", token], ' ') == "" + [' '] + token == " " + token;
    }
  }

  /** The outcome of `protect` and the user it attaches. */
  datatype Protected = Protected(gate: Gate, user: Option<SafeUser>)

  /** protect: without a "Bearer…" header, 401 "pas de token"; a missing or
      empty token or a failed verification gives 401 "token invalide"; a
      payload naming no stored user gives 401 "utilisateur non trouvé";
      otherwise the request goes on with the stored user minus password. */
  function Protect(header: Option<string>, verify: string -> Option<Payload>, clients: seq<Cl.Client>): (p: Protected)
    ensures p.gate == Next <==> p.user.Some?
    ensures !BearerHeader(header) ==> p == Protected(Deny(401, NoTokenMessage), None)
    ensures BearerHeader(header) && (TokenOf(header.value).None? || TokenOf(header.value) == Some("")
                                     || verify(TokenOf(header.value).value).None?)
            ==> p == Protected(Deny(401, InvalidTokenMessage), None)
    ensures p.gate == Next ==> BearerHeader(header) && TokenOf(header.value).Some?
                               && var payload := verify(TokenOf(header.value).value);
                                  payload.Some? && IndexOf(clients, ClientKey, payload.value.id).Some?
                                  && p.user == Some(WithoutPassword(clients[IndexOf(clients, ClientKey, payload.value.id).value]))
    ensures p.gate == Deny(401, UnknownUserMessage) <==>
              BearerHeader(header) && TokenOf(header.value).Some? && TokenOf(header.value) != Some("")
              && verify(TokenOf(header.value).value).Some?
              && IndexOf(clients, ClientKey, verify(TokenOf(header.value).value).value.id).None?
    ensures p.gate.Deny? ==> p.gate.status == 401
  {
    if !BearerHeader(header) then Protected(Deny(401, NoTokenMessage), None)
    else
      var token := TokenOf(header.value);
      if token.None? || token.value == "" then Protected(Deny(401, InvalidTokenMessage), None)
      else match verify(token.value)
        case None => Protected(Deny(401, InvalidTokenMessage), None)
        case Some(payload) =>
          match Lookup(clients, ClientKey, payload.id)
          case None => Protected(Deny(401, UnknownUserMessage), None)
          case Some(c) => Protected(Next, Some(WithoutPassword(c)))
  }

  /** A well-formed header whose token verifies to the id of a stored user
      lets the request on with that user. */
  lemma ProtectAcceptsStoredUser(token: string, verify: string -> Option<Payload>, clients: seq<Cl.Client>, k: nat)
    requires NoSep(token, ' ') && token != ""
    requires k < |clients| && DistinctBy(clients, ClientKey)
    requires verify(token) == Some(Payload(Some(clients[k].id)))
    ensures Protect(Some(Scheme + " " + token), verify, clients) == Protected(Next, Some(WithoutPassword(clients[k])))
  {
    TokenOfWellFormed(token);
    IndexOfUnique(clients, ClientKey, clients[k].id, k);
  }

  /** getUserProfile behind `protect`: `req.user` when `protect` let the
      request on, None when `protect` answered instead. */
  function GetUserProfile(header: Option<string>, verify: string -> Option<Payload>, clients: seq<Cl.Client>): (u: Option<SafeUser>)
    ensures u.Some? <==> Protect(header, verify, clients).gate == Next
    ensures u.Some? ==> exists k :: 0 <= k < |clients| && u.value == WithoutPassword(clients[k])
  {
    var p := Protect(header, verify, clients);
    if p.gate == Next then p.user else None
  }

  /** The profile behind a well-formed header is the stored user of the token. */
  lemma ProfileIsStoredUser(token: string, verify: string -> Option<Payload>, clients: seq<Cl.Client>, k: nat)
    requires NoSep(token, ' ') && token != ""
    requires k < |clients| && DistinctBy(clients, ClientKey)
    requires verify(token) == Some(Payload(Some(clients[k].id)))
    ensures GetUserProfile(Some(Scheme + " " + token), verify, clients) == Some(WithoutPassword(clients[k]))
  {
    ProtectAcceptsStoredUser(token, verify, clients, k);
  }

  /** isAdmin: on only for a user whose role is admin, otherwise 403. */
  function IsAdmin(user: Option<SafeUser>): (g: Gate)
    ensures g == Next <==> user.Some? && user.value.role == Cl.AdminRole
    ensures g != Next ==> g == Deny(403, AdminRequiredMessage)
  {
    if user.Some? && user.value.role == Cl.AdminRole then Next else Deny(403, AdminRequiredMessage)
  }

  /** `protect` then `isAdmin`: the request goes on only with a token of a
      stored admin. */
  lemma AdminChain(header: Option<string>, verify: string -> Option<Payload>, clients: seq<Cl.Client>)
    ensures var p := Protect(header, verify, clients);
            (p.gate == Next && IsAdmin(p.user) == Next) ==>
              exists k :: 0 <= k < |clients| && clients[k].role == Cl.AdminRole && p.user == Some(WithoutPassword(clients[k]))
  {
    var p := Protect(header, verify, clients);
    if p.gate == Next && IsAdmin(p.user) == Next {
      var k := IndexOf(clients, ClientKey, verify(TokenOf(header.value).value).value.id).value;
      assert p.user == Some(WithoutPassword(clients[k]));
    }
  }
}
