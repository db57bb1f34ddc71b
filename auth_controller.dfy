// controllers/auth.controller.js: sign-up and sign-in of users. The role is
// 'admin' exactly for e-mails ending in "@admin.ml" (any case), an e-mail
// already stored is refused, and both ways a sign-in can fail give the same
// answer. controllers/client.controller.js repeats the same two handlers with
// other messages and token lifetimes; both are instances of SignUp and SignIn.
// jwt.sign and bcrypt are parameters: `sign(id, seconds)` is the token, or
// None when signing throws (no JWT secret); `hash` is the salted hash.

module AuthController {
  import opened Common
  import opened Collection
  import Cl = ClientModel
  import opened Store

  const SecondsPerDay: int := 86_400
  const AdminSuffix: string := "@admin.ml"
  const TokenLifetime: int := 30 * SecondsPerDay   // expiresIn: "30d"
  const EmailTakenMessage: string := "Cet email est déjà utilisé"
  const LoginFailedMessage: string := "Email ou mot de passe invalide"

  /** `email && email.toLowerCase().endsWith('@admin.ml') ? 'admin' : 'client'`. */
  function RoleFor(email: Option<string>): (r: Cl.Role)
    ensures r == Cl.AdminRole <==> Filled(email) && EndsWith(Lower(email.value), AdminSuffix)
  {
    if Filled(email) && EndsWith(Lower(email.value), AdminSuffix) then Cl.AdminRole else Cl.ClientRole
  }

  /** The suffix test ignores case: any capitalisation of "@admin.ml" after any
      local part gives an admin, and a local part alone never does. */
  lemma AdminSuffixAnyCase(local: string, suffix: string)
    requires Lower(suffix) == AdminSuffix
    ensures RoleFor(Some(local + suffix)) == Cl.AdminRole
  {
    var e := local + suffix;
    assert Lower(e) == Lower(local) + Lower(suffix) by {
      assert forall i :: 0 <= i < |e| ==> Lower(e)[i] == (Lower(local) + Lower(suffix))[i];
    }
    assert Lower(e)[|Lower(e)| - |AdminSuffix|..] == AdminSuffix;
  }

  lemma PlainAddressIsClient(email: string)
    requires |email| < |AdminSuffix|
    ensures RoleFor(Some(email)) == Cl.ClientRole
  {
  }

  /** `findOne({ email })`: the schema's lowercase setter applies to the filter
      value too, so the lookup is by the lower-cased address; a missing
      address finds nothing. */
  function FindByEmail(s: seq<Cl.Client>, email: Option<string>): (r: Option<nat>)
    ensures r.Some? ==> email.Some? && r.value < |s| && s[r.value].email == Lower(email.value)
    ensures r.None? <==> email.None? || forall j :: 0 <= j < |s| ==> s[j].email != Lower(email.value)
  {
    if email.None? then None else FirstIndex(s, (c: Cl.Client) => c.email == Lower(email.value))
  }

  predicate EmailTaken(s: seq<Cl.Client>, email: Option<string>) {
    FindByEmail(s, email).Some?
  }

  /** The user fields a sign-up or sign-in reply carries. */
  datatype UserReply = UserReply(id: Id, prenom: string, nom: string, email: string, role: Cl.Role, token: string)

  /** `message` is None where the reply carries an exception's own text. */
  datatype AuthReply = AuthReply(status: int, user: Option<UserReply>, message: Option<string>)

  function ReplyFor(c: Cl.Client, token: string): UserReply {
    UserReply(c.id, c.prenom, c.nom, c.email, c.role, token)
  }

  /** Every stored user whose role is admin is one whose stored address ends
      in "@admin.ml", and the other way round. */
  predicate RolesFollowEmails(s: seq<Cl.Client>) {
    forall i :: 0 <= i < |s| ==> (s[i].role == Cl.AdminRole <==> EndsWith(s[i].email, AdminSuffix))
  }

  /** The sign-up both controllers run: 400 with `takenMessage` for an
      address already stored; 500 when validation rejects the user;
      otherwise the user is stored with the hashed password and the role the
      address gives, and the reply is 201 with a token of `lifetime`
      seconds, or 500 when signing fails, the user staying stored. */
  method SignUp(db: Database, prenom: Option<string>, nom: Option<string>, email: Option<string>,
                password: Option<string>, telephone: Option<string>, newId: Id,
                hash: string -> string, sign: (Id, int) -> Option<string>,
                lifetime: int, takenMessage: string)
    returns (r: AuthReply)
    requires ClientTable(db.clients) && Fresh(db.clients, ClientKey, newId)
    requires forall p :: hash(p) != ""
    modifies db`clients
    ensures ClientTable(db.clients)
    ensures r.status in {201, 400, 500}
    ensures r.status == 400 <==> EmailTaken(old(db.clients), email)
    ensures r.status == 400 ==> r.message == Some(takenMessage) && r.user.None?
    ensures var built := Cl.Build(newId, prenom, nom, email, password, telephone, Some(RoleFor(email)));
            (EmailTaken(old(db.clients), email) || built.None? ==> db.clients == old(db.clients))
            && (!EmailTaken(old(db.clients), email) && built.None? ==> r.status == 500 && r.user.None?)
            && (!EmailTaken(old(db.clients), email) && built.Some? ==>
                  var stored := built.value.(mot_de_passe := hash(password.value));
                  db.clients == old(db.clients) + [stored]
                  && stored.role == RoleFor(email)
                  && (stored.role == Cl.AdminRole <==> EndsWith(stored.email, AdminSuffix))
                  && (r.status == 201 <==> sign(newId, lifetime).Some?)
                  && (r.status == 201 ==> r.user == Some(ReplyFor(stored, sign(newId, lifetime).value)))
                  && (r.status == 500 ==> r.user.None?))
  {
    var found := FindByEmail(db.clients, email);
    if found.Some? {
      return AuthReply(400, None, Some(takenMessage));
    }
    var role := Cl.ClientRole;
    if Filled(email) && EndsWith(Lower(email.value), AdminSuffix) {
      role := Cl.AdminRole;
    }
    var built := Cl.Build(newId, prenom, nom, email, password, telephone, Some(role));
    if built.None? {
      return AuthReply(500, None, None);
    }
    var document := new Cl.ClientDocument(built.value);
    document.PreSave(hash);
    var stored := document.doc;
    LowerIsIdempotent(email.value);
    assert stored.email == Lower(email.value);
    DistinctAfterAppend(db.clients, ClientKey, stored);
    db.clients := db.clients + [stored];
    var token := sign(newId, lifetime);
    if token.None? {
      return AuthReply(500, None, None);
    }
    return AuthReply(201, Some(ReplyFor(stored, token.value)), None);
  }

  /** register: the sign-up with telephone, the 30-day token and its own
      message for a taken address; its outcome is the sign-up's, stated with
      these constants. */
  method Register(db: Database, prenom: Option<string>, nom: Option<string>, email: Option<string>,
                  password: Option<string>, telephone: Option<string>, newId: Id,
                  hash: string -> string, sign: (Id, int) -> Option<string>)
    returns (r: AuthReply)
    requires ClientTable(db.clients) && Fresh(db.clients, ClientKey, newId)
    requires forall p :: hash(p) != ""
    modifies db`clients
    ensures ClientTable(db.clients)
    ensures r.status == 400 <==> EmailTaken(old(db.clients), email)
    ensures r.status == 400 ==> r.message == Some(EmailTakenMessage) && db.clients == old(db.clients)
    ensures r.status == 201 ==> r.user.Some? && r.user.value.role == RoleFor(email)
                                && sign(newId, TokenLifetime).Some?
                                && r.user.value.token == sign(newId, TokenLifetime).value
                                && |db.clients| == |old(db.clients)| + 1
    ensures r.status in {201, 400, 500}
    ensures r.status == 400 ==> r.message == Some(EmailTakenMessage) && r.user.None?
    ensures var built := Cl.Build(newId, prenom, nom, email, password, telephone, Some(RoleFor(email)));
            (EmailTaken(old(db.clients), email) || built.None? ==> db.clients == old(db.clients))
            && (!EmailTaken(old(db.clients), email) && built.None? ==> r.status == 500 && r.user.None?)
            && (!EmailTaken(old(db.clients), email) && built.Some? ==>
                  var stored := built.value.(mot_de_passe := hash(password.value));
                  db.clients == old(db.clients) + [stored]
                  && stored.role == RoleFor(email)
                  && (stored.role == Cl.AdminRole <==> EndsWith(stored.email, AdminSuffix))
                  && (r.status == 201 <==> sign(newId, TokenLifetime).Some?)
                  && (r.status == 201 ==> r.user == Some(ReplyFor(stored, sign(newId, TokenLifetime).value)))
                  && (r.status == 500 ==> r.user.None?))
  {
    r := SignUp(db, prenom, nom, email, password, telephone, newId, hash, sign, TokenLifetime, EmailTakenMessage);
  }

  /** The sign-in both controllers run: the user found by address whose
      stored hash the entered password matches gets 200 with a token of
      `lifetime` seconds; an unknown address and a wrong password both get
      401 with `failMessage`. A found user with no password entered makes
      bcrypt throw (500), as does a failing jwt.sign. */
  function SignIn(s: seq<Cl.Client>, email: Option<string>, password: Option<string>,
                  compare: (string, string) -> bool, sign: (Id, int) -> Option<string>,
                  lifetime: int, failMessage: string): (r: AuthReply)
    ensures r.status in {200, 401, 500}
    ensures r.status == 401 <==> FindByEmail(s, email).None?
                                 || (password.Some? && !Cl.MatchPassword(s[FindByEmail(s, email).value], password.value, compare))
    ensures r.status == 401 ==> r.message == Some(failMessage) && r.user.None?
    ensures r.status == 200 ==> FindByEmail(s, email).Some? && password.Some?
                                && var c := s[FindByEmail(s, email).value];
                                   Cl.MatchPassword(c, password.value, compare)
                                   && sign(c.id, lifetime).Some?
                                   && r.user == Some(ReplyFor(c, sign(c.id, lifetime).value))
  {
    match FindByEmail(s, email)
    case None => AuthReply(401, None, Some(failMessage))
    case Some(k) =>
      if password.None? then AuthReply(500, None, None)
      else if !Cl.MatchPassword(s[k], password.value, compare) then AuthReply(401, None, Some(failMessage))
      else match sign(s[k].id, lifetime)
        case None => AuthReply(500, None, None)
        case Some(token) => AuthReply(200, Some(ReplyFor(s[k], token)), None)
  }

  /** A failed sign-in does not tell whether the address is known: an
      unknown address and a known one with a wrong password get the same reply. */
  lemma SignInFailsUniformly(s: seq<Cl.Client>, unknown: string, known: string, wrong: string,
                             compare: (string, string) -> bool, sign: (Id, int) -> Option<string>,
                             lifetime: int, failMessage: string)
    requires FindByEmail(s, Some(unknown)).None?
    requires FindByEmail(s, Some(known)).Some?
    requires !compare(wrong, s[FindByEmail(s, Some(known)).value].mot_de_passe)
    ensures SignIn(s, Some(unknown), Some(wrong), compare, sign, lifetime, failMessage)
            == SignIn(s, Some(known), Some(wrong), compare, sign, lifetime, failMessage)
            == AuthReply(401, None, Some(failMessage))
  {
  }

  /** A user who signed up signs in with the same password, whatever the
      case of the address, when bcrypt accepts each password against its
      own hash. */
  lemma SignUpThenSignIn(s: seq<Cl.Client>, c: Cl.Client, typed: string, password: string,
                         hash: string -> string, compare: (string, string) -> bool,
                         sign: (Id, int) -> Option<string>, lifetime: int, failMessage: string)
    requires Cl.EmailsUnique(s + [c]) && c.email == Lower(typed)
    requires c.mot_de_passe == hash(password) && forall p :: compare(p, hash(p))
    requires sign(c.id, lifetime).Some?
    ensures SignIn(s + [c], Some(typed), Some(password), compare, sign, lifetime, failMessage).status == 200
    ensures SignIn(s + [c], Some(typed), Some(password), compare, sign, lifetime, failMessage).user.value.id == c.id
  {
    var t := s + [c];
    assert t[|s|] == c;
    assert forall j :: 0 <= j < |s| ==> t[j].email != t[|s|].email;
  }

  /** login: the sign-in with the 30-day token and a single failure message. */
  function Login(s: seq<Cl.Client>, email: Option<string>, password: Option<string>,
                 compare: (string, string) -> bool, sign: (Id, int) -> Option<string>): (r: AuthReply)
    ensures r.status == 401 ==> r.message == Some(LoginFailedMessage)
    ensures r.status == 200 ==> r.user.Some? && sign(r.user.value.id, TokenLifetime).Some?
                                && r.user.value.token == sign(r.user.value.id, TokenLifetime).value
  {
    SignIn(s, email, password, compare, sign, TokenLifetime, LoginFailedMessage)
  }
}
