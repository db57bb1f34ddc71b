// controllers/client.controller.js: the second copy of sign-up and sign-in,
// with 7-day tokens, no telephone, and "Identifiants invalides" for every
// failed sign-in; and the profile, which projects `req.client` onto five
// fields. A missing JWT secret is only logged before jwt.sign throws.

module ClientController {
  import opened Common
  import Cl = ClientModel
  import opened Store
  import opened AuthController

  const ClientTokenLifetime: int := 7 * SecondsPerDay   // expiresIn: "7d"
  const ClientEmailTakenMessage: string := "Email déjà utilisé"
  const InvalidCredentialsMessage: string := "Identifiants invalides"

  /** inscrireClient: the sign-up without telephone, with the 7-day token and
      its own message for a taken address; its outcome is the sign-up's,
      stated with these constants. */
  method InscrireClient(db: Database, prenom: Option<string>, nom: Option<string>, email: Option<string>,
                        password: Option<string>, newId: Id,
                        hash: string -> string, sign: (Id, int) -> Option<string>)
    returns (r: AuthReply)
    requires ClientTable(db.clients) && Fresh(db.clients, ClientKey, newId)
    requires forall p :: hash(p) != ""
    modifies db`clients
    ensures ClientTable(db.clients)
    ensures r.status == 400 <==> EmailTaken(old(db.clients), email)
    ensures r.status == 400 ==> r.message == Some(ClientEmailTakenMessage) && db.clients == old(db.clients)
    ensures db.clients != old(db.clients) ==>
              |db.clients| == |old(db.clients)| + 1
              && db.clients[|old(db.clients)|].telephone.None?
              && db.clients[|old(db.clients)|].role == RoleFor(email)
    ensures r.status == 201 ==> r.user.Some? && r.user.value.role == RoleFor(email)
                                && sign(newId, ClientTokenLifetime).Some?
                                && r.user.value.token == sign(newId, ClientTokenLifetime).value
    ensures r.status in {201, 400, 500}
    ensures r.status == 400 ==> r.message == Some(ClientEmailTakenMessage) && r.user.None?
    ensures var built := Cl.Build(newId, prenom, nom, email, password, None, Some(RoleFor(email)));
            (EmailTaken(old(db.clients), email) || built.None? ==> db.clients == old(db.clients))
            && (!EmailTaken(old(db.clients), email) && built.None? ==> r.status == 500 && r.user.None?)
            && (!EmailTaken(old(db.clients), email) && built.Some? ==>
                  var stored := built.value.(mot_de_passe := hash(password.value));
                  db.clients == old(db.clients) + [stored]
                  && stored.role == RoleFor(email)
                  && (stored.role == Cl.AdminRole <==> EndsWith(stored.email, AdminSuffix))
                  && (r.status == 201 <==> sign(newId, ClientTokenLifetime).Some?)
                  && (r.status == 201 ==> r.user == Some(ReplyFor(stored, sign(newId, ClientTokenLifetime).value)))
                  && (r.status == 500 ==> r.user.None?))
  {
    r := SignUp(db, prenom, nom, email, password, None, newId, hash, sign, ClientTokenLifetime, ClientEmailTakenMessage);
  }

  /** connecterClient: the sign-in with the 7-day token; both failures read
      "Identifiants invalides". */
  function ConnecterClient(s: seq<Cl.Client>, email: Option<string>, password: Option<string>,
                           compare: (string, string) -> bool, sign: (Id, int) -> Option<string>): (r: AuthReply)
    ensures r.status == 401 <==> FindByEmail(s, email).None?
                                 || (password.Some? && !Cl.MatchPassword(s[FindByEmail(s, email).value], password.value, compare))
    ensures r.status == 401 ==> r == AuthReply(401, None, Some(InvalidCredentialsMessage))
    ensures r.status == 200 ==> r.user.Some? && sign(r.user.value.id, ClientTokenLifetime).Some?
                                && r.user.value.token == sign(r.user.value.id, ClientTokenLifetime).value
  {
    SignIn(s, email, password, compare, sign, ClientTokenLifetime, InvalidCredentialsMessage)
  }

  /** The profile reply: exactly these five fields of the client. */
  datatype Profile = Profile(id: Id, prenom: string, nom: string, email: string, role: Cl.Role)

  /** profilClient: `req.client` projected onto its id, names, address and
      role; without `req.client` the handler throws and sends nothing (None). */
  function ProfilClient(client: Option<Cl.Client>): (r: Option<Profile>)
    ensures r.Some? <==> client.Some?
    ensures r.Some? ==> r.value.id == client.value.id && r.value.prenom == client.value.prenom
                        && r.value.nom == client.value.nom && r.value.email == client.value.email
                        && r.value.role == client.value.role
  {
    match client
    case None => None
    case Some(c) => Some(Profile(c.id, c.prenom, c.nom, c.email, c.role))
  }

  /** The profile depends only on those five fields: clients that differ in
      password or telephone alone get the same profile. */
  lemma ProfileHidesSecrets(c: Cl.Client, password: string, telephone: Option<string>)
    ensures ProfilClient(Some(c)) == ProfilClient(Some(c.(mot_de_passe := password, telephone := telephone)))
  {
  }

  /** A sign-in and the profile of the same user agree on every field they share. */
  lemma SignInMatchesProfile(s: seq<Cl.Client>, email: Option<string>, password: Option<string>,
                             compare: (string, string) -> bool, sign: (Id, int) -> Option<string>)
    requires ConnecterClient(s, email, password, compare, sign).status == 200
    ensures var u := ConnecterClient(s, email, password, compare, sign).user.value;
            var p := ProfilClient(Some(s[FindByEmail(s, email).value])).value;
            u.id == p.id && u.prenom == p.prenom && u.nom == p.nom && u.email == p.email && u.role == p.role
  {
  }
}
