// The user schema of models/client.model.js: required names, e-mail and
// password, an optional telephone, a role defaulting to 'client'; the e-mail
// is stored lower-cased and is unique. A pre-save hook hashes the password
// with bcrypt, but only when the password path was modified. bcrypt itself
// is not modelled: the salted hash and the comparison are parameters.

module ClientModel {
  import opened Common

  datatype Role = ClientRole | AdminRole

  function RoleName(r: Role): string {
    match r
    case ClientRole => "client"
    case AdminRole => "admin"
  }

  const DefaultRole: Role := ClientRole

  datatype Client = Client(
    id: Id,
    prenom: string,
    nom: string,
    email: string,          // stored through the `lowercase` setter
    mot_de_passe: string,
    telephone: Option<string>,
    role: Role)

  predicate Valid(c: Client) {
    c.prenom != "" && c.nom != "" && c.email != "" && c.mot_de_passe != ""
    && c.email == Lower(c.email)
  }

  /** The unique index on `email`. */
  predicate EmailsUnique(s: seq<Client>) {
    forall i, j :: 0 <= i < j < |s| ==> s[i].email != s[j].email
  }

  predicate CreateAccepted(prenom: Option<string>, nom: Option<string>, email: Option<string>,
                           mot_de_passe: Option<string>) {
    Filled(prenom) && Filled(nom) && Filled(email) && Filled(mot_de_passe)
  }

  /** The document `Client.create({...})` validates, before the pre-save hook:
      the e-mail goes through the lowercase setter, the role defaults to 'client'.
      None when validation rejects it. */
  function Build(id: Id, prenom: Option<string>, nom: Option<string>, email: Option<string>,
                 mot_de_passe: Option<string>, telephone: Option<string>, role: Option<Role>): (r: Option<Client>)
    ensures r.Some? <==> CreateAccepted(prenom, nom, email, mot_de_passe)
    ensures r.Some? ==> Valid(r.value) && r.value.id == id
                        && r.value.email == Lower(email.value)
                        && r.value.mot_de_passe == mot_de_passe.value
                        && r.value.role == Or(role, DefaultRole)
                        && r.value.telephone == telephone
  {
    if CreateAccepted(prenom, nom, email, mot_de_passe) then
      LowerIsIdempotent(email.value);
      Some(Client(id, prenom.value, nom.value, Lower(email.value), mot_de_passe.value, telephone, Or(role, DefaultRole)))
    else None
  }

  /** The stored password after the pre-save hook: the salted hash of the
      current value when the path was modified, the current value otherwise. */
  function SavedPassword(current: string, modified: bool, hash: string -> string): string {
    if modified then hash(current) else current
  }

  /** A document in memory with Mongoose's modified flag for `mot_de_passe`. */
  class ClientDocument {
    var doc: Client
    var passwordModified: bool

    /** A new document: every path it was built with counts as modified. */
    constructor (c: Client)
      ensures doc == c && passwordModified
    {
      doc := c;
      passwordModified := true;
    }

    /** A document read from the collection: nothing is modified yet. */
    constructor Loaded(c: Client)
      ensures doc == c && !passwordModified
    {
      doc := c;
      passwordModified := false;
    }

    /** The pre-save hook. After it, the document counts as saved and a later
        save without a password change leaves the hash alone. */
    method PreSave(hash: string -> string)
      modifies this
      ensures doc == old(doc).(mot_de_passe := SavedPassword(old(doc).mot_de_passe, old(passwordModified), hash))
      ensures !passwordModified
    {
      if passwordModified {
        doc := doc.(mot_de_passe := hash(doc.mot_de_passe));
      }
      passwordModified := false;
    }
  }

  /** Saving a new document and then saving it again unchanged hashes the
      password once: the second save keeps the first save's hash. */
  lemma SaveTwiceHashesOnce(plain: string, hash: string -> string)
    ensures SavedPassword(SavedPassword(plain, true, hash), false, hash) == hash(plain)
  {
  }

  /** `matchPassword`: bcrypt's comparison of the entered password with the stored hash. */
  function MatchPassword(c: Client, entered: string, compare: (string, string) -> bool): (b: bool)
    ensures b == compare(entered, c.mot_de_passe)
  {
    compare(entered, c.mot_de_passe)
  }

  /** With a comparison that accepts each password against its own hash, the
      password a new user registered with matches the stored hash. */
  lemma RegisteredPasswordMatches(c: Client, hash: string -> string, compare: (string, string) -> bool)
    requires forall p :: compare(p, hash(p))
    ensures MatchPassword(c.(mot_de_passe := SavedPassword(c.mot_de_passe, true, hash)), c.mot_de_passe, compare)
  {
  }
}
