// middlewares/role.js: the second `isAdmin`, which looks at `req.client`
// where middlewares/auth.middleware.js's `protect` attaches `req.user`.

module RoleGuard {
  import opened Common
  import Cl = ClientModel
  import opened AuthMiddleware

  const ClientAdminRequiredMessage: string := "Accès refusé: réservé aux administrateurs"

  /** The two request fields the guards read. */
  datatype Request = Request(user: Option<SafeUser>, client: Option<SafeUser>)

  /** isAdmin of role.js: on only when `req.client` is there with role
      admin, otherwise 403 with the fixed message. */
  function IsAdminClient(req: Request): (g: Gate)
    ensures g == Next <==> req.client.Some? && req.client.value.role == Cl.AdminRole
    ensures g != Next ==> g == Deny(403, ClientAdminRequiredMessage)
  {
    if req.client.Some? && req.client.value.role == Cl.AdminRole then Next
    else Deny(403, ClientAdminRequiredMessage)
  }

  /** The guard ignores `req.user`: requests that differ only there get
      the same answer. */
  lemma ReadsClientOnly(req: Request, other: Option<SafeUser>)
    ensures IsAdminClient(req) == IsAdminClient(req.(user := other))
  {
  }

  /** `protect` of auth.middleware.js on a request: the user it finds goes
      into `req.user`, and `req.client` is left as it was. */
  function ProtectRequest(req: Request, header: Option<string>, verify: string -> Option<Payload>,
                          clients: seq<Cl.Client>): (r: (Gate, Request))
    ensures r.0 == Protect(header, verify, clients).gate
    ensures r.1.client == req.client
    ensures r.0 == Next ==> r.1.user == Protect(header, verify, clients).user
  {
    var p := Protect(header, verify, clients);
    if p.gate == Next then (Next, req.(user := p.user)) else (p.gate, req)
  }

  /** Chained after that `protect`, this guard refuses every request that
      came without `req.client`, even one carrying an admin's token. */
  lemma ProtectThenClientGuardRefuses(header: Option<string>, verify: string -> Option<Payload>,
                                      clients: seq<Cl.Client>)
    ensures var (g, req) := ProtectRequest(Request(None, None), header, verify, clients);
            IsAdminClient(req) == Deny(403, ClientAdminRequiredMessage)
  {
  }

  /** The two guards answer the same admin user differently depending on
      the field it sits in. */
  lemma GuardsDisagree(u: SafeUser)
    requires u.role == Cl.AdminRole
    ensures IsAdmin(Request(Some(u), None).user) == Next
    ensures IsAdminClient(Request(Some(u), None)) == Deny(403, ClientAdminRequiredMessage)
  {
  }
}
