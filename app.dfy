// app.js: the presence table the Socket.IO handlers keep (user id to
// socket id), the middleware that hands every request the same server and
// table, the 404 fallthrough and the final error handler.

module App {
  import opened Common

  /** `onlineUsers` without the entries that map to `socketId`. */
  function WithoutSocket(m: map<string, string>, socketId: string): (r: map<string, string>)
    ensures forall u :: u in r <==> u in m && m[u] != socketId
    ensures forall u :: u in r ==> r[u] == m[u]
  {
    map u | u in m && m[u] != socketId :: m[u]
  }

  /** The entries still to visit keep their value; the visited ones are
      dropped when they map to `socketId`. */
  ghost function PartlySwept(m: map<string, string>, remaining: set<string>, socketId: string): map<string, string> {
    map u | u in m && (u in remaining || m[u] != socketId) :: m[u]
  }

  /** The presence table: which socket each signed-in user is connected on. */
  class Presence {
    var onlineUsers: map<string, string>

    constructor()
      ensures onlineUsers == map[]
    {
      onlineUsers := map[];
    }

    /** 'addNewUser': the user now maps to this socket, replacing any
        earlier one. */
    method AddNewUser(userId: string, socketId: string)
      modifies this
      ensures onlineUsers == old(onlineUsers)[userId := socketId]
    {
      onlineUsers := onlineUsers[userId := socketId];
    }

    /** 'disconnect': the `for…in` loop deletes every user mapped to the
        closing socket and keeps every other entry. */
    method Disconnect(socketId: string)
      modifies this
      ensures onlineUsers == WithoutSocket(old(onlineUsers), socketId)
    {
      ghost var original := onlineUsers;
      var remaining := onlineUsers.Keys;
      while remaining != {}
        invariant remaining <= original.Keys
        invariant onlineUsers == PartlySwept(original, remaining, socketId)
        decreases remaining
      {
        var userId :| userId in remaining;
        if onlineUsers[userId] == socketId {
          onlineUsers := onlineUsers - {userId};
        }
        remaining := remaining - {userId};
      }
      assert onlineUsers == WithoutSocket(original, socketId);
    }
  }

  /** After a disconnect no user maps to that socket. */
  lemma NoEntryForClosedSocket(m: map<string, string>, socketId: string)
    ensures forall u :: u in WithoutSocket(m, socketId) ==> WithoutSocket(m, socketId)[u] != socketId
  {
  }

  /** A second disconnect of the same socket changes nothing. */
  lemma DisconnectIdempotent(m: map<string, string>, socketId: string)
    ensures WithoutSocket(WithoutSocket(m, socketId), socketId) == WithoutSocket(m, socketId)
  {
  }

  /** A user who announced a socket goes away with that socket and stays
      when another socket closes. */
  lemma AddThenDisconnect(m: map<string, string>, userId: string, socketId: string, other: string)
    requires other != socketId
    ensures userId !in WithoutSocket(m[userId := socketId], socketId)
    ensures userId in WithoutSocket(m[userId := socketId], other)
            && WithoutSocket(m[userId := socketId], other)[userId] == socketId
  {
  }

  /** Announcing twice keeps only the second socket. */
  lemma AddReplaces(m: map<string, string>, userId: string, first: string, second: string)
    requires first != second
    ensures m[userId := first][userId := second] == m[userId := second]
    ensures userId in WithoutSocket(m[userId := first][userId := second], first)
  {
  }

  /** The socket server; only its identity matters here. */
  class Io {
    constructor() { }
  }

  /** The two fields the middleware sets on each request. */
  class Request {
    var io: Io?
    var onlineUsers: Presence?

    constructor()
      ensures io == null && onlineUsers == null
    {
      io := null;
      onlineUsers := null;
    }
  }

  /** The server: one socket server and one presence table for its lifetime. */
  class Server {
    const io: Io
    const presence: Presence

    constructor()
      ensures fresh(presence) && presence.onlineUsers == map[]
    {
      io := new Io();
      presence := new Presence();
    }

    /** The middleware of every request: `req.io` and `req.onlineUsers` are
        the server's own objects, not copies. */
    method Attach(req: Request)
      modifies req
      ensures req.io == io && req.onlineUsers == presence
    {
      req.io := io;
      req.onlineUsers := presence;
    }
  }

  /** Two requests attached by the same server see one table: an entry
      added through one is there through the other. */
  method SharedTable(server: Server, a: Request, b: Request, userId: string, socketId: string)
    requires a != b
    modifies a, b, server.presence
    ensures a.onlineUsers == b.onlineUsers == server.presence
    ensures userId in b.onlineUsers.onlineUsers && b.onlineUsers.onlineUsers[userId] == socketId
  {
    server.Attach(a);
    server.Attach(b);
    a.onlineUsers.AddNewUser(userId, socketId);
  }

  /** The JSON body of an error reply. */
  datatype ErrorReply = ErrorReply(status: int, message: string, stack: Option<string>)

  /** The error handler's status: a status still at 200 becomes 500, any
      other is kept. */
  function ErrorStatus(status: int): (s: int)
    ensures status == 200 ==> s == 500
    ensures status != 200 ==> s == status
    ensures s != 200
  {
    if status == 200 then 500 else status
  }

  /** The error handler: the message of the error, and its stack only
      outside production. */
  function HandleError(status: int, message: string, stack: string, production: bool): (r: ErrorReply)
    ensures r.status == ErrorStatus(status) && r.message == message
    ensures r.stack.None? <==> production
    ensures !production ==> r.stack == Some(stack)
  {
    ErrorReply(ErrorStatus(status), message, if production then None else Some(stack))
  }

  /** A request no route answered: 404 set, then the error handler. */
  function NotFound(originalUrl: string, stack: string, production: bool): (r: ErrorReply)
    ensures r.status == 404
    ensures r.message == "Non trouvé - " + originalUrl
    ensures r.stack.None? <==> production
  {
    HandleError(404, "Non trouvé - " + originalUrl, stack, production)
  }

  /** Passing an error reply's status through the handler again keeps it. */
  lemma ErrorStatusIdempotent(status: int)
    ensures ErrorStatus(ErrorStatus(status)) == ErrorStatus(status)
  {
  }
}
