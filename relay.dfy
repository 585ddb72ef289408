/**
 * The WebSocket relay of server/routes.ts: the registry `clients` from user
 * id to live socket, the per-connection `userId`, and `broadcastMessage`.
 * A socket is known by an identifier; whether it is open (`readyState`) is
 * the oracle `isOpen`. Sending a frame is returned as a `Push` value.
 */
module Relay {
  import opened Wrappers
  import opened Schema
  import opened Auth

  type ConnId = nat

  /** The frames a client sends, after `JSON.parse`; only `auth` frames are acted on. */
  datatype ClientFrame = AuthFrame(token: string) | OtherFrame

  datatype ServerFrame = AuthSuccess | AuthError | NewMessageNotice(message: Message)

  datatype Push = Push(to: ConnId, frame: ServerFrame)

  /** `const clients = new Map<number, WebSocket>()`. */
  class ClientRegistry {
    var clients: map<Id, ConnId>

    constructor ()
      ensures clients == map[]
    {
      clients := map[];
    }
  }

  /** One accepted socket and the `userId` its handlers close over. */
  class Connection {
    const ws: ConnId
    var userId: Option<Id>

    constructor (ws: ConnId)
      ensures this.ws == ws && userId.None?
    {
      this.ws := ws;
      userId := None;
    }

    /**
     * `ws.on('message')`: an `auth` frame whose token verifies registers this
     * socket under the caller's id, replacing any socket held for that id;
     * otherwise the socket is told `auth_error` and nothing changes.
     */
    method OnMessage(frame: ClientFrame, registry: ClientRegistry, verify: string -> Option<Claims>)
      returns (reply: Option<ServerFrame>)
      modifies this`userId, registry`clients
      ensures frame.OtherFrame? ==> reply.None? && userId == old(userId) && registry.clients == old(registry.clients)
      ensures frame.AuthFrame? && verify(frame.token).Some? ==>
        && userId == Some(verify(frame.token).value.id)
        && registry.clients == old(registry.clients)[verify(frame.token).value.id := ws]
        && reply == Some(AuthSuccess)
      ensures frame.AuthFrame? && verify(frame.token).None? ==>
        userId == old(userId) && registry.clients == old(registry.clients) && reply == Some(AuthError)
    {
      match frame
      case OtherFrame =>
        reply := None;
      case AuthFrame(token) =>
        match verify(token)
        case Some(user) =>
          userId := Some(user.id);
          registry.clients := registry.clients[user.id := ws];
          reply := Some(AuthSuccess);
        case None =>
          reply := Some(AuthError);
    }

    /**
     * `ws.on('close')`: deletes the entry for this connection's user, whatever
     * socket it now holds; a connection that never authenticated (or whose
     * user id is the falsy 0) deletes nothing.
     */
    method OnClose(registry: ClientRegistry)
      modifies registry`clients
      ensures userId.Some? && userId.value != 0 ==> registry.clients == old(registry.clients) - {userId.value}
      ensures userId.None? || userId.value == 0 ==> registry.clients == old(registry.clients)
    {
      if userId.Some? && userId.value != 0 {
        registry.clients := registry.clients - {userId.value};
      }
    }
  }

  /** `broadcastMessage`: a `new_message` frame to the receiver's socket, only when one is registered and open. */
  function Broadcast(clients: map<Id, ConnId>, message: Message, isOpen: ConnId -> bool): (r: Option<Push>)
    ensures r.Some? <==> message.receiverId in clients && isOpen(clients[message.receiverId])
    ensures r.Some? ==> r.value.to == clients[message.receiverId] && r.value.frame == NewMessageNotice(message)
  {
    if message.receiverId in clients && isOpen(clients[message.receiverId])
    then Some(Push(clients[message.receiverId], NewMessageNotice(message)))
    else None
  }

  /** The sender's own socket never receives the push unless the message is addressed to the sender. */
  lemma BroadcastOnlyToReceiver(clients: map<Id, ConnId>, message: Message, isOpen: ConnId -> bool, u: Id)
    requires u in clients && u != message.receiverId
    requires forall a, b :: a in clients && b in clients && a != b ==> clients[a] != clients[b]
    ensures Broadcast(clients, message, isOpen).Some? ==> Broadcast(clients, message, isOpen).value.to != clients[u]
  {
  }

  /**
   * A user who opens a second socket and then closes the first is left with
   * no registered socket, although the second is still connected: the close
   * handler deletes the user's entry without checking which socket it holds.
   */
  method CloseOfReplacedSocket(verify: string -> Option<Claims>, token: string, first: ConnId, second: ConnId)
    returns (stillRegistered: bool)
    requires verify(token).Some? && verify(token).value.id != 0
    ensures !stillRegistered
  {
    var registry := new ClientRegistry();
    var a := new Connection(first);
    var b := new Connection(second);
    var _ := a.OnMessage(AuthFrame(token), registry, verify);
    var _ := b.OnMessage(AuthFrame(token), registry, verify);
    assert registry.clients[verify(token).value.id] == second;
    a.OnClose(registry);
    stillRegistered := verify(token).value.id in registry.clients;
  }
}
