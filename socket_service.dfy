/** The client's socket wrapper (services/socketService.ts): one module-level
    socket, created on the first `connect`, whose listeners are replaced or
    de-duplicated and whose emits are gated on the socket being connected.

    The socket itself is the library's object; it is modelled by the flags the
    wrapper reads (`active`, `connected`), by its listener table and by a log of
    what it emitted. */
module SocketService {
  import opened Wrappers
  import opened Types

  /** A listener function, identified by reference as the emitter does. */
  type Callback = nat

  datatype ClientPayload =
    | RoomPayload(roomId: string)
    | MessagePayload(message: ChatPayload)
    | SharedAIPayload(conversation: AIConversation, roomId: string)

  datatype Emission = Emission(event: string, payload: ClientPayload)

  predicate NoDup(s: seq<Callback>) {
    forall i, j :: 0 <= i < j < |s| ==> s[i] != s[j]
  }

  function Count(s: seq<Callback>, cb: Callback): nat {
    if s == [] then 0 else (if s[0] == cb then 1 else 0) + Count(s[1..], cb)
  }

  /** `emitter.off(event, fn)`: removes the first registration of `fn`. */
  function RemoveFirst(s: seq<Callback>, cb: Callback): (r: seq<Callback>)
    ensures cb in s ==> |r| == |s| - 1
    ensures cb !in s ==> r == s
    ensures forall x :: x in r ==> x in s
    ensures forall x :: x in s && x != cb ==> x in r
  {
    if s == [] then []
    else if s[0] == cb then s[1..]
    else [s[0]] + RemoveFirst(s[1..], cb)
  }

  /** The registration removed is the first one of `cb`; the listeners
      before and after it keep their order. */
  lemma {:induction false} RemoveFirstAt(s: seq<Callback>, cb: Callback)
    ensures cb in s ==> exists i :: 0 <= i < |s| && s[i] == cb && cb !in s[..i]
                                    && RemoveFirst(s, cb) == s[..i] + s[i + 1..]
  {
    if s != [] && cb in s {
      if s[0] == cb {
        assert s[..0] + s[1..] == s[1..];
        assert cb !in s[..0];
      } else {
        assert cb in s[1..];
        RemoveFirstAt(s[1..], cb);
        var t := s[1..];
        var j :| 0 <= j < |t| && t[j] == cb && cb !in t[..j] && RemoveFirst(t, cb) == t[..j] + t[j + 1..];
        RemoveFirstStep(s, cb, j);
      }
    }
  }

  /** One step of `RemoveFirstAt`: a first occurrence in the tail is one
      position further in the list. */
  lemma RemoveFirstStep(s: seq<Callback>, cb: Callback, j: nat)
    requires |s| > 0 && s[0] != cb && j < |s| - 1
    requires s[1..][j] == cb && cb !in s[1..][..j]
    requires RemoveFirst(s[1..], cb) == s[1..][..j] + s[1..][j + 1..]
    ensures s[j + 1] == cb && cb !in s[..j + 1] && RemoveFirst(s, cb) == s[..j + 1] + s[j + 2..]
  {
    var t := s[1..];
    assert s[..j + 1] == [s[0]] + t[..j];
    assert s[j + 2..] == t[j + 1..];
  }

  /** On a list without repetitions, removing the first registration removes
      every registration. */
  lemma {:induction false} RemoveFirstNoDup(s: seq<Callback>, cb: Callback)
    requires NoDup(s)
    ensures NoDup(RemoveFirst(s, cb)) && cb !in RemoveFirst(s, cb)
  {
    if s != [] {
      assert forall k :: 0 < k < |s| ==> s[0] != s[k];
      assert NoDup(s[1..]) by {
        forall i, j | 0 <= i < j < |s[1..]| ensures s[1..][i] != s[1..][j] {
          assert s[1..][i] == s[i + 1] && s[1..][j] == s[j + 1];
        }
      }
      if s[0] != cb {
        RemoveFirstNoDup(s[1..], cb);
        var r := RemoveFirst(s[1..], cb);
        assert s[0] !in r;
        assert forall k :: 0 <= k < |r| ==> ([s[0]] + r)[k + 1] == r[k];
      }
    }
  }

  /** The listener list after `off(event, fn)` followed by `on(event, fn)`. */
  function Subscribed(s: seq<Callback>, cb: Callback): seq<Callback> {
    RemoveFirst(s, cb) + [cb]
  }

  lemma {:induction false} CountAbsent(s: seq<Callback>, cb: Callback)
    requires cb !in s
    ensures Count(s, cb) == 0
  {
    if s != [] {
      CountAbsent(s[1..], cb);
    }
  }

  lemma {:induction false} CountAppend(s: seq<Callback>, t: seq<Callback>, cb: Callback)
    ensures Count(s + t, cb) == Count(s, cb) + Count(t, cb)
  {
    if s != [] {
      assert (s + t)[0] == s[0];
      assert (s + t)[1..] == s[1..] + t;
      CountAppend(s[1..], t, cb);
    } else {
      assert s + t == t;
    }
  }

  /** Subscribing a listener leaves it registered exactly once, last, and
      keeps every other listener, in the same order as before. */
  lemma SubscribedOnce(s: seq<Callback>, cb: Callback)
    requires NoDup(s)
    ensures NoDup(Subscribed(s, cb))
    ensures Count(Subscribed(s, cb), cb) == 1
    ensures Subscribed(s, cb)[|Subscribed(s, cb)| - 1] == cb
    ensures forall x :: x != cb ==> (x in Subscribed(s, cb) <==> x in s)
    ensures cb !in s ==> Subscribed(s, cb) == s + [cb]
    ensures cb in s ==> exists i :: 0 <= i < |s| && s[i] == cb
                                    && Subscribed(s, cb) == s[..i] + s[i + 1..] + [cb]
  {
    RemoveFirstAt(s, cb);
    var r := RemoveFirst(s, cb);
    RemoveFirstNoDup(s, cb);
    CountAbsent(r, cb);
    CountAppend(r, [cb], cb);
  }

  /** Subscribing the same listener twice is the same as subscribing it once. */
  lemma {:induction false} SubscribeIdempotent(s: seq<Callback>, cb: Callback)
    requires NoDup(s)
    ensures Subscribed(Subscribed(s, cb), cb) == Subscribed(s, cb)
  {
    RemoveFirstNoDup(s, cb);
    RemoveLastAdded(RemoveFirst(s, cb), cb);
  }

  lemma {:induction false} RemoveLastAdded(r: seq<Callback>, cb: Callback)
    requires cb !in r
    ensures RemoveFirst(r + [cb], cb) == r
  {
    if r != [] {
      assert (r + [cb])[1..] == r[1..] + [cb];
      RemoveLastAdded(r[1..], cb);
    }
  }

  /** Unsubscribing after subscribing leaves no registration of the listener. */
  lemma UnsubscribeAfterSubscribe(s: seq<Callback>, cb: Callback)
    requires NoDup(s)
    ensures RemoveFirst(Subscribed(s, cb), cb) == RemoveFirst(s, cb)
    ensures cb !in RemoveFirst(Subscribed(s, cb), cb)
  {
    RemoveFirstNoDup(s, cb);
    RemoveLastAdded(RemoveFirst(s, cb), cb);
  }

  const ConnectEvent: string := "connect"
  const DisconnectEvent: string := "disconnect"
  /** The reason socket.io gives the `disconnect` listeners when the client
      itself closed the socket. */
  const ClientDisconnectReason: string := "io client disconnect"
  const ConnectErrorEvent: string := "connect_error"
  const NewMessageEvent: string := "newMessage"
  const SharedAIEvent: string := "sharedAIResponse"
  const UserListEvent: string := "userListUpdate"

  /** Everything the wrapper's socket holds, as one value. */
  datatype SocketState = SocketState(
    hasSocket: bool, active: bool, connected: bool, listeners: map<string, seq<Callback>>,
    emitted: seq<Emission>, instances: nat, connectCalls: nat)

  /** The listeners a table holds for an event; none when the event has no entry. */
  function Lookup(table: map<string, seq<Callback>>, event: string): seq<Callback> {
    if event in table then table[event] else []
  }

  class SocketClient {
    /** Whether the module-level `socket` is non-null. */
    var hasSocket: bool
    /** `socket.active`: connecting or connected. */
    var active: bool
    /** `socket.connected`. */
    var connected: bool
    /** The socket's listeners, per event name. */
    var listeners: map<string, seq<Callback>>
    /** Every event the socket has emitted to the server, in order. */
    var emitted: seq<Emission>
    /** How many sockets `io()` has created. */
    var instances: nat
    /** How many times the wrapper called `socket.connect()` itself. */
    var connectCalls: nat

    ghost predicate Valid()
      reads this
    {
      && instances == (if hasSocket then 1 else 0)
      && (connected ==> active)
      && (!hasSocket ==> !active && listeners == map[] && emitted == [])
      && forall e :: e in listeners ==> NoDup(listeners[e])
    }

    function State(): SocketState
      reads this
    {
      SocketState(hasSocket, active, connected, listeners, emitted, instances, connectCalls)
    }

    function Listeners(event: string): seq<Callback>
      reads this
    {
      Lookup(listeners, event)
    }

    /** The state of the page before any call: `let socket = null`. */
    constructor ()
      ensures Valid() && !hasSocket && emitted == [] && connectCalls == 0
    {
      hasSocket, active, connected := false, false, false;
      listeners, emitted := map[], [];
      instances, connectCalls := 0, 0;
    }

    /** `connect(onConnect, onDisconnect, onConnectError)`. */
    method Connect(onConnect: Callback, onDisconnect: Callback, onConnectError: Callback)
      requires Valid()
      modifies this
      ensures Valid() && hasSocket && active
      ensures instances == 1
      ensures Listeners(ConnectEvent) == [onConnect]
      ensures Listeners(DisconnectEvent) == [onDisconnect]
      ensures Listeners(ConnectErrorEvent) == [onConnectError]
      ensures listeners == old(listeners)[ConnectEvent := [onConnect]][DisconnectEvent := [onDisconnect]]
                                         [ConnectErrorEvent := [onConnectError]]
      ensures connectCalls == old(connectCalls) + (if old(hasSocket) && !old(active) then 1 else 0)
      ensures connected == old(connected) && emitted == old(emitted)
    {
      if !hasSocket {
        // io(url, options): a new socket that starts connecting by itself
        hasSocket, active, connected := true, true, false;
        instances := instances + 1;
      }
      // off(event) then on(event, fn) for each lifecycle event
      listeners := listeners[ConnectEvent := [onConnect]][DisconnectEvent := [onDisconnect]]
                            [ConnectErrorEvent := [onConnectError]];
      if !active {
        active := true;
        connectCalls := connectCalls + 1;
      }
    }

    /** `disconnect()`: closes the socket but keeps the instance for reuse.
        On a connected socket the library then runs the `disconnect`
        listeners at once, with the reason `ClientDisconnectReason`. */
    method Disconnect() returns (fired: seq<Callback>)
      requires Valid()
      modifies this
      ensures Valid() && !active && !connected
      ensures fired == if old(connected) then Listeners(DisconnectEvent) else []
      ensures hasSocket == old(hasSocket) && instances == old(instances)
      ensures listeners == old(listeners) && emitted == old(emitted)
      ensures connectCalls == old(connectCalls)
    {
      fired := [];
      if hasSocket {
        if connected {
          fired := Listeners(DisconnectEvent);
        }
        active, connected := false, false;
      }
    }

    method Emit(event: string, payload: ClientPayload)
      requires Valid()
      modifies this
      ensures Valid()
      ensures emitted == old(emitted) + (if hasSocket && connected then [Emission(event, payload)] else [])
      ensures hasSocket == old(hasSocket) && active == old(active) && connected == old(connected)
      ensures listeners == old(listeners) && instances == old(instances) && connectCalls == old(connectCalls)
    {
      if hasSocket && connected {
        emitted := emitted + [Emission(event, payload)];
      }
    }

    /** `joinRoom(roomId)`. */
    method JoinRoom(roomId: string)
      requires Valid()
      modifies this
      ensures Valid()
      ensures emitted == old(emitted) + (if hasSocket && connected then [Emission("joinRoom", RoomPayload(roomId))] else [])
      ensures hasSocket == old(hasSocket) && active == old(active) && connected == old(connected)
      ensures listeners == old(listeners) && instances == old(instances) && connectCalls == old(connectCalls)
    {
      Emit("joinRoom", RoomPayload(roomId));
    }

    /** `leaveRoom(roomId)`. */
    method LeaveRoom(roomId: string)
      requires Valid()
      modifies this
      ensures Valid()
      ensures emitted == old(emitted) + (if hasSocket && connected then [Emission("leaveRoom", RoomPayload(roomId))] else [])
      ensures hasSocket == old(hasSocket) && active == old(active) && connected == old(connected)
      ensures listeners == old(listeners) && instances == old(instances) && connectCalls == old(connectCalls)
    {
      Emit("leaveRoom", RoomPayload(roomId));
    }

    /** `sendMessage(roomId, text)`: the payload carries the text, the time and
        the room, and no id and no author. */
    method SendMessage(roomId: string, text: string, now: int)
      requires Valid()
      modifies this
      ensures Valid()
      ensures emitted == old(emitted) + (if hasSocket && connected then [Emission("chatMessage", MessagePayload(OutgoingMessage(roomId, text, now)))] else [])
      ensures hasSocket == old(hasSocket) && active == old(active) && connected == old(connected)
      ensures listeners == old(listeners) && instances == old(instances) && connectCalls == old(connectCalls)
    {
      Emit("chatMessage", MessagePayload(OutgoingMessage(roomId, text, now)));
    }

    /** `sendAIResponseShared(roomId, conversation)`. */
    method SendAIResponseShared(roomId: string, conversation: AIConversation)
      requires Valid()
      modifies this
      ensures Valid()
      ensures emitted == old(emitted) + (if hasSocket && connected then [Emission("aiResponseShared", SharedAIPayload(conversation, roomId))] else [])
      ensures hasSocket == old(hasSocket) && active == old(active) && connected == old(connected)
      ensures listeners == old(listeners) && instances == old(instances) && connectCalls == old(connectCalls)
    {
      Emit("aiResponseShared", SharedAIPayload(conversation, roomId));
    }

    /** `socket?.off(event, cb); socket?.on(event, cb)`. */
    method Subscribe(event: string, cb: Callback)
      requires Valid()
      modifies this
      ensures Valid()
      ensures listeners == if hasSocket then old(listeners)[event := Subscribed(old(Listeners(event)), cb)] else old(listeners)
      ensures hasSocket == old(hasSocket) && active == old(active) && connected == old(connected)
      ensures emitted == old(emitted) && instances == old(instances) && connectCalls == old(connectCalls)
    {
      if hasSocket {
        SubscribedOnce(Listeners(event), cb);
        listeners := listeners[event := Subscribed(Listeners(event), cb)];
      }
    }

    /** `socket?.off(event, cb)`. */
    method Unsubscribe(event: string, cb: Callback)
      requires Valid()
      modifies this
      ensures Valid()
      ensures listeners == if hasSocket then old(listeners)[event := RemoveFirst(old(Listeners(event)), cb)] else old(listeners)
      ensures hasSocket == old(hasSocket) && active == old(active) && connected == old(connected)
      ensures emitted == old(emitted) && instances == old(instances) && connectCalls == old(connectCalls)
    {
      if hasSocket {
        RemoveFirstNoDup(Listeners(event), cb);
        listeners := listeners[event := RemoveFirst(Listeners(event), cb)];
      }
    }

    method OnNewMessage(cb: Callback)
      requires Valid()
      modifies this
      ensures Valid()
      ensures listeners == if hasSocket then old(listeners)[NewMessageEvent := Subscribed(old(Listeners(NewMessageEvent)), cb)] else old(listeners)
      ensures hasSocket == old(hasSocket) && active == old(active) && connected == old(connected)
      ensures emitted == old(emitted) && instances == old(instances) && connectCalls == old(connectCalls)
    {
      Subscribe(NewMessageEvent, cb);
    }

    method OffNewMessage(cb: Callback)
      requires Valid()
      modifies this
      ensures Valid()
      ensures listeners == if hasSocket then old(listeners)[NewMessageEvent := RemoveFirst(old(Listeners(NewMessageEvent)), cb)] else old(listeners)
      ensures hasSocket == old(hasSocket) && active == old(active) && connected == old(connected)
      ensures emitted == old(emitted) && instances == old(instances) && connectCalls == old(connectCalls)
    {
      Unsubscribe(NewMessageEvent, cb);
    }

    method OnAIResponseShared(cb: Callback)
      requires Valid()
      modifies this
      ensures Valid()
      ensures listeners == if hasSocket then old(listeners)[SharedAIEvent := Subscribed(old(Listeners(SharedAIEvent)), cb)] else old(listeners)
      ensures hasSocket == old(hasSocket) && active == old(active) && connected == old(connected)
      ensures emitted == old(emitted) && instances == old(instances) && connectCalls == old(connectCalls)
    {
      Subscribe(SharedAIEvent, cb);
    }

    method OffAIResponseShared(cb: Callback)
      requires Valid()
      modifies this
      ensures Valid()
      ensures listeners == if hasSocket then old(listeners)[SharedAIEvent := RemoveFirst(old(Listeners(SharedAIEvent)), cb)] else old(listeners)
      ensures hasSocket == old(hasSocket) && active == old(active) && connected == old(connected)
      ensures emitted == old(emitted) && instances == old(instances) && connectCalls == old(connectCalls)
    {
      Unsubscribe(SharedAIEvent, cb);
    }

    method OnUserListUpdate(cb: Callback)
      requires Valid()
      modifies this
      ensures Valid()
      ensures listeners == if hasSocket then old(listeners)[UserListEvent := Subscribed(old(Listeners(UserListEvent)), cb)] else old(listeners)
      ensures hasSocket == old(hasSocket) && active == old(active) && connected == old(connected)
      ensures emitted == old(emitted) && instances == old(instances) && connectCalls == old(connectCalls)
    {
      Subscribe(UserListEvent, cb);
    }

    method OffUserListUpdate(cb: Callback)
      requires Valid()
      modifies this
      ensures Valid()
      ensures listeners == if hasSocket then old(listeners)[UserListEvent := RemoveFirst(old(Listeners(UserListEvent)), cb)] else old(listeners)
      ensures hasSocket == old(hasSocket) && active == old(active) && connected == old(connected)
      ensures emitted == old(emitted) && instances == old(instances) && connectCalls == old(connectCalls)
    {
      Unsubscribe(UserListEvent, cb);
    }

    /** The library completing its handshake: the socket becomes connected and
        the listeners of `connect` are the callbacks that run. */
    method HandshakeSucceeds() returns (fired: seq<Callback>)
      requires Valid()
      modifies this
      ensures Valid()
      ensures connected == ((old(hasSocket) && old(active)) || old(connected))
      ensures fired == if old(hasSocket) && old(active) && !old(connected) then Listeners(ConnectEvent) else []
      ensures hasSocket == old(hasSocket) && active == old(active) && listeners == old(listeners)
      ensures emitted == old(emitted) && instances == old(instances) && connectCalls == old(connectCalls)
    {
      fired := [];
      if hasSocket && active && !connected {
        connected := true;
        fired := Listeners(ConnectEvent);
      }
    }

    /** The library losing the transport: the socket stays active (it retries)
        and the listeners of `disconnect` run. */
    method TransportDrops() returns (fired: seq<Callback>)
      requires Valid()
      modifies this
      ensures Valid() && !connected
      ensures fired == if old(connected) then Listeners(DisconnectEvent) else []
      ensures hasSocket == old(hasSocket) && active == old(active) && listeners == old(listeners)
      ensures emitted == old(emitted) && instances == old(instances) && connectCalls == old(connectCalls)
    {
      fired := [];
      if connected {
        connected := false;
        fired := Listeners(DisconnectEvent);
      }
    }

    /** The library failing a connection attempt: the listeners of
        `connect_error` run. */
    method HandshakeFails() returns (fired: seq<Callback>)
      requires Valid()
      modifies this
      ensures Valid()
      ensures fired == if old(hasSocket) && old(active) && !old(connected) then Listeners(ConnectErrorEvent) else []
      ensures hasSocket == old(hasSocket) && active == old(active) && connected == old(connected)
      ensures listeners == old(listeners) && emitted == old(emitted)
      ensures instances == old(instances) && connectCalls == old(connectCalls)
    {
      fired := [];
      if hasSocket && active && !connected {
        fired := Listeners(ConnectErrorEvent);
      }
    }

    /** An event arriving from the server: the listeners registered for it run. */
    method Receive(event: string) returns (fired: seq<Callback>)
      requires Valid()
      ensures fired == if hasSocket && connected then Listeners(event) else []
    {
      fired := if hasSocket && connected then Listeners(event) else [];
    }
  }

  /** The payload `sendMessage` builds: text, time and room only. */
  function OutgoingMessage(roomId: string, text: string, now: int): (p: ChatPayload)
    ensures p.text == Some(text) && p.timestamp == Some(now) && p.roomId == Some(roomId)
    ensures p.id.None? && p.user.None? && p.parentMessageId.None?
  {
    ChatPayload(None, None, Some(text), Some(now), Some(roomId), None, None, None, None)
  }

  /** A client that connects twice reuses its one socket, and the second
      call's callbacks are the only lifecycle listeners. */
  method ConnectTwiceScenario(a: Callback, b: Callback, c: Callback, a2: Callback, b2: Callback, c2: Callback)
    returns (sockets: nat, onConnect: seq<Callback>)
    ensures sockets == 1 && onConnect == [a2]
  {
    var s := new SocketClient();
    s.Connect(a, b, c);
    var fired := s.Disconnect();
    s.Connect(a2, b2, c2);
    sockets, onConnect := s.instances, s.Listeners(ConnectEvent);
  }
}
