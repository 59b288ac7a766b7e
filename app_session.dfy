/** The chat session of the page (App.tsx): the component's state fields, the
    two effects (the connection made once on mount, and the room joined when
    the socket is connected and a repository is active) and the handlers that
    change that state.

    Each handler is a method of `Session`. React runs an effect after the
    render that follows a state change; here `RoomEffect` is a step of its own,
    which compares its dependencies with those of its last run as React does.
    An `async` handler is split at its `await`: the first half returns what the
    second half needs (the closure's captured values), and the outcome of the
    awaited call is a parameter of the second half. `Date.now()` is `now`. */
module App {
  import opened Wrappers
  import opened Strings
  import opened Types
  import opened ChatLog
  import opened RepoUrl
  import opened SocketService

  /** The three lifecycle callbacks the connection effect passes to `connect`. */
  const ConnectCb: Callback := 0
  const DisconnectCb: Callback := 1
  const ConnectErrorCb: Callback := 2

  const InvalidUrlMessage: string :=
    "Invalid GitHub repository URL format. Expected format: https://github.com/owner/repo"
  const FetchFailedMessage: string := "Failed to fetch repository data."
  const AskFailedMessage: string := "Failed to get AI response."

  /** `error.message || fallback`. */
  function MessageOr(message: string, fallback: string): (r: string)
    ensures message != "" ==> r == message
    ensures message == "" ==> r == fallback
  {
    if message == "" then fallback else message
  }

  /** The `repoError` a failed question leaves behind: only an error that
      mentions an API key, in any letter case, is raised to the page. */
  function AskErrorBanner(message: string): (r: Option<string>)
    ensures r.Some? <==> ContainsCI(message, "api key")
    ensures r.Some? ==> r.value == "AI Service Error: " + message + ". Please check API key configuration."
  {
    if ContainsCI(message, "api key") then
      Some("AI Service Error: " + message + ". Please check API key configuration.")
    else None
  }

  /** The test of `handleSharedAIResponse`: an answer about the room's
      repository, shared by someone else. */
  predicate AcceptsShared(conv: AIConversation, room: string) {
    conv.repoFullName == room && conv.user != Some(MockUserId)
  }

  /** What leaving the active room emits: a `leaveRoom` for a connected page
      with a room, and nothing otherwise. */
  function LeaveEmission(room: Option<string>, status: SocketStatus): (r: seq<Emission>)
    ensures |r| <= 1
    ensures |r| == 1 <==> Truthy(room) && status == Connected
    ensures |r| == 1 ==> r[0] == Emission("leaveRoom", RoomPayload(room.value))
  {
    if Truthy(room) && status == Connected then [Emission("leaveRoom", RoomPayload(room.value))] else []
  }

  /** What `handleAskAI` holds across its `await`: the conversation it added
      and the room and status its closure captured. */
  datatype PendingAsk = PendingAsk(conversation: AIConversation, room: Option<string>, status: SocketStatus)

  /** The component's `useState` values: `socketStatus`,
      `activeRepoForChat`, `chatMessages`, `aiConversations`,
      `showSocketErrorBanner`, `currentRepoUrl`, the presence of `repoData`
      (its `fullName`), `isLoadingRepo` and `repoError`. */
  datatype PageState = PageState(
    status: SocketStatus,
    activeRoom: Option<string>,
    messages: seq<ChatMessage>,
    conversations: seq<AIConversation>,
    showErrorBanner: bool,
    currentRepoUrl: Option<string>,
    repoFullName: Option<string>,
    isLoadingRepo: bool,
    repoError: Option<string>)

  /** What React keeps for the two effects: whether the connection effect has
      run and not been cleaned up, the `activeRepoForChat` its closures
      captured, the room effect's dependencies at its last run, the room whose
      listeners that run registered and the two listeners it created, and the
      next fresh callback identity. */
  datatype EffectState = EffectState(
    mounted: bool,
    mountRoom: Option<string>,
    effectDeps: Option<(SocketStatus, Option<string>)>,
    listening: Option<string>,
    messageCb: Callback,
    sharedCb: Callback,
    nextCb: Callback)

  /** How the page's state is tied to its socket: the three lifecycle
      callbacks stay registered, the status the page shows is the socket's
      own state, and the only chat listeners are those of the room effect's
      live run. */
  ghost predicate Wired(socket: SocketClient, effects: EffectState, status: SocketStatus)
    reads socket
  {
    && socket.Valid() && socket.hasSocket
    && Lookup(socket.listeners, ConnectEvent) == [ConnectCb]
    && Lookup(socket.listeners, DisconnectEvent) == [DisconnectCb]
    && Lookup(socket.listeners, ConnectErrorEvent) == [ConnectErrorCb]
    && effects.mounted == socket.active
    && (status == Connected <==> socket.connected)
    && (!effects.mounted ==> status == Idle)
    && Lookup(socket.listeners, NewMessageEvent) == (if effects.listening.Some? then [effects.messageCb] else [])
    && Lookup(socket.listeners, SharedAIEvent) == (if effects.listening.Some? then [effects.sharedCb] else [])
  }

  class Session {
    /** The module-level socket of the socket service. */
    const socket: SocketClient
    var page: PageState
    var effects: EffectState

    ghost predicate Valid()
      reads this, socket
    {
      Wired(socket, effects, page.status)
    }

    /** The first render and the connection effect that runs after it:
        status `Connecting`, and a socket with the three lifecycle callbacks. */
    constructor ()
      ensures Valid() && fresh(socket)
      ensures page == PageState(Connecting, None, [], [], false, None, None, false, None)
      ensures effects == EffectState(true, None, None, None, 3, 4, 3)
      ensures socket.emitted == [] && socket.instances == 1
    {
      socket := new SocketClient();
      page := PageState(Idle, None, [], [], false, None, None, false, None);
      effects := EffectState(false, None, None, None, 3, 4, 3);
      new;
      page := page.(status := Connecting);
      socket.Connect(ConnectCb, DisconnectCb, ConnectErrorCb);
      effects := effects.(mounted := true);
    }

    /** The connection effect running again after its cleanup: the socket is
        reused and asked to connect. */
    method Mount()
      requires Valid() && !effects.mounted
      modifies this, socket
      ensures Valid()
      ensures page == old(page).(status := Connecting, showErrorBanner := false)
      ensures effects == old(effects).(mounted := true, mountRoom := old(page.activeRoom))
      ensures socket.instances == 1 && socket.connectCalls == old(socket.connectCalls) + 1
      ensures socket.emitted == old(socket.emitted)
    {
      page := page.(status := Connecting, showErrorBanner := false);
      socket.Connect(ConnectCb, DisconnectCb, ConnectErrorCb);
      effects := effects.(mounted := true, mountRoom := page.activeRoom);
    }

    /** The socket completing its handshake: `handleConnect` runs when the
        socket was connecting. */
    method SocketConnected()
      requires Valid()
      modifies this, socket
      ensures Valid()
      ensures old(effects.mounted) && old(page.status) != Connected ==>
                page == old(page).(status := Connected, showErrorBanner := false)
      ensures !(old(effects.mounted) && old(page.status) != Connected) ==> page == old(page)
      ensures effects == old(effects) && socket.emitted == old(socket.emitted)
    {
      var fired := socket.HandshakeSucceeds();
      if ConnectCb in fired {
        page := page.(status := Connected, showErrorBanner := false);
      }
    }

    /** `handleDisconnect`, given the room it tests. */
    method OnDisconnect(room: Option<string>, reason: string, now: nat)
      requires Valid()
      modifies this, socket
      ensures Valid()
      ensures old(page.status) == Connected ==>
                page == old(page).(status := Disconnected,
                                   messages := old(page.messages) + if Truthy(room) then [DisconnectNotice(room.value, reason, now)] else [])
      ensures old(page.status) != Connected ==> page == old(page)
      ensures effects == old(effects) && socket.emitted == old(socket.emitted)
    {
      var fired := socket.TransportDrops();
      if DisconnectCb in fired {
        var notice := if Truthy(room) then [DisconnectNotice(room.value, reason, now)] else [];
        page := page.(status := Disconnected, messages := page.messages + notice);
      }
    }

    /** The transport dropping, with `handleDisconnect` testing the room the
        page has now. */
    method TransportDropped(reason: string, now: nat)
      requires Valid()
      modifies this, socket
      ensures Valid()
      ensures var room := old(page.activeRoom);
              old(page.status) == Connected ==>
                page == old(page).(status := Disconnected,
                                   messages := old(page.messages) + if Truthy(room) then [DisconnectNotice(room.value, reason, now)] else [])
      ensures old(page.status) != Connected ==> page == old(page)
      ensures effects == old(effects) && socket.emitted == old(socket.emitted)
    {
      OnDisconnect(page.activeRoom, reason, now);
    }

    /** The transport dropping as the source has it: the handler is the
        closure of the connection effect, which ran once, so the room it tests
        is the one captured on mount. */
    method TransportDroppedAsWritten(reason: string, now: nat)
      requires Valid()
      modifies this, socket
      ensures Valid()
      ensures var room := old(effects.mountRoom);
              old(page.status) == Connected ==>
                page == old(page).(status := Disconnected,
                                   messages := old(page.messages) + if Truthy(room) then [DisconnectNotice(room.value, reason, now)] else [])
      ensures old(page.status) != Connected ==> page == old(page)
      ensures effects == old(effects) && socket.emitted == old(socket.emitted)
    {
      OnDisconnect(effects.mountRoom, reason, now);
    }

    /** `handleConnectError`, given the room it tests: status `Error` and the
        banner shown. */
    method OnConnectError(room: Option<string>, message: string, now: nat)
      requires Valid()
      modifies this, socket
      ensures Valid()
      ensures old(effects.mounted) && old(page.status) != Connected ==>
                page == old(page).(status := Error, showErrorBanner := true,
                                   messages := old(page.messages) + if Truthy(room) then [ConnectErrorNotice(room.value, message, now)] else [])
      ensures !(old(effects.mounted) && old(page.status) != Connected) ==> page == old(page)
      ensures effects == old(effects) && socket.emitted == old(socket.emitted)
    {
      var fired := socket.HandshakeFails();
      if ConnectErrorCb in fired {
        var notice := if Truthy(room) then [ConnectErrorNotice(room.value, message, now)] else [];
        page := page.(status := Error, showErrorBanner := true, messages := page.messages + notice);
      }
    }

    /** A failed connection attempt, with the handler testing the room the
        page has now. */
    method ConnectFailed(message: string, now: nat)
      requires Valid()
      modifies this, socket
      ensures Valid()
      ensures var room := old(page.activeRoom);
              old(effects.mounted) && old(page.status) != Connected ==>
                page == old(page).(status := Error, showErrorBanner := true,
                                   messages := old(page.messages) + if Truthy(room) then [ConnectErrorNotice(room.value, message, now)] else [])
      ensures !(old(effects.mounted) && old(page.status) != Connected) ==> page == old(page)
      ensures effects == old(effects) && socket.emitted == old(socket.emitted)
    {
      OnConnectError(page.activeRoom, message, now);
    }

    /** A failed connection attempt as the source has it: the room tested is
        the one captured on mount. */
    method ConnectFailedAsWritten(message: string, now: nat)
      requires Valid()
      modifies this, socket
      ensures Valid()
      ensures var room := old(effects.mountRoom);
              old(effects.mounted) && old(page.status) != Connected ==>
                page == old(page).(status := Error, showErrorBanner := true,
                                   messages := old(page.messages) + if Truthy(room) then [ConnectErrorNotice(room.value, message, now)] else [])
      ensures !(old(effects.mounted) && old(page.status) != Connected) ==> page == old(page)
      ensures effects == old(effects) && socket.emitted == old(socket.emitted)
    {
      OnConnectError(effects.mountRoom, message, now);
    }

    /** The room effect's cleanup: its two chat listeners are removed. */
    method StopListening()
      requires Valid()
      modifies this, socket
      ensures Valid()
      ensures page == old(page) && effects == old(effects).(listening := None)
      ensures socket.emitted == old(socket.emitted)
    {
      if effects.listening.Some? {
        socket.OffNewMessage(effects.messageCb);
        socket.OffAIResponseShared(effects.sharedCb);
        effects := effects.(listening := None);
      }
    }

    /** The page unmounting, given the room the connection effect's cleanup
        tests: both effects are cleaned up, the room is left when the socket is
        connected and the socket is disconnected. Disconnecting a connected
        socket runs `handleDisconnect` at once, with the room captured on
        mount; the status ends `Idle`. */
    method Unmount(room: Option<string>, now: nat)
      requires Valid() && effects.mounted
      modifies this, socket
      ensures Valid() && !socket.connected
      ensures var captured := old(effects.mountRoom);
              page == old(page).(status := Idle,
                                 messages := old(page.messages) +
                                   if old(page.status) == Connected && Truthy(captured)
                                   then [DisconnectNotice(captured.value, ClientDisconnectReason, now)] else [])
      ensures effects == old(effects).(mounted := false, listening := None, effectDeps := None)
      ensures socket.emitted == old(socket.emitted) +
                if Truthy(room) && old(page.status) == Connected then [Emission("leaveRoom", RoomPayload(room.value))] else []
    {
      StopListening();
      if Truthy(room) && socket.connected {
        socket.LeaveRoom(room.value);
      }
      var fired := socket.Disconnect();
      if DisconnectCb in fired {
        var captured := effects.mountRoom;
        var notice := if Truthy(captured) then [DisconnectNotice(captured.value, ClientDisconnectReason, now)] else [];
        page := page.(status := Disconnected, messages := page.messages + notice);
      }
      page := page.(status := Idle);
      effects := effects.(mounted := false, effectDeps := None);
    }

    /** The room effect: when its dependencies changed since its last run, the
        previous run's listeners are removed; then, when connected with an
        active room, the room is joined, fresh listeners are registered and
        the log is reset to the single join message. */
    method RoomEffect(now: nat)
      requires Valid()
      modifies this, socket
      ensures Valid()
      ensures var deps := Some((old(page.status), old(page.activeRoom)));
              old(effects.effectDeps) == deps ==>
                page == old(page) && effects == old(effects) && socket.emitted == old(socket.emitted)
      ensures var deps := Some((old(page.status), old(page.activeRoom))); var room := old(page.activeRoom);
              old(effects.effectDeps) != deps && old(page.status) == Connected && Truthy(room) ==>
                && page == old(page).(messages := [JoinMessage(room.value, now)])
                && effects == old(effects).(effectDeps := deps, listening := room, messageCb := old(effects.nextCb),
                                            sharedCb := old(effects.nextCb) + 1, nextCb := old(effects.nextCb) + 2)
                && socket.emitted == old(socket.emitted) + [Emission("joinRoom", RoomPayload(room.value))]
      ensures var deps := Some((old(page.status), old(page.activeRoom)));
              old(effects.effectDeps) != deps && !(old(page.status) == Connected && Truthy(old(page.activeRoom))) ==>
                && page == old(page) && effects == old(effects).(effectDeps := deps, listening := None)
                && socket.emitted == old(socket.emitted)
    {
      var deps := Some((page.status, page.activeRoom));
      if effects.effectDeps == deps {
        return;
      }
      StopListening();
      effects := effects.(effectDeps := deps);
      if page.status == Connected && Truthy(page.activeRoom) {
        JoinAndListen(page.activeRoom.value, now);
      }
    }

    /** The body of the room effect for a connected page with room `room`. */
    method JoinAndListen(room: string, now: nat)
      requires Valid() && effects.listening.None? && page.status == Connected
      modifies this, socket
      ensures Valid()
      ensures page == old(page).(messages := [JoinMessage(room, now)])
      ensures effects == old(effects).(listening := Some(room), messageCb := old(effects.nextCb),
                                       sharedCb := old(effects.nextCb) + 1, nextCb := old(effects.nextCb) + 2)
      ensures socket.emitted == old(socket.emitted) + [Emission("joinRoom", RoomPayload(room))]
    {
      socket.JoinRoom(room);
      var cb := effects.nextCb;
      socket.OnNewMessage(cb);
      socket.OnAIResponseShared(cb + 1);
      effects := effects.(listening := Some(room), messageCb := cb, sharedCb := cb + 1, nextCb := cb + 2);
      page := page.(messages := [JoinMessage(room, now)]);
    }

    /** A `newMessage` event from the server: `handleNewChatMessage` of the
        live room effect runs, with the room it captured. */
    method MessageArrives(msg: ChatMessage)
      requires Valid()
      modifies this
      ensures Valid() && effects == old(effects)
      ensures old(page.status) == Connected && effects.listening.Some? ==>
                page == old(page).(messages := AppendInbound(old(page.messages), msg, effects.listening.value))
      ensures !(old(page.status) == Connected && effects.listening.Some?) ==> page == old(page)
    {
      var fired := socket.Receive(NewMessageEvent);
      if effects.messageCb in fired {
        page := page.(messages := AppendInbound(page.messages, msg, effects.listening.value));
      }
    }

    /** A `sharedAIResponse` event: an answer about the room's repository from
        someone else is merged into the conversations by id, and a notice is
        appended to the log. */
    method SharedAnswerArrives(conv: AIConversation, now: nat)
      requires Valid()
      modifies this
      ensures Valid() && effects == old(effects)
      ensures old(page.status) == Connected && effects.listening.Some? && AcceptsShared(conv, effects.listening.value) ==>
                page == old(page).(conversations := MergeShared(old(page.conversations), conv),
                                   messages := old(page.messages) + [ShareNotice(conv, effects.listening.value, now)])
      ensures !(old(page.status) == Connected && effects.listening.Some? && AcceptsShared(conv, effects.listening.value)) ==>
                page == old(page)
    {
      var fired := socket.Receive(SharedAIEvent);
      if effects.sharedCb in fired {
        var room := effects.listening.value;
        if AcceptsShared(conv, room) {
          page := page.(conversations := MergeShared(page.conversations, conv),
                        messages := page.messages + [ShareNotice(conv, room, now)]);
        }
      }
    }

    /** `if (activeRepoForChat && socket?.connected) leaveRoom(activeRepoForChat)`. */
    method LeaveActiveRoom()
      requires Valid()
      modifies socket
      ensures Valid()
      ensures socket.emitted == old(socket.emitted) + LeaveEmission(page.activeRoom, page.status)
    {
      if Truthy(page.activeRoom) && socket.connected {
        socket.LeaveRoom(page.activeRoom.value);
      }
    }

    /** The part of `handleFetchRepo` before its `await`: the room is left
        when connected, the log and the conversations are cleared, and the
        URL's path is parsed. A URL that names no repository ends the handler
        with the format error; otherwise the owner and the repository to fetch
        are returned. `hostname` and `pathname` are what `new URL(url)` reports. */
    method BeginFetchRepo(url: string, hostname: string, pathname: string) returns (request: Option<RepoRef>)
      requires Valid()
      modifies this, socket
      ensures Valid() && effects == old(effects)
      ensures request == FetchRequest(hostname, pathname)
      ensures request.Some? ==>
                page == old(page).(isLoadingRepo := true, repoError := None, showErrorBanner := false,
                                   currentRepoUrl := Some(url), messages := [], conversations := [])
      ensures request.None? ==>
                page == old(page).(isLoadingRepo := false, repoError := Some(InvalidUrlMessage),
                                   showErrorBanner := false, currentRepoUrl := Some(url), messages := [],
                                   conversations := [], repoFullName := None, activeRoom := None)
      ensures socket.emitted == old(socket.emitted) + LeaveEmission(old(page.activeRoom), old(page.status))
    {
      LeaveActiveRoom();
      request := FetchRequest(hostname, pathname);
      page := page.(isLoadingRepo := true, repoError := None, showErrorBanner := false,
                    currentRepoUrl := Some(url), messages := [], conversations := []);
      if request.None? {
        page := page.(isLoadingRepo := false, repoError := Some(InvalidUrlMessage), repoFullName := None, activeRoom := None);
      }
    }

    /** The part of `handleFetchRepo` after a successful `await`: the
        repository's full name becomes the active room and the welcome message
        goes first in the log. */
    method FetchSucceeded(fullName: string, now: nat)
      requires Valid()
      modifies this
      ensures Valid() && effects == old(effects)
      ensures page == old(page).(repoFullName := Some(fullName), activeRoom := Some(fullName),
                                 messages := WelcomeFirst(old(page.messages), fullName, now),
                                 isLoadingRepo := false)
    {
      page := page.(repoFullName := Some(fullName), activeRoom := Some(fullName),
                    messages := WelcomeFirst(page.messages, fullName, now), isLoadingRepo := false);
    }

    /** The `catch` of `handleFetchRepo`: the error message, or the default
        one, is recorded, and the repository and the room are cleared. */
    method FetchFailed(error: string)
      requires Valid()
      modifies this
      ensures Valid() && effects == old(effects)
      ensures page == old(page).(repoError := Some(MessageOr(error, FetchFailedMessage)),
                                 repoFullName := None, activeRoom := None, isLoadingRepo := false)
    {
      page := page.(repoError := Some(MessageOr(error, FetchFailedMessage)),
                    repoFullName := None, activeRoom := None, isLoadingRepo := false);
    }

    /** `handleSendMessage`: without an active room or a connected status
        the refusal is appended, the banner shown and nothing is sent;
        otherwise the user's own message is appended and sent once. */
    method SendMessage(text: string, now: nat)
      requires Valid()
      modifies this, socket
      ensures Valid() && effects == old(effects)
      ensures var room := old(page.activeRoom);
              Truthy(room) && old(page.status) == Connected ==>
                && page == old(page).(messages := old(page.messages) + [OwnMessage(room.value, text, now)])
                && socket.emitted == old(socket.emitted) +
                     [Emission("chatMessage", MessagePayload(OutgoingMessage(room.value, text, now)))]
      ensures var room := old(page.activeRoom);
              !(Truthy(room) && old(page.status) == Connected) ==>
                && page == old(page).(messages := old(page.messages) + [Refusal(room, now)], showErrorBanner := true)
                && socket.emitted == old(socket.emitted)
    {
      var room := page.activeRoom;
      if !Truthy(room) || page.status != Connected {
        page := page.(messages := page.messages + [Refusal(room, now)], showErrorBanner := true);
        return;
      }
      page := page.(messages := page.messages + [OwnMessage(room.value, text, now)]);
      socket.SendMessage(room.value, text, now);
    }

    /** The part of `handleAskAI` before its `await`: without repository data
        nothing happens; otherwise a loading conversation is put first. */
    method BeginAskAI(question: string, now: nat) returns (ask: Option<PendingAsk>)
      requires Valid()
      modifies this
      ensures Valid() && effects == old(effects)
      ensures old(page.repoFullName).None? ==> ask.None? && page == old(page)
      ensures old(page.repoFullName).Some? ==>
                && ask == Some(PendingAsk(NewConversation(question, now, old(page.repoFullName).value),
                                          old(page.activeRoom), old(page.status)))
                && page == old(page).(conversations := [ask.value.conversation] + old(page.conversations))
    {
      if page.repoFullName.None? {
        return None;
      }
      var c := NewConversation(question, now, page.repoFullName.value);
      page := page.(conversations := [c] + page.conversations);
      ask := Some(PendingAsk(c, page.activeRoom, page.status));
    }

    /** The part of `handleAskAI` after a successful `await`: the
        conversation with the asked id gets the answer, and the answer is
        shared with the room when the captured room and status allowed it
        and the socket is connected. */
    method AnswerArrived(ask: PendingAsk, answer: string)
      requires Valid()
      modifies this, socket
      ensures Valid() && effects == old(effects)
      ensures page == old(page).(conversations := ReplaceById(old(page.conversations), ask.conversation.id,
                                                              Answered(ask.conversation, answer)))
      ensures socket.emitted == old(socket.emitted) +
                if Truthy(ask.room) && ask.status == Connected && old(page.status) == Connected
                then [Emission("aiResponseShared", SharedAIPayload(Answered(ask.conversation, answer), ask.room.value))]
                else []
    {
      var answered := Answered(ask.conversation, answer);
      page := page.(conversations := ReplaceById(page.conversations, ask.conversation.id, answered));
      if Truthy(ask.room) && ask.status == Connected {
        socket.SendAIResponseShared(ask.room.value, answered);
      }
    }

    /** The `catch` of `handleAskAI`: the conversation with the asked id gets
        the error message, or the default one, and an error about an API key
        is raised to the page. */
    method AskFailed(ask: PendingAsk, error: string)
      requires Valid()
      modifies this
      ensures Valid() && effects == old(effects)
      ensures var message := MessageOr(error, AskFailedMessage);
              page == old(page).(conversations := ReplaceById(old(page.conversations), ask.conversation.id,
                                                              Failed(ask.conversation, message)),
                                 repoError := if AskErrorBanner(message).Some? then AskErrorBanner(message) else old(page.repoError))
    {
      var message := MessageOr(error, AskFailedMessage);
      var banner := AskErrorBanner(message);
      page := page.(conversations := ReplaceById(page.conversations, ask.conversation.id, Failed(ask.conversation, message)),
                    repoError := if banner.Some? then banner else page.repoError);
    }

    /** The banner's close button. */
    method DismissBanner()
      requires Valid()
      modifies this
      ensures Valid() && effects == old(effects)
      ensures page == old(page).(showErrorBanner := false)
    {
      page := page.(showErrorBanner := false);
    }
  }

  /** The path of `https://github.com/alice/repo` names a repository to fetch. */
  lemma AliceRepoNamed()
    ensures FetchRequest("github.com", "/alice/repo") == Some(RepoRef(Some("alice"), Some("repo")))
  {
    assert "/alice/repo" == "/" + "alice" + "/" + "repo" + "";
    CanonicalPath("alice", "repo", "");
    assert StripGitSuffix("repo") == "repo";
  }

  /** A page whose socket has connected, before any repository is opened. */
  method ConnectedSession() returns (s: Session)
    ensures s.Valid() && fresh(s) && fresh(s.socket)
    ensures s.page == PageState(Connected, None, [], [], false, None, None, false, None)
    ensures s.effects == EffectState(true, None, None, None, 3, 4, 3)
    ensures s.socket.emitted == []
  {
    s := new Session();
    s.SocketConnected();
  }

  /** A connected page that has fetched `alice/repo`, before the room effect runs. */
  method FetchedSession() returns (s: Session)
    ensures s.Valid() && fresh(s) && fresh(s.socket)
    ensures s.page.status == Connected && s.page.activeRoom == Some("alice/repo")
    ensures s.page.messages == [Welcome("alice/repo", 1)]
    ensures s.effects == EffectState(true, None, None, None, 3, 4, 3)
    ensures s.socket.emitted == []
  {
    s := ConnectedSession();
    AliceRepoNamed();
    var request := s.BeginFetchRepo("https://github.com/alice/repo", "github.com", "/alice/repo");
    assert s.page.messages == [] && s.page.activeRoom == None;
    s.FetchSucceeded("alice/repo", 1);
    assert WelcomeFirst([], "alice/repo", 1) == [Welcome("alice/repo", 1)];
  }

  /** A page that opens `alice/repo` and joins its room: the connection is
      made, the fetch succeeds and the room effect runs. */
  method OpenRoom() returns (s: Session)
    ensures s.Valid() && fresh(s) && fresh(s.socket)
    ensures s.page.status == Connected && s.page.activeRoom == Some("alice/repo") && s.effects.mountRoom == None
    ensures s.page.messages == [JoinMessage("alice/repo", 2)]
    ensures s.socket.emitted == [Emission("joinRoom", RoomPayload("alice/repo"))]
  {
    s := FetchedSession();
    s.RoomEffect(2);
  }

  /** The welcome message `handleFetchRepo` puts first is replaced at once by
      the join message, when the socket is already connected. */
  method WelcomeReplacedScenario() returns (afterFetch: seq<ChatMessage>, afterJoin: seq<ChatMessage>)
    ensures afterFetch == [Welcome("alice/repo", 1)]
    ensures afterJoin == [JoinMessage("alice/repo", 2)]
  {
    var s := FetchedSession();
    afterFetch := s.page.messages;
    s.RoomEffect(2);
    afterJoin := s.page.messages;
  }

  /** Sending "hello" in a joined room: the message is in the log once and
      emitted once, after the join. */
  method SendHelloScenario() returns (log: seq<ChatMessage>, sent: seq<Emission>)
    ensures log == [JoinMessage("alice/repo", 2), OwnMessage("alice/repo", "hello", 3)]
    ensures sent == [Emission("joinRoom", RoomPayload("alice/repo")),
                     Emission("chatMessage", MessagePayload(OutgoingMessage("alice/repo", "hello", 3)))]
  {
    var s := OpenRoom();
    s.SendMessage("hello", 3);
    log, sent := s.page.messages, s.socket.emitted;
  }

  /** Sending before any room is open: the refusal names room "unknown" and
      nothing is emitted. */
  method SendRefusedScenario() returns (log: seq<ChatMessage>, sent: seq<Emission>, banner: bool)
    ensures log == [Refusal(None, 1)] && log[0].roomId == Some("unknown")
    ensures sent == [] && banner
  {
    var s := new Session();
    s.SendMessage("hello", 1);
    log, sent, banner := s.page.messages, s.socket.emitted, s.page.showErrorBanner;
  }

  /** The transport dropping in a joined room: the handler as written tests
      the room captured on mount, which is none, so no notice is written; the
      corrected handler writes one. */
  method DisconnectNoticeScenario() returns (asWritten: seq<ChatMessage>, corrected: seq<ChatMessage>)
    ensures asWritten == [JoinMessage("alice/repo", 2)]
    ensures corrected == [JoinMessage("alice/repo", 2), DisconnectNotice("alice/repo", "transport close", 3)]
  {
    var s := OpenRoom();
    s.TransportDroppedAsWritten("transport close", 3);
    asWritten := s.page.messages;
    var t := OpenRoom();
    t.TransportDropped("transport close", 3);
    corrected := t.page.messages;
  }

  /** Unmounting in a joined room: the cleanup as written tests the room
      captured on mount and never leaves; the corrected cleanup leaves. */
  method LeaveOnUnmountScenario() returns (asWritten: seq<Emission>, corrected: seq<Emission>)
    ensures asWritten == [Emission("joinRoom", RoomPayload("alice/repo"))]
    ensures corrected == [Emission("joinRoom", RoomPayload("alice/repo")), Emission("leaveRoom", RoomPayload("alice/repo"))]
  {
    var s := OpenRoom();
    s.Unmount(s.effects.mountRoom, 3);
    asWritten := s.socket.emitted;
    var t := OpenRoom();
    t.Unmount(t.page.activeRoom, 3);
    corrected := t.socket.emitted;
  }
}
