/** The relay (server.ts): a table of the connections that have joined a
    room, and one handler per event a client may send. Every handler except
    `join_room` and `leave_room` looks the sender up in the table, drops the
    event when there is no entry and otherwise re-broadcasts it to the room the
    entry records.

    socket.io's delivery to the members of a room is not modelled: what the
    relay hands to `io.to(room).emit` is appended to a log of broadcasts. The
    room memberships that `socket.join` and `socket.leave` maintain are kept,
    so that the model can say that a sender with an entry is a member of the
    room its events go to. */
module Relay {
  import opened Wrappers
  import opened Strings
  import opened Types

  /** `{ roomId, isTyping }`, the value of `activeUsers`. */
  datatype UserData = UserData(roomId: string, isTyping: bool)

  datatype AttachmentKind = Image | File | Link

  datatype Attachment = Attachment(kind: AttachmentKind, url: string, name: string, size: Option<nat>)

  /** What `analyzeCode` returns. `complexity` is the number of lines over
      ten, capped at five; each issue and improvement is sent as its sentence. */
  datatype CodeAnalysis = CodeAnalysis(
    suggestions: seq<string>,
    complexity: real,
    issues: seq<Issue>,
    improvements: seq<Improvement>,
    explanation: string)

  /** The body of each broadcast. A code snippet is relayed untouched; its
      record type is not part of this model, so it is carried as text. */
  datatype Payload =
    | Presence(userId: string, roomId: string)
    | Relayed(message: ChatPayload)
    | TypingOf(userId: string)
    | Reaction(messageId: string, reaction: string, userId: string)
    | SnippetAdded(messageId: string, codeSnippet: string, userId: string)
    | Analysis(messageId: string, analysis: CodeAnalysis, userId: string)
    | ThreadUpdated(messageId: string, threadCount: nat)
    | Edited(messageId: string, newText: string, editedAt: nat)
    | AttachmentAdded(messageId: string, attachment: Attachment)
    | Mentioned(messageId: string, mentionedUser: string, mentionedBy: string)

  /** `io.to(room).emit(event, payload)`. */
  datatype Broadcast = Broadcast(room: string, event: string, payload: Payload)

  const UserJoinedEvent: string := "user_joined"
  const UserLeftEvent: string := "user_left"
  const ChatMessageEvent: string := "chat_message"
  const UserTypingEvent: string := "user_typing"
  const UserStoppedTypingEvent: string := "user_stopped_typing"
  const ReactionAddedEvent: string := "reaction_added"
  const ReactionRemovedEvent: string := "reaction_removed"
  const SnippetAddedEvent: string := "code_snippet_added"
  const CodeAnalysisEvent: string := "code_analysis"
  const ThreadUpdatedEvent: string := "thread_updated"
  const MessageEditedEvent: string := "message_edited"
  const AttachmentAddedEvent: string := "attachment_added"
  const UserMentionedEvent: string := "user_mentioned"

  // ---------------------------------------------------------------------
  // analyzeCode
  // ---------------------------------------------------------------------

  /** The rules `analyzeCode` applies. Each carries the fixed sentence the
      relay sends for it. */
  datatype Issue = LongCode | AnyType | DebugLog
  datatype Improvement = UseAsyncAwait | UseLetConst

  function IssueText(i: Issue): string {
    match i
    case LongCode => "Code is quite long. Consider breaking it into smaller functions."
    case AnyType => "Usage of \"any\" type detected. Consider using more specific types."
    case DebugLog => "Debug logs found in code. Consider removing them before production."
  }

  function ImprovementText(i: Improvement): string {
    match i
    case UseAsyncAwait => "Consider using async/await instead of callbacks for better readability."
    case UseLetConst => "Consider using \"let\" or \"const\" instead of \"var\" for better scoping."
  }

  const FixedSuggestions: seq<string> := ["Add error handling", "Include input validation", "Add documentation"]

  /** `Math.min(lines / 10, 5)` for a code of `lines` lines. */
  function Complexity(lines: nat): (c: real)
    ensures c <= 5.0
    ensures c == 5.0 <==> lines >= 50
    ensures lines < 50 ==> c * 10.0 == lines as real
  {
    if lines >= 50 then 5.0 else lines as real / 10.0
  }

  /** The number of tenths in `Complexity(lines)`. */
  function Tenths(lines: nat): nat {
    if lines >= 50 then 50 else lines
  }

  /** `complexity.toFixed(1)`: the complexity is a whole number of tenths, so
      its one-decimal text is exact. */
  function ComplexityText(lines: nat): string {
    var t := Tenths(lines);
    NatToDecimal(t / 10) + "." + [DigitChar(t % 10)]
  }

  /** The list of the rules that hold, in the order given. */
  function Present<T(!new)>(rules: seq<(T, bool)>): (r: seq<T>)
    ensures |r| <= |rules|
    ensures forall x :: x in r <==> exists k :: 0 <= k < |rules| && rules[k] == (x, true)
    ensures |rules| == 1 ==> r == (if rules[0].1 then [rules[0].0] else [])
  {
    if rules == [] then []
    else (if rules[0].1 then [rules[0].0] else []) + Present(rules[1..])
  }

  /** The rules are tried one after the other: the list for `a + b` is the
      list for `a` followed by the list for `b`. */
  lemma {:induction false} PresentAppend<T(!new)>(a: seq<(T, bool)>, b: seq<(T, bool)>)
    ensures Present(a + b) == Present(a) + Present(b)
  {
    if a == [] {
      assert a + b == b;
    } else {
      var h: seq<T> := if a[0].1 then [a[0].0] else [];
      assert (a + b)[0] == a[0];
      assert (a + b)[1..] == a[1..] + b;
      assert Present(a + b) == h + Present(a[1..] + b);
      PresentAppend(a[1..], b);
      assert Present(a) == h + Present(a[1..]);
    }
  }

  /** The list of three rules, in full. */
  lemma PresentThree<T(!new)>(x: (T, bool), y: (T, bool), z: (T, bool))
    ensures Present([x, y, z]) == (if x.1 then [x.0] else []) + (if y.1 then [y.0] else [])
                                  + (if z.1 then [z.0] else [])
  {
    assert [x, y, z] == [x] + [y] + [z];
    PresentAppend([x] + [y], [z]);
    PresentAppend([x], [y]);
  }

  /** The list of two rules, in full. */
  lemma PresentTwo<T(!new)>(x: (T, bool), y: (T, bool))
    ensures Present([x, y]) == (if x.1 then [x.0] else []) + (if y.1 then [y.0] else [])
  {
    assert [x, y] == [x] + [y];
    PresentAppend([x], [y]);
  }

  /** The issues, in the order the rules are tried. */
  function CodeIssues(code: string): (r: seq<Issue>)
    ensures |r| <= 3
    ensures LongCode in r <==> |Split(code, '\n')| > 50
    ensures AnyType in r <==> Contains(code, "any")
    ensures DebugLog in r <==> Contains(code, "console.log")
    ensures r == (if |Split(code, '\n')| > 50 then [LongCode] else [])
                 + (if Contains(code, "any") then [AnyType] else [])
                 + (if Contains(code, "console.log") then [DebugLog] else [])
  {
    var rules := [(LongCode, |Split(code, '\n')| > 50),
                  (AnyType, Contains(code, "any")),
                  (DebugLog, Contains(code, "console.log"))];
    assert rules[0].0 == LongCode && rules[1].0 == AnyType && rules[2].0 == DebugLog;
    PresentThree(rules[0], rules[1], rules[2]);
    Present(rules)
  }

  /** The improvements, in the order the rules are tried. */
  function CodeImprovements(code: string): (r: seq<Improvement>)
    ensures |r| <= 2
    ensures UseAsyncAwait in r <==> Contains(code, "setTimeout") || Contains(code, "setInterval")
    ensures UseLetConst in r <==> Contains(code, "var ")
    ensures r == (if Contains(code, "setTimeout") || Contains(code, "setInterval") then [UseAsyncAwait] else [])
                 + (if Contains(code, "var ") then [UseLetConst] else [])
  {
    var rules := [(UseAsyncAwait, Contains(code, "setTimeout") || Contains(code, "setInterval")),
                  (UseLetConst, Contains(code, "var "))];
    assert rules[0].0 == UseAsyncAwait && rules[1].0 == UseLetConst;
    PresentTwo(rules[0], rules[1]);
    Present(rules)
  }

  /** The closing sentences of the explanation. */
  function Verdict(hasIssues: bool, hasImprovements: bool): string {
    (if hasIssues then "There are some issues that need attention."
     else "The code looks generally well-structured.")
    + " "
    + (if hasImprovements then "Consider implementing the suggested improvements." else "")
  }

  /** `analyzeCode(code, language)`; the language is not consulted. */
  function AnalyzeCode(code: string): (r: CodeAnalysis)
    ensures r.suggestions == FixedSuggestions
    ensures 0.0 < r.complexity <= 5.0
    ensures r.issues == CodeIssues(code) && r.improvements == CodeImprovements(code)
    ensures r.complexity == Complexity(|Split(code, '\n')|)
    ensures r.explanation == "This code has a complexity score of " + ComplexityText(|Split(code, '\n')|) + "/5. "
                             + Verdict(r.issues != [], r.improvements != [])
  {
    var lines := |Split(code, '\n')|;
    var issues := CodeIssues(code);
    var improvements := CodeImprovements(code);
    CodeAnalysis(
      FixedSuggestions,
      Complexity(lines),
      issues,
      improvements,
      "This code has a complexity score of " + ComplexityText(lines) + "/5. "
      + Verdict(|issues| > 0, |improvements| > 0))
  }

  /** The printed score denotes the complexity: its whole part is the digits
      before the point and its tenths the digit after it. */
  lemma ComplexityTextDenotes(lines: nat)
    ensures var s := ComplexityText(lines);
            |s| >= 3 && s[|s| - 2] == '.' && AllDigits(s[..|s| - 2]) && IsDigit(s[|s| - 1])
            && DigitsValue(s[..|s| - 2]) as real + (s[|s| - 1] as int - '0' as int) as real / 10.0
               == Complexity(lines)
  {
    var t := Tenths(lines);
    var s := ComplexityText(lines);
    assert s[..|s| - 2] == NatToDecimal(t / 10);
    DecimalRoundTrip(t / 10);
  }

  /** Fifty lines or more print as the maximum score. */
  lemma LongCodeScoresFive(lines: nat)
    requires lines >= 50
    ensures ComplexityText(lines) == "5.0"
  {
  }

  // ---------------------------------------------------------------------
  // The relay's bookkeeping
  // ---------------------------------------------------------------------

  /** `socket.id + Date.now()`: the sender's id followed by the decimal time. */
  function MessageId(sid: string, now: nat): (r: string)
    ensures |r| > |sid| && r[..|sid|] == sid && AllDigits(r[|sid|..])
  {
    sid + NatToDecimal(now)
  }

  /** Ids stamped for senders whose ids have one length (socket.io's are
      all twenty characters) differ when the senders or the times differ. */
  lemma MessageIdInjective(s1: string, t1: nat, s2: string, t2: nat)
    requires |s1| == |s2|
    requires MessageId(s1, t1) == MessageId(s2, t2)
    ensures s1 == s2 && t1 == t2
  {
    var m := MessageId(s1, t1);
    assert m[..|s1|] == s1 && m[..|s2|] == s2;
    assert m[|s1|..] == NatToDecimal(t1) && m[|s2|..] == NatToDecimal(t2);
    DecimalRoundTrip(t1);
    DecimalRoundTrip(t2);
  }

  /** The relayed copy of a chat message: every key of the sender's payload is
      kept except `id` and `timestamp`, which the relay stamps. */
  function StampMessage(message: ChatPayload, sid: string, now: nat): (r: ChatPayload)
    ensures r.id == Some(MessageId(sid, now)) && r.timestamp == Some(now)
    ensures r.user == message.user && r.text == message.text && r.roomId == message.roomId
    ensures r.isAIMessage == message.isAIMessage && r.isSystemMessage == message.isSystemMessage
    ensures r.isOwnMessage == message.isOwnMessage && r.parentMessageId == message.parentMessageId
  {
    message.(id := Some(MessageId(sid, now)), timestamp := Some(now))
  }

  /** The relayed copy of a reply: a stamped message that names its parent. */
  function StampReply(message: ChatPayload, parentMessageId: string, sid: string, now: nat): (r: ChatPayload)
    ensures r.parentMessageId == Some(parentMessageId)
    ensures r.(parentMessageId := message.parentMessageId) == StampMessage(message, sid, now)
  {
    StampMessage(message, sid, now).(parentMessageId := Some(parentMessageId))
  }

  /** The broadcasts a relayed event produces: one, to the sender's stored
      room, when the sender has an entry, and none otherwise. */
  function ToSenderRoom(users: map<string, UserData>, sid: string, event: string, payload: Payload): (r: seq<Broadcast>)
    ensures |r| <= 1
    ensures r == [] <==> sid !in users
    ensures forall b :: b in r ==> b.room == users[sid].roomId && b.event == event && b.payload == payload
  {
    if sid in users then [Broadcast(users[sid].roomId, event, payload)] else []
  }

  /** `userData.isTyping = typing` on the sender's entry, if it has one. */
  function SetTyping(users: map<string, UserData>, sid: string, typing: bool): (r: map<string, UserData>)
    ensures r.Keys == users.Keys
    ensures sid in users ==> r[sid] == UserData(users[sid].roomId, typing)
    ensures forall u :: u in users && u != sid ==> r[u] == users[u]
  {
    if sid in users then users[sid := users[sid].(isTyping := typing)] else users
  }

  /** The rooms socket.io records for one connection. */
  function RoomsOf(rooms: map<string, set<string>>, sid: string): set<string> {
    if sid in rooms then rooms[sid] else {}
  }

  /** The relay's state: the connections that have joined, the rooms each
      connection is in, and the broadcasts handed to socket.io so far. */
  class RelayServer {
    var activeUsers: map<string, UserData>
    var rooms: map<string, set<string>>
    var emitted: seq<Broadcast>

    /** A connection with an entry is a member of the room the entry records,
        so its relayed events reach a room it belongs to. */
    predicate Valid()
      reads this
    {
      forall sid :: sid in activeUsers ==> activeUsers[sid].roomId in RoomsOf(rooms, sid)
    }

    constructor ()
      ensures Valid()
      ensures activeUsers == map[] && rooms == map[] && emitted == []
    {
      activeUsers := map[];
      rooms := map[];
      emitted := [];
    }

    /** `join_room`: join the room, overwrite the entry with a not-typing
        entry for that room, and announce the arrival to the room. */
    method OnJoinRoom(sid: string, roomId: string)
      requires Valid()
      modifies this
      ensures Valid()
      ensures activeUsers == old(activeUsers)[sid := UserData(roomId, false)]
      ensures rooms == old(rooms)[sid := RoomsOf(old(rooms), sid) + {roomId}]
      ensures emitted == old(emitted) + [Broadcast(roomId, UserJoinedEvent, Presence(sid, roomId))]
    {
      rooms := rooms[sid := RoomsOf(rooms, sid) + {roomId}];
      activeUsers := activeUsers[sid := UserData(roomId, false)];
      emitted := emitted + [Broadcast(roomId, UserJoinedEvent, Presence(sid, roomId))];
    }

    /** `leave_room`: leave the given room, delete the entry whatever room it
        records, and announce the departure to the given room. */
    method OnLeaveRoom(sid: string, roomId: string)
      requires Valid()
      modifies this
      ensures Valid()
      ensures activeUsers == old(activeUsers) - {sid}
      ensures rooms == old(rooms)[sid := RoomsOf(old(rooms), sid) - {roomId}]
      ensures emitted == old(emitted) + [Broadcast(roomId, UserLeftEvent, Presence(sid, roomId))]
    {
      rooms := rooms[sid := RoomsOf(rooms, sid) - {roomId}];
      activeUsers := activeUsers - {sid};
      emitted := emitted + [Broadcast(roomId, UserLeftEvent, Presence(sid, roomId))];
    }

    /** `chat_message`: the stamped copy goes to the sender's stored room. */
    method OnChatMessage(sid: string, message: ChatPayload, now: nat)
      requires Valid()
      modifies this
      ensures Valid()
      ensures activeUsers == old(activeUsers) && rooms == old(rooms)
      ensures emitted == old(emitted)
                         + ToSenderRoom(old(activeUsers), sid, ChatMessageEvent, Relayed(StampMessage(message, sid, now)))
    {
      emitted := emitted + ToSenderRoom(activeUsers, sid, ChatMessageEvent, Relayed(StampMessage(message, sid, now)));
    }

    /** `typing_start`: mark the entry as typing and tell the room. */
    method OnTypingStart(sid: string)
      requires Valid()
      modifies this
      ensures Valid()
      ensures activeUsers == SetTyping(old(activeUsers), sid, true) && rooms == old(rooms)
      ensures emitted == old(emitted) + ToSenderRoom(old(activeUsers), sid, UserTypingEvent, TypingOf(sid))
    {
      emitted := emitted + ToSenderRoom(activeUsers, sid, UserTypingEvent, TypingOf(sid));
      activeUsers := SetTyping(activeUsers, sid, true);
    }

    /** `typing_stop`: mark the entry as not typing and tell the room. */
    method OnTypingStop(sid: string)
      requires Valid()
      modifies this
      ensures Valid()
      ensures activeUsers == SetTyping(old(activeUsers), sid, false) && rooms == old(rooms)
      ensures emitted == old(emitted) + ToSenderRoom(old(activeUsers), sid, UserStoppedTypingEvent, TypingOf(sid))
    {
      emitted := emitted + ToSenderRoom(activeUsers, sid, UserStoppedTypingEvent, TypingOf(sid));
      activeUsers := SetTyping(activeUsers, sid, false);
    }

    /** `add_reaction`. */
    method OnAddReaction(sid: string, messageId: string, reaction: string)
      requires Valid()
      modifies this
      ensures Valid()
      ensures activeUsers == old(activeUsers) && rooms == old(rooms)
      ensures emitted == old(emitted)
                         + ToSenderRoom(old(activeUsers), sid, ReactionAddedEvent, Reaction(messageId, reaction, sid))
    {
      emitted := emitted + ToSenderRoom(activeUsers, sid, ReactionAddedEvent, Reaction(messageId, reaction, sid));
    }

    /** `remove_reaction`. */
    method OnRemoveReaction(sid: string, messageId: string, reaction: string)
      requires Valid()
      modifies this
      ensures Valid()
      ensures activeUsers == old(activeUsers) && rooms == old(rooms)
      ensures emitted == old(emitted)
                         + ToSenderRoom(old(activeUsers), sid, ReactionRemovedEvent, Reaction(messageId, reaction, sid))
    {
      emitted := emitted + ToSenderRoom(activeUsers, sid, ReactionRemovedEvent, Reaction(messageId, reaction, sid));
    }

    /** `add_code_snippet`: the snippet is passed on untouched. */
    method OnAddCodeSnippet(sid: string, messageId: string, codeSnippet: string)
      requires Valid()
      modifies this
      ensures Valid()
      ensures activeUsers == old(activeUsers) && rooms == old(rooms)
      ensures emitted == old(emitted)
                         + ToSenderRoom(old(activeUsers), sid, SnippetAddedEvent, SnippetAdded(messageId, codeSnippet, sid))
    {
      emitted := emitted + ToSenderRoom(activeUsers, sid, SnippetAddedEvent, SnippetAdded(messageId, codeSnippet, sid));
    }

    /** `analyze_code`: the room receives `analyzeCode` of the code. */
    method OnAnalyzeCode(sid: string, messageId: string, code: string)
      requires Valid()
      modifies this
      ensures Valid()
      ensures activeUsers == old(activeUsers) && rooms == old(rooms)
      ensures emitted == old(emitted)
                         + ToSenderRoom(old(activeUsers), sid, CodeAnalysisEvent, Analysis(messageId, AnalyzeCode(code), sid))
    {
      emitted := emitted + ToSenderRoom(activeUsers, sid, CodeAnalysisEvent, Analysis(messageId, AnalyzeCode(code), sid));
    }

    /** `reply_to_message`: the stamped reply, then a thread update whose
        count is always one. */
    method OnReplyToMessage(sid: string, parentMessageId: string, message: ChatPayload, now: nat)
      requires Valid()
      modifies this
      ensures Valid()
      ensures activeUsers == old(activeUsers) && rooms == old(rooms)
      ensures emitted == old(emitted)
                         + ToSenderRoom(old(activeUsers), sid, ChatMessageEvent,
                                        Relayed(StampReply(message, parentMessageId, sid, now)))
                         + ToSenderRoom(old(activeUsers), sid, ThreadUpdatedEvent, ThreadUpdated(parentMessageId, 1))
    {
      emitted := emitted + ToSenderRoom(activeUsers, sid, ChatMessageEvent, Relayed(StampReply(message, parentMessageId, sid, now)));
      emitted := emitted + ToSenderRoom(activeUsers, sid, ThreadUpdatedEvent, ThreadUpdated(parentMessageId, 1));
    }

    /** `edit_message`: the new text with the time of the edit. */
    method OnEditMessage(sid: string, messageId: string, newText: string, now: nat)
      requires Valid()
      modifies this
      ensures Valid()
      ensures activeUsers == old(activeUsers) && rooms == old(rooms)
      ensures emitted == old(emitted)
                         + ToSenderRoom(old(activeUsers), sid, MessageEditedEvent, Edited(messageId, newText, now))
    {
      emitted := emitted + ToSenderRoom(activeUsers, sid, MessageEditedEvent, Edited(messageId, newText, now));
    }

    /** `upload_attachment`: the attachment is passed on untouched. */
    method OnUploadAttachment(sid: string, messageId: string, attachment: Attachment)
      requires Valid()
      modifies this
      ensures Valid()
      ensures activeUsers == old(activeUsers) && rooms == old(rooms)
      ensures emitted == old(emitted)
                         + ToSenderRoom(old(activeUsers), sid, AttachmentAddedEvent, AttachmentAdded(messageId, attachment))
    {
      emitted := emitted + ToSenderRoom(activeUsers, sid, AttachmentAddedEvent, AttachmentAdded(messageId, attachment));
    }

    /** `mention_user`. */
    method OnMentionUser(sid: string, messageId: string, mentionedUser: string)
      requires Valid()
      modifies this
      ensures Valid()
      ensures activeUsers == old(activeUsers) && rooms == old(rooms)
      ensures emitted == old(emitted)
                         + ToSenderRoom(old(activeUsers), sid, UserMentionedEvent, Mentioned(messageId, mentionedUser, sid))
    {
      emitted := emitted + ToSenderRoom(activeUsers, sid, UserMentionedEvent, Mentioned(messageId, mentionedUser, sid));
    }

    /** `disconnect`: announce the departure to the stored room and delete the
        entry, if there is one. socket.io takes the connection out of all its
        rooms. */
    method OnDisconnect(sid: string)
      requires Valid()
      modifies this
      ensures Valid()
      ensures activeUsers == old(activeUsers) - {sid}
      ensures rooms == old(rooms) - {sid}
      ensures emitted == old(emitted)
                         + (if sid in old(activeUsers)
                            then [Broadcast(old(activeUsers)[sid].roomId, UserLeftEvent,
                                            Presence(sid, old(activeUsers)[sid].roomId))]
                            else [])
    {
      if sid in activeUsers {
        var room := activeUsers[sid].roomId;
        emitted := emitted + [Broadcast(room, UserLeftEvent, Presence(sid, room))];
        activeUsers := activeUsers - {sid};
      }
      rooms := rooms - {sid};
    }
  }

  // ---------------------------------------------------------------------
  // Runs of the relay
  // ---------------------------------------------------------------------

  /** Joining a second room overwrites the entry: messages then go to the
      second room only, while the connection stays a member of both. */
  method RejoinScenario(sid: string, first: string, second: string, message: ChatPayload, now: nat)
    returns (entries: map<string, UserData>, log: seq<Broadcast>, memberOf: set<string>)
    ensures entries == map[sid := UserData(second, false)]
    ensures memberOf == {first, second}
    ensures log == [Broadcast(first, UserJoinedEvent, Presence(sid, first)),
                    Broadcast(second, UserJoinedEvent, Presence(sid, second)),
                    Broadcast(second, ChatMessageEvent, Relayed(StampMessage(message, sid, now)))]
  {
    var server := new RelayServer();
    server.OnJoinRoom(sid, first);
    server.OnJoinRoom(sid, second);
    server.OnChatMessage(sid, message, now);
    entries, log, memberOf := server.activeUsers, server.emitted, RoomsOf(server.rooms, sid);
  }

  /** Leaving twice is harmless: no entry remains and each leave is announced. */
  method LeaveTwiceScenario(sid: string, room: string, other: string)
    returns (entries: map<string, UserData>, log: seq<Broadcast>)
    ensures sid !in entries && entries == map[]
    ensures log == [Broadcast(room, UserJoinedEvent, Presence(sid, room)),
                    Broadcast(other, UserLeftEvent, Presence(sid, other)),
                    Broadcast(other, UserLeftEvent, Presence(sid, other))]
  {
    var server := new RelayServer();
    server.OnJoinRoom(sid, room);
    server.OnLeaveRoom(sid, other);
    server.OnLeaveRoom(sid, other);
    entries, log := server.activeUsers, server.emitted;
  }

  /** A sender that never joined is ignored by every relayed event. */
  method UnjoinedSenderScenario(sid: string, message: ChatPayload, now: nat, messageId: string, text: string)
    returns (entries: map<string, UserData>, log: seq<Broadcast>)
    ensures entries == map[] && log == []
  {
    var server := new RelayServer();
    server.OnChatMessage(sid, message, now);
    server.OnTypingStart(sid);
    server.OnAddReaction(sid, messageId, text);
    server.OnReplyToMessage(sid, messageId, message, now);
    server.OnEditMessage(sid, messageId, text, now);
    server.OnAnalyzeCode(sid, messageId, text);
    server.OnDisconnect(sid);
    entries, log := server.activeUsers, server.emitted;
  }

  /** A typing member that disconnects is announced as gone from its room
      once; a second disconnect announces nothing. */
  method DisconnectScenario(sid: string, room: string)
    returns (entries: map<string, UserData>, log: seq<Broadcast>)
    ensures entries == map[]
    ensures log == [Broadcast(room, UserJoinedEvent, Presence(sid, room)),
                    Broadcast(room, UserTypingEvent, TypingOf(sid)),
                    Broadcast(room, UserLeftEvent, Presence(sid, room))]
  {
    var server := new RelayServer();
    server.OnJoinRoom(sid, room);
    server.OnTypingStart(sid);
    assert server.activeUsers == map[sid := UserData(room, true)];
    server.OnDisconnect(sid);
    server.OnDisconnect(sid);
    entries, log := server.activeUsers, server.emitted;
  }

  /** Two replies to one message each announce a thread count of one. */
  method ThreadCountScenario(sid: string, room: string, parent: string, first: ChatPayload, second: ChatPayload, t1: nat, t2: nat)
    returns (log: seq<Broadcast>)
    ensures |log| == 5
    ensures log[2] == Broadcast(room, ThreadUpdatedEvent, ThreadUpdated(parent, 1))
    ensures log[4] == Broadcast(room, ThreadUpdatedEvent, ThreadUpdated(parent, 1))
    ensures log[3].payload.Relayed? && log[3].payload.message.parentMessageId == Some(parent)
  {
    var server := new RelayServer();
    server.OnJoinRoom(sid, room);
    server.OnReplyToMessage(sid, parent, first, t1);
    server.OnReplyToMessage(sid, parent, second, t2);
    log := server.emitted;
  }
}
