/** The pure updates App.tsx applies to its chat log and to its list of AI
    conversations (the `setChatMessages` / `setAiConversations` updaters),
    and the system messages it writes. */
module ChatLog {
  import opened Wrappers
  import opened Strings
  import opened Types

  // ---------------------------------------------------------------- chat log

  /** The test of `handleNewChatMessage`: the message is for the active room
      and was not written by this user. */
  predicate AcceptsInbound(msg: ChatMessage, room: string) {
    msg.roomId == Some(room) && msg.user != MockUserId
  }

  /** `handleNewChatMessage`: a message from someone else for the active room
      is appended, marked as not one's own; anything else leaves the log alone. */
  function AppendInbound(log: seq<ChatMessage>, msg: ChatMessage, room: string): (r: seq<ChatMessage>)
    ensures |r| == |log| + 1 <==> AcceptsInbound(msg, room)
    ensures |r| == |log| <==> !AcceptsInbound(msg, room)
    ensures r[..|log|] == log
    ensures |r| > |log| ==> r[|log|] == msg.(isOwnMessage := Some(false))
  {
    if AcceptsInbound(msg, room) then log + [msg.(isOwnMessage := Some(false))] else log
  }

  /** Several inbound messages, handled in order of arrival. */
  function AppendAllInbound(log: seq<ChatMessage>, msgs: seq<ChatMessage>, room: string): seq<ChatMessage>
    decreases |msgs|
  {
    if msgs == [] then log else AppendAllInbound(AppendInbound(log, msgs[0], room), msgs[1..], room)
  }

  predicate IsOwn(m: ChatMessage) {
    m.isOwnMessage == Some(true)
  }

  /** The number of messages in the log marked as the user's own. */
  function OwnCount(log: seq<ChatMessage>): nat {
    if log == [] then 0 else OwnCount(log[..|log| - 1]) + (if IsOwn(log[|log| - 1]) then 1 else 0)
  }

  lemma OwnCountAppend(log: seq<ChatMessage>, m: ChatMessage)
    ensures OwnCount(log + [m]) == OwnCount(log) + (if IsOwn(m) then 1 else 0)
  {
    assert (log + [m])[..|log|] == log;
  }

  /** No inbound message ever adds a message marked as one's own. */
  lemma InboundNeverOwn(log: seq<ChatMessage>, msg: ChatMessage, room: string)
    ensures OwnCount(AppendInbound(log, msg, room)) == OwnCount(log)
  {
    if AcceptsInbound(msg, room) {
      OwnCountAppend(log, msg.(isOwnMessage := Some(false)));
    }
  }

  /** The message `handleSendMessage` appends before emitting. */
  function OwnMessage(room: string, text: string, now: nat): (m: ChatMessage)
    ensures IsOwn(m) && m.user == MockUserId && m.text == text && m.roomId == Some(room) && m.timestamp == now
  {
    ChatMessage("local-" + NatToDecimal(now), MockUserId, text, now, None, None, Some(true), Some(room))
  }

  /** A message sent by the user appears in the log exactly once more than
      before, whatever arrives from the server afterwards. */
  lemma {:induction false} SentMessageCountedOnce(log: seq<ChatMessage>, room: string, text: string, now: nat,
                                                  inbound: seq<ChatMessage>)
    ensures OwnCount(AppendAllInbound(log + [OwnMessage(room, text, now)], inbound, room)) == OwnCount(log) + 1
  {
    OwnCountAppend(log, OwnMessage(room, text, now));
    InboundKeepsOwnCount(log + [OwnMessage(room, text, now)], inbound, room);
  }

  lemma {:induction false} InboundKeepsOwnCount(log: seq<ChatMessage>, inbound: seq<ChatMessage>, room: string)
    ensures OwnCount(AppendAllInbound(log, inbound, room)) == OwnCount(log)
    decreases |inbound|
  {
    if inbound != [] {
      InboundNeverOwn(log, inbound[0], room);
      InboundKeepsOwnCount(AppendInbound(log, inbound[0], room), inbound[1..], room);
    }
  }

  /** The system message `handleSendMessage` appends when it cannot send: its
      room is the active room, or "unknown" when there is none. */
  function Refusal(active: Option<string>, now: nat): (m: ChatMessage)
    ensures m.user == MockBotId && m.isSystemMessage == Some(true) && m.isOwnMessage.None?
    ensures m.roomId == Some(if Truthy(active) then active.value else "unknown")
  {
    SystemMessage("err-" + NatToDecimal(now), "Cannot send message. Chat not connected.", now,
                  if Truthy(active) then active.value else "unknown")
  }

  /** The message the room effect resets the log to. */
  function JoinMessage(room: string, now: nat): (m: ChatMessage)
    ensures m.roomId == Some(room) && m.isSystemMessage == Some(true) && m.user == MockBotId
  {
    SystemMessage("sys-join-" + room + "-" + NatToDecimal(now), "You've joined the chat for " + room + ".", now, room)
  }

  function DisconnectNotice(room: string, reason: string, now: nat): (m: ChatMessage)
    ensures m.roomId == Some(room) && m.isSystemMessage == Some(true) && m.user == MockBotId
    ensures m.id == "sys-disconnect-" + NatToDecimal(now)
  {
    SystemMessage("sys-disconnect-" + NatToDecimal(now),
                  "Chat disconnected: " + reason + ". Attempting to reconnect...", now, room)
  }

  function ConnectErrorNotice(room: string, message: string, now: nat): (m: ChatMessage)
    ensures m.roomId == Some(room) && m.isSystemMessage == Some(true) && m.user == MockBotId
    ensures m.id == "sys-error-" + NatToDecimal(now)
  {
    SystemMessage("sys-error-" + NatToDecimal(now),
                  "Chat connection error: " + message + ". Check console and banner for details.", now, room)
  }

  /** The analysis-complete message `handleFetchRepo` puts first. */
  function Welcome(fullName: string, now: nat): (m: ChatMessage)
    ensures m.roomId == Some(fullName) && m.isAIMessage == Some(true) && m.user == MockAiName
  {
    ChatMessage("sys-welcome-" + fullName + "-" + NatToDecimal(now), MockAiName,
                "Analysis complete for " + fullName + ". Ask me questions or chat with others.",
                now, Some(true), None, None, Some(fullName))
  }

  /** `prev.filter(m => m.roomId !== room)`. */
  function WithoutRoom(log: seq<ChatMessage>, room: string): (r: seq<ChatMessage>)
    ensures |r| <= |log|
    ensures |log| == 1 ==> r == (if log[0].roomId != Some(room) then log else [])
  {
    if log == [] then []
    else (if log[0].roomId != Some(room) then [log[0]] else []) + WithoutRoom(log[1..], room)
  }

  /** The filter keeps exactly the messages of other rooms. */
  lemma {:induction false} WithoutRoomKeeps(log: seq<ChatMessage>, room: string)
    ensures forall m :: m in WithoutRoom(log, room) ==> m in log && m.roomId != Some(room)
    ensures forall m :: m in log && m.roomId != Some(room) ==> m in WithoutRoom(log, room)
  {
    if log != [] {
      WithoutRoomKeeps(log[1..], room);
      assert forall m :: m in log ==> m == log[0] || m in log[1..];
    }
  }

  /** The filter goes message by message: with the one-message case above,
      this fixes the order and the multiplicity of the messages it keeps. */
  lemma {:induction false} WithoutRoomAppend(a: seq<ChatMessage>, b: seq<ChatMessage>, room: string)
    ensures WithoutRoom(a + b, room) == WithoutRoom(a, room) + WithoutRoom(b, room)
  {
    if a == [] {
      assert a + b == b;
    } else {
      var h := if a[0].roomId != Some(room) then [a[0]] else [];
      assert (a + b)[0] == a[0];
      assert (a + b)[1..] == a[1..] + b;
      assert WithoutRoom(a + b, room) == h + WithoutRoom(a[1..] + b, room);
      WithoutRoomAppend(a[1..], b, room);
      assert WithoutRoom(a, room) == h + WithoutRoom(a[1..], room);
    }
  }

  /** The log after a successful repository fetch: the welcome message first,
      then every earlier message of other rooms, and none of this room. */
  function WelcomeFirst(log: seq<ChatMessage>, fullName: string, now: nat): (r: seq<ChatMessage>)
    ensures |r| >= 1 && r[0] == Welcome(fullName, now)
    ensures forall i :: 1 <= i < |r| ==> r[i].roomId != Some(fullName) && r[i] in log
    ensures forall m :: m in log && m.roomId != Some(fullName) ==> m in r
  {
    WithoutRoomKeeps(log, fullName);
    [Welcome(fullName, now)] + WithoutRoom(log, fullName)
  }

  /** The chat notice `handleSharedAIResponse` appends for a shared answer. */
  function ShareNotice(conv: AIConversation, room: string, now: nat): (m: ChatMessage)
    ensures m.roomId == Some(room) && m.isAIMessage == Some(true) && m.user == MockAiName
    ensures m.id == "ai-share-" + conv.id
  {
    var who := if Truthy(conv.user) then conv.user.value else "A user";
    ChatMessage("ai-share-" + conv.id, MockAiName,
                who + " asked the AI about \"" + Substring(conv.question, 0, 50) + "...\". (View in AI Q&A tab)",
                now, Some(true), None, None, Some(room))
  }

  // -------------------------------------------------------- AI conversations

  /** The conversation `handleAskAI` prepends while the answer is pending. */
  function NewConversation(question: string, now: nat, repoFullName: string): (c: AIConversation)
    ensures c.isLoading && c.answer.None? && c.error.None?
    ensures c.id == NatToDecimal(now) && c.question == question && c.user == Some(MockUserId)
  {
    AIConversation(NatToDecimal(now), question, None, now, true, None, repoFullName, Some(MockUserId))
  }

  function Answered(conv: AIConversation, answer: string): (c: AIConversation)
    ensures c.answer == Some(answer) && !c.isLoading && c.id == conv.id && c.error == conv.error
  {
    conv.(answer := Some(answer), isLoading := false)
  }

  function Failed(conv: AIConversation, message: string): (c: AIConversation)
    ensures c.answer.None? && c.error == Some(message) && !c.isLoading && c.id == conv.id
  {
    conv.(answer := None, error := Some(message), isLoading := false)
  }

  /** `prev.map(conv => conv.id === id ? c : conv)`. */
  function ReplaceById(convs: seq<AIConversation>, id: string, c: AIConversation): (r: seq<AIConversation>)
    ensures |r| == |convs|
    ensures forall i :: 0 <= i < |r| && convs[i].id != id ==> r[i] == convs[i]
    ensures forall i :: 0 <= i < |r| && convs[i].id == id ==> r[i] == c
  {
    seq(|convs|, i requires 0 <= i < |convs| => if convs[i].id == id then c else convs[i])
  }

  /** `{...existing, ...incoming, isLoading: false}`: the incoming fields win,
      and an optional field the incoming copy lacks keeps the existing value. */
  function Overlay(existing: AIConversation, incoming: AIConversation): AIConversation {
    incoming.(isLoading := false,
              error := if incoming.error.Some? then incoming.error else existing.error,
              user := if incoming.user.Some? then incoming.user else existing.user)
  }

  predicate HasId(convs: seq<AIConversation>, id: string) {
    exists i :: 0 <= i < |convs| && convs[i].id == id
  }

  /** The `setAiConversations` updater of `handleSharedAIResponse`: a shared
      conversation already listed replaces every entry with its id in place;
      an unknown one is put first. Either way it is no longer loading. */
  function MergeShared(convs: seq<AIConversation>, conv: AIConversation): (r: seq<AIConversation>)
    ensures HasId(convs, conv.id) ==> |r| == |convs|
    ensures HasId(convs, conv.id) ==> forall i :: 0 <= i < |r| && convs[i].id != conv.id ==> r[i] == convs[i]
    ensures HasId(convs, conv.id) ==> forall i :: 0 <= i < |r| && convs[i].id == conv.id ==> r[i] == Overlay(convs[i], conv)
    ensures !HasId(convs, conv.id) ==> r == [conv.(isLoading := false)] + convs
    ensures forall i :: 0 <= i < |r| && r[i].id == conv.id ==> !r[i].isLoading
  {
    if HasId(convs, conv.id) then
      seq(|convs|, i requires 0 <= i < |convs| => if convs[i].id == conv.id then Overlay(convs[i], conv) else convs[i])
    else
      [conv.(isLoading := false)] + convs
  }

  /** Merging the same shared conversation twice is the same as merging it once. */
  lemma MergeSharedIdempotent(convs: seq<AIConversation>, conv: AIConversation)
    ensures MergeShared(MergeShared(convs, conv), conv) == MergeShared(convs, conv)
  {
    var once := MergeShared(convs, conv);
    assert HasId(once, conv.id) by {
      if HasId(convs, conv.id) {
        var i :| 0 <= i < |convs| && convs[i].id == conv.id;
        assert once[i].id == conv.id;
      } else {
        assert once[0].id == conv.id;
      }
    }
  }

  /** Asking and then getting an answer: the new conversation is first, holds
      the answer and is no longer loading; every conversation with another id
      is unchanged and in place. */
  lemma AskThenAnswer(convs: seq<AIConversation>, question: string, now: nat, repo: string, answer: string)
    ensures var c := NewConversation(question, now, repo);
            var r := ReplaceById([c] + convs, c.id, Answered(c, answer));
            && |r| == |convs| + 1
            && r[0].answer == Some(answer) && !r[0].isLoading && r[0].question == question
            && forall i :: 0 <= i < |convs| && convs[i].id != c.id ==> r[i + 1] == convs[i]
  {
    var c := NewConversation(question, now, repo);
    ReplaceAfterPrepend(convs, c, Answered(c, answer));
  }

  /** Prepending `c` and then replacing its id by `d` puts `d` first and keeps
      every conversation with another id. */
  lemma ReplaceAfterPrepend(convs: seq<AIConversation>, c: AIConversation, d: AIConversation)
    ensures var r := ReplaceById([c] + convs, c.id, d);
            && |r| == |convs| + 1 && r[0] == d
            && forall i :: 0 <= i < |convs| && convs[i].id != c.id ==> r[i + 1] == convs[i]
  {
    var s := [c] + convs;
    assert forall i :: 0 <= i < |convs| ==> s[i + 1] == convs[i];
  }

  /** Asking and then failing: the answer stays `null`, the error is recorded
      and the conversation is no longer loading. */
  lemma AskThenFail(convs: seq<AIConversation>, question: string, now: nat, repo: string, message: string)
    ensures var c := NewConversation(question, now, repo);
            var r := ReplaceById([c] + convs, c.id, Failed(c, message));
            && |r| == |convs| + 1
            && r[0].answer.None? && r[0].error == Some(message) && !r[0].isLoading
            && forall i :: 0 <= i < |convs| && convs[i].id != c.id ==> r[i + 1] == convs[i]
  {
    var c := NewConversation(question, now, repo);
    ReplaceAfterPrepend(convs, c, Failed(c, message));
  }
}
