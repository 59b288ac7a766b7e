# Repository chat and analysis: a Dafny model

This project models the core of a web front end that shows a public GitHub repository (files, commits, issues, pull requests) and adds two features on top:

- a real-time chat room for each repository, relayed by a small socket.io server;
- questions about the repository, forwarded to a language model.

The model covers the following, one Dafny module for each:

- **`App`** (`app_session.dfy`): the chat session of the page component (`App.tsx`).
  - Its `useState` values are the `page` field of class `Session`.
  - Its effect bookkeeping (mounted, the room the listeners were set up for, the listener identities) is the `effects` field.
  - Every handler is a method. An asynchronous handler is split at its `await` into a `Begin…` method and one method per outcome.
  - `Valid()` states how the session is wired to the socket wrapper: the three connection listeners, the room listeners, and the status against the socket's `connected` flag.
- **`SocketService`** (`socket_service.dfy`): the module-level socket wrapper (`services/socketService.ts`).
  - Class `SocketClient` holds what the wrapper reads of the library's socket: its existence, `active`, `connected`, the listener table and the log of emitted events.
  - Emits happen only while connected.
  - A listener is de-duplicated on subscribe. `off(event, fn)` removes the first occurrence of `fn`.
- **`Relay`** (`relay_server.dfy`): the relay server (`server.ts`).
  - Class `RelayServer` holds the `activeUsers` map, each connection's room membership and the log of broadcasts.
  - `analyzeCode` is written as pure functions.
- **`ChatLog`** (`chat_log.dfy`): the pure updates `App.tsx` applies to the message log and to the list of AI conversations.
- **`RepoUrl`** (`repo_url.dfy`): `parseGitHubUrl` and the validation at the head of `handleFetchRepo`.
- **`FileTree`** (`file_tree.dfy`): `buildFileTree` and `findNodeByPath` from `services/githubService.ts`.
  - `buildFileTree` is a method with loops over a value tree.
  - Each loop is proved equal to a recursive specification. Lemmas prove that every listed item gets a node and where each node is placed.
- **`GithubMappers`** (`github_mappers.dfy`): the field mappings and the error messages of `fetchRepoData`.
- **`AnalysisParsers`**, **`MetricsParser`**, **`AnalysisReport`** and **`TextMatch`**: the line-by-line parsers of `services/codeAnalysisService.ts` and the assembly of the report.
  - Each parser is a loop proved equal to a fold over the lines.
  - `TextMatch` spells out the regular expressions the parsers use.
- **`GithubInput`**, **`IssueListItem`** and **`CommitListItem`**: the decisions made by the three components: URL validation, state colour and label contrast, commit title, body and ellipsis.

`Strings`, `Types` and `Wrappers` hold the JavaScript string operations the code relies on (`split`, `indexOf`, `includes`, `trim`, `toLowerCase`, decimal digits), the shared record types, and `Option`/`Result`.

## Model

| member | source | states |
|---|---|---|
| App.MessageOr | App.tsx:186-187 | `error.message \|\| fallback`: the message when it is non-empty, the fallback otherwise |
| App.AskErrorBanner | App.tsx:287-288 | a banner is set exactly when the error mentions "api key" in any case, with the fixed wording around the message |
| App.LeaveEmission | App.tsx:158-160 | the room is left (one `leaveRoom` for the active room) exactly when a room is active and the socket is connected |
| App.Session.constructor | App.tsx:18-28 | initial page state (no repo, empty log and conversations, no banner) and a freshly created, already wired socket wrapper that has emitted nothing |
| App.Session.Mount | App.tsx:32-82 | the connection effect: status Connecting, banner hidden, the mount-time room captured, the socket created once and `connect()` called once |
| App.Session.SocketConnected | App.tsx:36-40 | `handleConnect`: status Connected and banner hidden, only when a handshake actually fires the connect listener; otherwise nothing changes |
| App.Session.OnDisconnect | App.tsx:43-57 | `handleDisconnect` for a given captured room: when the socket was connected, status Disconnected and a disconnect notice appended exactly when that room is set; otherwise nothing changes |
| App.Session.TransportDropped | App.tsx:43-57 | the intended disconnect handling: the notice is for the room active at the time of the drop |
| App.Session.TransportDroppedAsWritten | App.tsx:43-57 | the handler as registered once on mount: the notice uses the room captured at mount |
| App.Session.OnConnectError | App.tsx:59-76 | `handleConnectError` for a captured room: status Error, banner shown, an error notice appended exactly when that room is set |
| App.Session.ConnectFailed | App.tsx:59-76 | the intended error handling, with the room active at the time of the failure |
| App.Session.ConnectFailedAsWritten | App.tsx:59-76 | the error handler as registered on mount, with the mount-time room |
| App.Session.StopListening | App.tsx:145-148 | room-effect cleanup: both room listeners are removed and nothing else changes |
| App.Session.Unmount | App.tsx:84-90 | connection-effect cleanup: `leaveRoom` for the given room when connected, then disconnect; a connected socket runs `handleDisconnect` with the mount-time room and reason "io client disconnect"; status Idle, listeners removed |
| App.Session.RoomEffect | App.tsx:95-150 | the room effect reruns only when status or room changed; when Connected with a room it joins, subscribes both listeners once and replaces the log with the join message, otherwise it only cleans up |
| App.Session.JoinAndListen | App.tsx:96-142 | one `joinRoom` for the room, the two listeners registered exactly once each, the log replaced by the join message |
| App.Session.MessageArrives | App.tsx:109-117 | while connected and listening, an inbound message is appended, marked not own, exactly when it is for the listened room and from another user; the rest of the page is unchanged |
| App.Session.SharedAnswerArrives | App.tsx:119-136 | a shared answer about the room's repository from another user is merged into the conversations and announced in the log; anything else changes nothing |
| App.Session.LeaveActiveRoom | App.tsx:158-160 | emits exactly `LeaveEmission(activeRoom, status)` |
| App.Session.BeginFetchRepo | App.tsx:153-170 | resets loading, error and banner; leaves the room; clears the log and conversations; a URL naming no repository ends with the format error and no active repo |
| App.Session.FetchSucceeded | App.tsx:171-192 | the repository becomes the active room; the log is the welcome followed by the earlier messages of other rooms; loading ends |
| App.Session.FetchFailed | App.tsx:186-192 | error message or the fallback, no repository and no active room, loading ends |
| App.Session.SendMessage | App.tsx:216-237 | connected with a room: own message appended and one `chatMessage` emitted; otherwise a refusal appended, banner shown, nothing emitted |
| App.Session.BeginAskAI | App.tsx:239-252 | without repository data nothing happens; otherwise a loading conversation with id `Date.now()` is put first |
| App.Session.AnswerArrived | App.tsx:266-275 | the conversation with that id is replaced by the answered one; it is shared with the room only when connected with an active room |
| App.Session.AskFailed | App.tsx:277-289 | the conversation with that id is replaced by the failed one; the repository error is set only for api-key errors |
| App.Session.DismissBanner | App.tsx:312 | only the banner flag is cleared |
| App.AliceRepoNamed | App.tsx:196-205 | `https://github.com/alice/repo` is fetched as owner `alice`, repository `repo` |
| App.ConnectedSession | App.tsx:32-40 | mount then handshake: status Connected, nothing emitted |
| App.FetchedSession | App.tsx:153-194 | after a successful fetch the log holds just the welcome message and the room is active |
| App.OpenRoom | App.tsx:95-142 | the room effect then joins the room once and the log is the join message |
| App.WelcomeReplacedScenario | App.tsx:142-183 | the welcome written by the fetch is replaced by the join message once the room effect runs |
| App.SendHelloScenario | App.tsx:216-237 | in an open room, sending appends the own message and emits it after the join |
| App.SendRefusedScenario | App.tsx:217-225 | sending with no room appends a refusal for room "unknown", shows the banner and emits nothing |
| App.DisconnectNoticeScenario | App.tsx:43-57 | as written, a drop in an open room appends no notice; corrected, the notice for the room is appended |
| App.LeaveOnUnmountScenario | App.tsx:84-87 | as written, unmounting in an open room never emits `leaveRoom`; corrected, it does |
| SocketService.RemoveFirst | services/socketService.ts:114-116 | `off(event, fn)`: one entry fewer when present, the list unchanged otherwise, every other listener kept |
| SocketService.RemoveFirstAt | services/socketService.ts:114-116 | the entry removed is the first registration of `fn`, and the listeners before and after it keep their order |
| SocketService.RemoveFirstNoDup | services/socketService.ts:114-116 | on a duplicate-free listener list, removal leaves the list duplicate-free and the listener absent |
| SocketService.SubscribedOnce | services/socketService.ts:108-112 | off-then-on leaves the listener exactly once, last; the other listeners are the old list without its first `fn`, in their old order (the old list plus `fn` when it was absent) |
| SocketService.SubscribeIdempotent | services/socketService.ts:108-112 | subscribing the same listener twice is the same as once |
| SocketService.RemoveLastAdded | services/socketService.ts:114-116 | removing a listener just appended restores the list |
| SocketService.UnsubscribeAfterSubscribe | services/socketService.ts:108-116 | on then off leaves the same list as off alone, without the listener |
| SocketService.OutgoingMessage | services/socketService.ts:86-90 | the message payload carries text, timestamp and room and nothing else |
| SocketService.SocketClient.constructor | services/socketService.ts:5 | no socket yet, nothing emitted |
| SocketService.SocketClient.Connect | services/socketService.ts:8-56 | one socket instance; the three connection listeners replaced by exactly the new ones; `connect()` only when the socket is not active |
| SocketService.SocketClient.Disconnect | services/socketService.ts:58-66 | the socket becomes inactive and disconnected; the instance and its listeners are kept; a socket that was connected runs its `disconnect` listeners, none otherwise |
| SocketService.SocketClient.Emit | services/socketService.ts:69-70 | an event is logged only when a socket exists and is connected |
| SocketService.SocketClient.JoinRoom | services/socketService.ts:68-75 | one `joinRoom` with the room id when connected, nothing otherwise |
| SocketService.SocketClient.LeaveRoom | services/socketService.ts:77-82 | one `leaveRoom` with the room id when connected, nothing otherwise |
| SocketService.SocketClient.SendMessage | services/socketService.ts:84-96 | one `chatMessage` with the outgoing payload when connected, nothing otherwise |
| SocketService.SocketClient.SendAIResponseShared | services/socketService.ts:98-106 | one `aiResponseShared` with the conversation and the room when connected |
| SocketService.SocketClient.Subscribe | services/socketService.ts:108-112 | off-then-on of a listener on an event, only when a socket exists |
| SocketService.SocketClient.Unsubscribe | services/socketService.ts:114-116 | first occurrence of the listener removed, only when a socket exists |
| SocketService.SocketClient.OnNewMessage | services/socketService.ts:108-112 | the listener subscribed once to `newMessage` |
| SocketService.SocketClient.OffNewMessage | services/socketService.ts:114-116 | the listener removed from `newMessage` |
| SocketService.SocketClient.OnAIResponseShared | services/socketService.ts:118-121 | the listener subscribed once to `sharedAIResponse` |
| SocketService.SocketClient.OffAIResponseShared | services/socketService.ts:123-125 | the listener removed from `sharedAIResponse` |
| SocketService.SocketClient.OnUserListUpdate | services/socketService.ts:127-130 | the listener subscribed once to `userListUpdate` |
| SocketService.SocketClient.OffUserListUpdate | services/socketService.ts:132-134 | the listener removed from `userListUpdate` |
| SocketService.SocketClient.HandshakeSucceeds | services/socketService.ts:30-33 | an active, unconnected socket becomes connected and fires the `connect` listeners; otherwise nothing fires |
| SocketService.SocketClient.TransportDrops | services/socketService.ts:35-38 | a connected socket becomes disconnected and fires the `disconnect` listeners |
| SocketService.SocketClient.HandshakeFails | services/socketService.ts:40-43 | an active, unconnected socket fires the `connect_error` listeners |
| SocketService.SocketClient.Receive | services/socketService.ts:110-111 | an inbound event reaches exactly the listeners registered for it, and only while connected |
| SocketService.ConnectTwiceScenario | services/socketService.ts:23-27 | connecting twice keeps one socket and only the second set of connection listeners |
| Relay.Complexity | server.ts:23-24 | `min(lines / 10, 5)`: at most 5, equal to 5 exactly from 50 lines on, a tenth of the line count below |
| Relay.ComplexityTextDenotes | server.ts:59 | the `toFixed(1)` text is the decimal digits of the score's tenths with one decimal |
| Relay.LongCodeScoresFive | server.ts:59 | from 50 lines on the score reads "5.0" |
| Relay.Present | server.ts:26-48 | the issues or improvements pushed are exactly those whose condition holds; one rule gives its item iff it holds |
| Relay.PresentAppend | server.ts:26-48 | the rules are tried one after another: the list for `a + b` is the list for `a` followed by that for `b` |
| Relay.PresentThree | server.ts:30-40 | three rules give their items in rule order, each once iff it holds |
| Relay.PresentTwo | server.ts:42-48 | two rules give their items in rule order, each once iff it holds |
| Relay.CodeIssues | server.ts:30-40 | long-code issue iff more than 50 lines; `any` issue iff the code contains "any"; debug-log issue iff it contains "console.log"; the whole list, in that order, each at most once |
| Relay.CodeImprovements | server.ts:42-48 | async/await advice iff `setTimeout` or `setInterval` occurs; let/const advice iff "var " occurs; the whole list, in that order, each at most once |
| Relay.AnalyzeCode | server.ts:22-65 | fixed suggestions; the complexity of the code's line count, in (0, 5]; the issues and improvements above; the explanation: the printed score, then the issue verdict and the improvement advice chosen by whether those lists are empty |
| Relay.MessageId | server.ts:90 | the id is the socket id followed by the decimal digits of the time |
| Relay.MessageIdInjective | server.ts:90 | for socket ids of equal length, equal ids mean the same socket and the same time |
| Relay.StampMessage | server.ts:88-92 | the relayed message keeps every field of the sent one except id and timestamp, which are set |
| Relay.StampReply | server.ts:164-169 | a reply is the stamped message with the parent id set |
| Relay.ToSenderRoom | server.ts:86-97 | a relayed event goes only to the room stored for the sender, and is dropped when the sender has no entry |
| Relay.SetTyping | server.ts:100-114 | only the sender's typing flag changes; no entry is created |
| Relay.RelayServer.constructor | server.ts:19 | empty `activeUsers`, no memberships, no broadcasts |
| Relay.RelayServer.OnJoinRoom | server.ts:70-76 | joins the room, overwrites the entry with a not-typing entry for it, announces `user_joined` to it; keeps every entry's room among its memberships |
| Relay.RelayServer.OnLeaveRoom | server.ts:78-82 | leaves the named room, deletes the entry whatever its room, announces `user_left` to the named room |
| Relay.RelayServer.OnChatMessage | server.ts:84-98 | the stamped copy to the sender's room, or nothing when the sender has no entry |
| Relay.RelayServer.OnTypingStart | server.ts:100-106 | typing set and `user_typing` sent to the sender's room |
| Relay.RelayServer.OnTypingStop | server.ts:108-114 | typing cleared and `user_stopped_typing` sent to the sender's room |
| Relay.RelayServer.OnAddReaction | server.ts:116-125 | `reaction_added` with the sender to the sender's room |
| Relay.RelayServer.OnRemoveReaction | server.ts:127-136 | `reaction_removed` with the sender to the sender's room |
| Relay.RelayServer.OnAddCodeSnippet | server.ts:138-147 | `code_snippet_added` with the snippet unchanged |
| Relay.RelayServer.OnAnalyzeCode | server.ts:149-159 | `code_analysis` carrying `AnalyzeCode` of the code |
| Relay.RelayServer.OnReplyToMessage | server.ts:161-173 | the stamped reply, then a thread update with count 1, both to the sender's room |
| Relay.RelayServer.OnEditMessage | server.ts:175-184 | `message_edited` with the new text and the edit time |
| Relay.RelayServer.OnUploadAttachment | server.ts:186-202 | `attachment_added` with the attachment unchanged |
| Relay.RelayServer.OnMentionUser | server.ts:204-213 | `user_mentioned` naming the sender |
| Relay.RelayServer.OnDisconnect | server.ts:215-224 | `user_left` to the stored room exactly when there is an entry; the entry and the memberships are dropped |
| Relay.RejoinScenario | server.ts:70-98 | joining a second room redirects messages to it while the connection stays in both rooms |
| Relay.LeaveTwiceScenario | server.ts:78-82 | leaving a room never joined deletes the entry, and each leave is announced |
| Relay.UnjoinedSenderScenario | server.ts:84-224 | a sender with no entry causes no broadcast at all |
| Relay.DisconnectScenario | server.ts:215-224 | a second disconnect announces nothing |
| Relay.ThreadCountScenario | server.ts:171 | two replies to one message both report a thread count of 1 |
| ChatLog.AppendInbound | App.tsx:109-117 | a message is appended, marked not own, iff it is for the room and not from this user; the existing log is kept as a prefix |
| ChatLog.InboundNeverOwn | App.tsx:109-117 | inbound messages never add to the count of own messages |
| ChatLog.OwnMessage | App.tsx:227-234 | the local message is own, by this user, for the room, with the text and time |
| ChatLog.SentMessageCountedOnce | App.tsx:227-235 | a sent message appears in the log once as own, whatever arrives afterwards |
| ChatLog.InboundKeepsOwnCount | App.tsx:109-117 | any run of inbound messages keeps the own-message count |
| ChatLog.Refusal | App.tsx:219-222 | the refusal is a bot system message for the active room or "unknown" |
| ChatLog.JoinMessage | App.tsx:99-106 | the join message is a bot system message for the room |
| ChatLog.DisconnectNotice | App.tsx:47-54 | the disconnect notice is a bot system message for the room, with id `sys-disconnect-` and the time |
| ChatLog.ConnectErrorNotice | App.tsx:59-76 | the connect-error notice is a bot system message for the room, with id `sys-error-` and the time |
| ChatLog.Welcome | App.tsx:174-181 | the welcome is an AI message for the repository's room |
| ChatLog.WithoutRoom | App.tsx:183 | one message is kept iff it belongs to another room; the result is no longer than the log |
| ChatLog.WithoutRoomKeeps | App.tsx:183 | the filter keeps exactly the messages of other rooms |
| ChatLog.WithoutRoomAppend | App.tsx:183 | the filter goes message by message, so order and multiplicity of kept messages are those of the log |
| ChatLog.WelcomeFirst | App.tsx:183 | the welcome comes first, followed by every earlier message of another room and nothing of this room |
| ChatLog.ShareNotice | App.tsx:119-136 | the share notice is an AI message for the room with id `ai-share-` plus the conversation id |
| ChatLog.NewConversation | App.tsx:242-251 | a loading conversation with no answer, id the decimal time, asked by this user |
| ChatLog.Answered | App.tsx:267 | the answer set and loading ended, same id |
| ChatLog.Failed | App.tsx:279-280 | no answer, the error set, loading ended, same id |
| ChatLog.ReplaceById | App.tsx:268-272 | same length; exactly the entries with that id are replaced |
| ChatLog.MergeShared | App.tsx:119-136 | a known id is overlaid in place; an unknown one is put first, not loading |
| ChatLog.MergeSharedIdempotent | App.tsx:119-136 | receiving the same shared answer twice changes nothing more |
| ChatLog.AskThenAnswer | App.tsx:252-272 | after asking and answering, the new conversation is first and answered, and the others are untouched |
| ChatLog.ReplaceAfterPrepend | App.tsx:252-272 | replacing the conversation just put first changes only the first entry |
| ChatLog.AskThenFail | App.tsx:252-285 | after asking and failing, the new conversation is first with the error, and the others are untouched |
| RepoUrl.NonEmptyParts | App.tsx:202 | the filter keeps exactly the non-empty path segments; one segment is kept iff non-empty |
| RepoUrl.NonEmptyPartsAppend | App.tsx:202 | the filter goes piece by piece, so order and multiplicity of kept segments are those of the path |
| RepoUrl.FirstTwoNonEmpty | App.tsx:202-205 | the first two kept segments are the first two non-empty pieces, everything else before the second being empty |
| RepoUrl.ReplaceFirst | App.tsx:204 | `replace` with a string pattern leaves a string without it unchanged |
| RepoUrl.StripGitSuffix | App.tsx:204 | the intended behaviour: only a trailing `.git` is removed |
| RepoUrl.ParseGitHubUrlAsWritten | App.tsx:196-206 | as written: another host or fewer than two segments give neither; otherwise the first segment is the owner and the second, with its first `.git` removed, the repository |
| RepoUrl.ParseGitHubUrl | App.tsx:196-206 | intended: another host or fewer than two segments give neither; otherwise the first segment is the owner and the second, without a trailing `.git`, the repository |
| RepoUrl.FetchRequest | App.tsx:166-169 | a fetch is requested exactly when both owner and repository are present and non-empty |
| RepoUrl.SegmentsAreWhole | App.tsx:196-205 | a parsed owner is the first non-empty `/`-piece of the path, and the repository the next non-empty piece without a trailing `.git`, with only empty pieces between and before them; neither contains `/`; the host is github.com |
| RepoUrl.StripGitSuffixAppended | App.tsx:204 | `name + ".git"` is read back as `name` |
| RepoUrl.CanonicalPath | App.tsx:196-205 | `/owner/repo` with any further path yields that owner and that repository without a trailing `.git` |
| RepoUrl.TooFewSegments | App.tsx:203-206 | fewer than two segments yield neither owner nor repository |
| RepoUrl.AgreeWithoutInnerGit | App.tsx:204 | when `.git` occurs in the repository segment at most as its suffix, the code as written and the intended reading agree |
| RepoUrl.PagesNameReplaced | App.tsx:204 | `"alice.github.io".replace('.git', '')` is `"alicehub.io"` |
| RepoUrl.PagesRepositoryName | App.tsx:204 | as written, `/alice/alice.github.io` names repository `alicehub.io`; intended, `alice.github.io` |
| FileTree.FindNodeByPath | services/githubService.ts:98-107 | a node found has the path asked for |
| FileTree.FindIsPreorderFirst | services/githubService.ts:98-107 | the search returns the first node with that path in pre-order over directories' children |
| FileTree.FindNode | services/githubService.ts:98-107 | the loop with its early returns computes exactly `FindNodeByPath` |
| FileTree.AttachAtFinds | services/githubService.ts:56-59 | after pushing a child into the found parent, the parent is found with that child appended |
| FileTree.AttachPlacement | services/githubService.ts:53-65 | below the top level, a parent found with a children list gets the node appended to its children and the top level keeps its length; otherwise the node is appended to the top level |
| FileTree.AttachContents | services/githubService.ts:53-87 | attaching a node adds exactly that node to the tree's contents and keeps the tree well formed |
| FileTree.LeafNode | services/githubService.ts:43-52 | the node for the item's last segment has the item's path; it is a directory with children iff the item is a tree |
| FileTree.DirNode | services/githubService.ts:68-76 | a missing directory is synthesised as an empty directory for the prefix path |
| FileTree.StepContents | services/githubService.ts:39-91 | one loop step keeps the tree well formed and adds exactly its new nodes; an intermediate directory that exists adds nothing |
| FileTree.StepsContents | services/githubService.ts:33-92 | the steps for one item add exactly the nodes they create |
| FileTree.InsertItemContents | services/githubService.ts:33-93 | every item's own node is in the tree once it is processed |
| FileTree.EveryItemHasNode | services/githubService.ts:29-95 | every listed item has its node in the built tree, which is well formed |
| FileTree.AtLeastOneNodePerItem | services/githubService.ts:29-95 | the tree has at least as many nodes as the listing has items |
| FileTree.TopLevelItemAppended | services/githubService.ts:43-54 | an item without `/` is appended at the top level |
| FileTree.FlatListing | services/githubService.ts:29-95 | a listing without `/` in any path builds exactly one top-level leaf per item, in order |
| FileTree.MissingDirectorySynthesised | services/githubService.ts:67-91 | `src/a.ts` alone yields a synthesised `src` directory holding the leaf `a.ts` |
| FileTree.AttachNode | services/githubService.ts:53-65 | the placement step as code equals its specification `Attach` |
| FileTree.BuildFileTree | services/githubService.ts:29-95 | the nested loops compute exactly the specification `BuildSpec` |
| GithubMappers.MapTreeItem | services/githubService.ts:17-27 | name is the item path, full path is `currentPath/path` or the path alone, directory iff the type is `tree`, sha and size copied |
| GithubMappers.MapContentsItem | services/githubService.ts:163-171 | name, path, sha and size copied; directory iff the type is `dir` |
| GithubMappers.OrElse | services/githubService.ts:185-194 | `x \|\| fallback` on optional strings |
| GithubMappers.CommitAuthor | services/githubService.ts:185 | the author name, else the login, else "Unknown"; never empty |
| GithubMappers.CommitDate | services/githubService.ts:186 | the author date, else the current time |
| GithubMappers.UserLogin | services/githubService.ts:194 | the login, else "Unknown"; never empty |
| GithubMappers.PullRequestState | services/githubService.ts:208 | "merged" iff merged, otherwise the API state |
| GithubMappers.RepoResponseError | services/githubService.ts:116-120 | no error iff the status is 2xx; fixed messages for 404 and 403; otherwise status and status text |
| GithubMappers.Rethrown | services/githubService.ts:238-245 | the rate-limit message iff the error mentions "rate limit exceeded"; otherwise the error prefixed |
| GithubMappers.ForbiddenReportedAsRateLimit | services/githubService.ts:118-242 | a 403 is always reported to the user as the rate-limit message |
| AnalysisParsers.RunAppend | services/codeAnalysisService.ts:252-272 | scanning a concatenation is scanning the second part from where the first left off |
| AnalysisParsers.LeadingLinesIgnored | services/codeAnalysisService.ts:262 | lines before the first header produce nothing |
| AnalysisParsers.BodyFills | services/codeAnalysisService.ts:262-271 | the lines after a header only fill in that record |
| AnalysisParsers.SingleBlock | services/codeAnalysisService.ts:252-274 | one header followed by its body gives exactly one record, filled from the body |
| AnalysisParsers.RecordPerHeader | services/codeAnalysisService.ts:252-274 | one record per non-empty header line, in order, with the header's key |
| AnalysisParsers.EmptyTextNoRecords | services/codeAnalysisService.ts:246 | empty text gives no records |
| AnalysisParsers.Detail | services/codeAnalysisService.ts:262-271 | a body line keeps the kind; a description line is appended with a newline |
| AnalysisParsers.FillDescription | services/codeAnalysisService.ts:268-270 | the description is the concatenation of the body's description lines |
| AnalysisParsers.SeverityOf | services/codeAnalysisService.ts:258-259 | high iff the line mentions "high"; medium iff "medium" and not "high"; low otherwise |
| AnalysisParsers.SecurityHeader | services/codeAnalysisService.ts:255-261 | a line opens a vulnerability iff it mentions "severity:", with empty description |
| AnalysisParsers.StyleHeader | services/codeAnalysisService.ts:287-292 | a line opens an issue iff it mentions "issue:" or "suggestion:"; a suggestion iff it mentions "suggestion" |
| AnalysisParsers.VulnerabilityPerSeverityLine | services/codeAnalysisService.ts:245-275 | one vulnerability per "severity:" line, with that line's severity, in order |
| AnalysisParsers.IssuePerHeaderLine | services/codeAnalysisService.ts:277-306 | one style issue per header line, with that line's kind, in order |
| AnalysisParsers.VulnerabilityDescription | services/codeAnalysisService.ts:252-274 | a single vulnerability's description is its body's description lines |
| AnalysisParsers.ParseSecurityVulnerabilities | services/codeAnalysisService.ts:245-275 | the loop computes exactly the fold `SecurityVulnerabilities` |
| AnalysisParsers.ParseStyleIssues | services/codeAnalysisService.ts:277-306 | the loop computes exactly the fold `StyleIssues` |
| AnalysisParsers.FunctionName | services/codeAnalysisService.ts:320-322 | the captured word after `function` or `method`, else "Unknown"; never empty |
| AnalysisParsers.FunctionNameRead | services/codeAnalysisService.ts:320 | "Function add(a)" is named `add`, the match ignoring case |
| AnalysisParsers.KeywordAloneUnnamed | services/codeAnalysisService.ts:320-322 | a keyword with no following name gives "Unknown" |
| AnalysisParsers.FunctionHeader | services/codeAnalysisService.ts:318-325 | a line opens a function iff it mentions "function" or "method"; no parameters yet |
| AnalysisParsers.LineParameter | services/codeAnalysisService.ts:327-335 | a parameter is added iff the line mentions "parameter:" and the pattern matches |
| AnalysisParsers.DocDetail | services/codeAnalysisService.ts:326-344 | a body line keeps the name and adds at most the line's parameter |
| AnalysisParsers.FunctionPerHeaderLine | services/codeAnalysisService.ts:308-349 | one function per header line, named from that line, in order |
| AnalysisParsers.FillParameters | services/codeAnalysisService.ts:327-335 | a function's parameters are those of its body lines, in order |
| AnalysisParsers.ParseFunctionDocumentation | services/codeAnalysisService.ts:308-349 | the loop computes exactly the fold `FunctionDocs` |
| MetricsParser.LineBlock | services/codeAnalysisService.ts:420-428 | a duplicated block is recorded iff `lines N-M` matches |
| MetricsParser.BottleneckOf | services/codeAnalysisService.ts:445-451 | the impact is low without an impact match; the location is never empty |
| MetricsParser.StepReading | services/codeAnalysisService.ts:407-433 | a line sets a gauge iff it is the first of its chain to match, and then to the line's first number |
| MetricsParser.ReadingAgrees | services/codeAnalysisService.ts:403-453 | each gauge ends as the last reading of it in the text, 0 without one |
| MetricsParser.BlocksAgree | services/codeAnalysisService.ts:418-429 | the duplicated blocks are those of the matching lines, in order |
| MetricsParser.CriticalPathsAgree | services/codeAnalysisService.ts:434-435 | the critical paths are those of the matching lines, in order |
| MetricsParser.SuggestedTestsAgree | services/codeAnalysisService.ts:436-437 | the suggested tests are those of the matching lines, in order |
| MetricsParser.TimeComplexityAgrees | services/codeAnalysisService.ts:441-442 | the time complexity is that of the last matching line, else "Unknown" |
| MetricsParser.SpaceComplexityAgrees | services/codeAnalysisService.ts:443-444 | the space complexity is that of the last matching line, else "Unknown" |
| MetricsParser.BottlenecksAgree | services/codeAnalysisService.ts:445-452 | the bottlenecks are those of the matching lines, in order |
| MetricsParser.EmptyLineReport | services/codeAnalysisService.ts:404 | an empty line changes nothing |
| MetricsParser.MetricsAgree | services/codeAnalysisService.ts:351-455 | the fold equals the per-field report; empty text gives the default metrics |
| MetricsParser.GaugeIsLastReading | services/codeAnalysisService.ts:407-433 | each gauge of the parsed text is its last reading |
| MetricsParser.ReadQuality | services/codeAnalysisService.ts:407-415 | the quality chain as code equals its step function |
| MetricsParser.ReadDuplication | services/codeAnalysisService.ts:418-429 | the duplication chain as code equals its step function |
| MetricsParser.ReadCoverage | services/codeAnalysisService.ts:432-438 | the coverage chain as code equals its step function |
| MetricsParser.ReadPerformance | services/codeAnalysisService.ts:441-452 | the performance chain as code equals its step function |
| MetricsParser.ParseCodeMetrics | services/codeAnalysisService.ts:351-455 | the loop computes exactly the fold and the per-field report |
| AnalysisReport.SuggestionLines | services/codeAnalysisService.ts:222 | exactly the lines mentioning "suggestion", in any case; one line is kept iff it mentions it |
| AnalysisReport.SuggestionLinesAppend | services/codeAnalysisService.ts:222 | the filter goes line by line, so order and multiplicity of the kept lines are those of the answer |
| AnalysisReport.Analyze | services/codeAnalysisService.ts:182-241 | an error for an unconfigured client or for the first missing answer, in the order asked, each with its message; otherwise every part parsed from its answer |
| TextMatch.FirstMatchLeftmost | services/codeAnalysisService.ts:213 | `match` without the `g` flag reports the match at the leftmost start that matches |
| AnalysisReport.ComplexityScoreIsLeftmost | services/codeAnalysisService.ts:213 | for every answer: the score read at the leftmost `score` with digits after it, and 5 when there is none |
| AnalysisReport.ComplexityScoreRead | services/codeAnalysisService.ts:213 | the score after `score`, with or without a colon and in any case; 5 when absent |
| GithubInput.PatternTest | components/GithubInput.tsx:23 | the pattern test accepts exactly `http(s)://github.com/owner/repo` with an optional final slash |
| GithubInput.HandleSubmit | components/GithubInput.tsx:15-28 | the blank error, then the format error; otherwise `onFetch` called once with the text as typed and no error |
| GithubInput.FurtherSegmentRejected | components/GithubInput.tsx:23-25 | an address with a further path segment is refused |
| GithubInput.AddressAccepted | components/GithubInput.tsx:15-27 | a well-formed address is fetched as typed |
| IssueListItem.StateColor | components/IssueListItem.tsx:14 | the open colour iff the state is "open" |
| IssueListItem.ContrastColor | components/IssueListItem.tsx:60-67 | black or white; black for an empty colour, and otherwise black iff the weighted brightness is at least 128 |
| IssueListItem.PairRoundTrip | components/IssueListItem.tsx:62-64 | a byte written as two hex digits is read back unchanged |
| IssueListItem.ContrastOfParts | components/IssueListItem.tsx:62-66 | black iff `299r + 587g + 114b >= 128000` |
| IssueListItem.BrighterKeepsBlack | components/IssueListItem.tsx:65-66 | a colour at least as bright in every channel as a black-text colour also gets black text |
| IssueListItem.ContrastExamples | components/IssueListItem.tsx:60-67 | white and green get black text, black and blue get white text |
| CommitListItem.Title | components/CommitListItem.tsx:25 | the longest newline-free prefix of the message |
| CommitListItem.ShortSha | components/CommitListItem.tsx:36 | the first seven characters of the sha, or all of a shorter one |
| CommitListItem.ShowsBodyIffBreak | components/CommitListItem.tsx:42 | a body is shown iff the message contains a newline |
| CommitListItem.AfterFirstLine | components/CommitListItem.tsx:44 | the message is the title, a newline, and this remainder |
| CommitListItem.Body | components/CommitListItem.tsx:42-44 | present iff there is a newline; then the remainder cut to at most 150 characters |
| CommitListItem.EllipsisAsWrittenCoversCuts | components/CommitListItem.tsx:44-45 | whenever the body is cut, the code as written shows the ellipsis |
| CommitListItem.SpuriousEllipsis | components/CommitListItem.tsx:45 | a 161-character message with a 60-character body shows the ellipsis although nothing is cut |
| CommitListItem.Card | components/CommitListItem.tsx:25-46 | the intended card: title and body as above; the ellipsis iff the body was cut, so only with a body of exactly 150 characters |

## Left out

- The network: socket.io transport, reconnection and delivery, `fetch` and the GitHub API are not modelled. Handshakes, drops and inbound events are methods that the environment calls. `fetchRepoData` is represented by its result and by the mappers.
- The client's event names (`joinRoom`, `leaveRoom`, `chatMessage`, `newMessage`, `sharedAIResponse`) are not the relay's (`join_room`, `leave_room`, `chat_message`, `user_joined`, …). The client and the relay are modelled separately with their own names and are not connected to each other.
- React rendering, the component trees, icons and styling are not modelled, and neither is the error banner's markup. Only the state the components compute from is modelled.
- `Date.now()` and `new Date().toISOString()` are parameters. Each handler reads the clock once, so ids and timestamps built in one handler share one time.
- Relay.StampMessage: reads the time once. The relay reads `Date.now()` twice, so its id and its timestamp can differ.
- The language-model calls and their prompts (`askQuestionToModel`, the five `generateContent` calls) are not modelled. Their answers are parameters, as `Answers`, and their failures are the `AskFailed` and `FetchFailed` outcomes. The `language` parameter of `analyzeCode` is unused by the relay and left out.
- `new URL(url)` is not modelled: its `hostname` and `pathname` are parameters of `BeginFetchRepo`. The regular-expression fallback in the `catch` of `parseGitHubUrl` (App.tsx:207-213) is left out, because it runs only when `new URL` throws.
- The `fileMap` of `buildFileTree` is written and never read, so it is left out. The `basePath` parameter is never read and is left out too.
- FileTree.InsertItemContents: states that the item's own node is included (`<=`). The exact multiset of added nodes is stated by FileTree.StepsContents.
- Floating point: the relay's complexity is a `real`. `toFixed(1)` is modelled for the values `analyzeCode` produces (tenths).
- IssueListItem.ContrastColor: defined only for the empty string and for six hex digits. `parseInt` on other text gives `NaN`, and that path is not modelled.
- AnalysisParsers.FunctionName: the contract says the name is a word or "Unknown". Which word is read is shown by the examples in FunctionNameRead and KeywordAloneUnnamed.
- MetricsParser.BottleneckOf: the contract states only the default impact and a non-empty location. The exact text fields come from the `split` helpers, as in the source.
- App.Session.BeginFetchRepo: fetches the repository named by the corrected parse (RepoUrl.ParseGitHubUrl, which removes only a trailing `.git`), not by App.tsx:204 as written. The two differ only for a repository name with `.git` inside it (see "## Findings" and RepoUrl.AgreeWithoutInnerGit).
- RepoUrl.FetchRequest: built on the corrected parse, like App.Session.BeginFetchRepo. App.tsx:204 as written is RepoUrl.ParseGitHubUrlAsWritten.
- Strings.ToLower: folds only the ASCII letters. JavaScript's `toLowerCase` folds all of Unicode (the Kelvin sign U+212A becomes `k`), so for text outside ASCII a `toLowerCase().includes` test can differ.
- TextMatch.Mentions: inherits the ASCII-only case folding of Strings.ToLower, and so does every keyword test built on it, including the `i` flag of the regular expressions.
- CommitListItem.Body: a `string` here is a sequence of Unicode scalar values. JavaScript's `length` and `substring` count UTF-16 code units, so the 150-character cut differs for text with characters outside the Basic Multilingual Plane.
- CommitListItem.Card: the `length > 150` test counts scalar values, not UTF-16 code units, for the same reason.
- ChatLog.ShareNotice: the 50-character question prefix counts scalar values, not UTF-16 code units, for the same reason.
- RepoUrl.ReplaceFirst: the contract states only the case without an occurrence. The first-occurrence case is shown by RepoUrl.PagesNameReplaced.
- ChatLog.JoinMessage, ChatLog.DisconnectNotice, ChatLog.ConnectErrorNotice, ChatLog.Welcome and ChatLog.Refusal: the contracts state the room, the author and the flags (and, for the two notices, the id), not the wording of the text.
- `codeSnippet` and attachments are carried as opaque values. `console` logging is left out.

## Findings

| source | as written | input that shows it | evidently intended | confidence | as-written member | corrected member |
|---|---|---|---|---|---|---|
| App.tsx:204 | `.replace('.git', '')` removes the first `.git` anywhere in the repository segment | `https://github.com/alice/alice.github.io` yields repository `alicehub.io` | remove only a trailing `.git` | not executed | RepoUrl.PagesRepositoryName | RepoUrl.ParseGitHubUrl |
| App.tsx:43-92 | the connection effect runs once (`[]`), so its disconnect and connect-error handlers and its cleanup all see the room captured at mount, which is null | open a room, then drop the transport: no disconnect notice is appended (and on unmount `leaveRoom` is never emitted) | use the room active at the time of the event | not executed | App.DisconnectNoticeScenario | App.Session.TransportDropped |
| components/CommitListItem.tsx:45 | the ellipsis tests the length of the whole message | a 100-character title, a newline and a 60-character body: the 60-character body is shown whole with `...` | show `...` only when the body was cut | not executed | CommitListItem.SpuriousEllipsis | CommitListItem.Card |
