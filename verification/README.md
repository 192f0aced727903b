# WormWire, verified

A Dafny model of the WormWire client stack of WormDB: a request/response protocol
without request ids over byte streams that may be cut anywhere, with out-of-band
events, partial writes, timeouts and reconnects. It covers the managed `WormDB`
client composed with its connections and a server, the binary and text codecs of the
Bun and browser clients, the signed capability token, the one-shot client, the event
iterator, and the native load generator.

`dafny verify dfyconfig.toml` checks everything.

## How it is organised

- `Bytes`, `Frames`, `Commands`, `Responses`, `Backlog`: the specification level. Big-endian
  fields, the frame parser, commands as concatenation with a reference decoder, the
  two response decoders, partial writes.
- `WireEncoder`, `SctToken`: the encoders as written, filling a preallocated array
  through a moving offset, proved equal to the concatenation forms.
- `ClientSteps`: every synchronous block of `apps/bun/src/lib/wormdb.ts` as a function on a
  value. `WormDBClass` is the object itself, with fields, loops and updates in place;
  each method is proved to do what the function of the same block does.
- `System`: the client, and for each connection two byte channels and a server that parses
  frames in order, answers each command with one non-event frame and may emit EVENT
  frames at any time. A run is any interleaving of user calls, promise continuations,
  socket callbacks, timers and server steps.
- `Lifecycle`, `Settlement`, `Correlation`, `Ledger`, `Subscriptions`: the invariants, each
  kept by every step. `Theorems`: what they mean for every run.
- `Ordering`, `Progress`: where a request goes next, in which order requests are woken, written and
  settled. `Bookkeeping`: the token, the subscription map and its handlers against what was asked and granted.
- `ServerView`: what the server makes of SUB and UNSUB frames, some of which it may refuse.
  `Leftovers`: where the subscription map and the server part ways. `Witnesses`: concrete runs.
- `Session`: a `WormDB` object in use. Whatever is called on it, its state, its connections and the
  bytes its socket took are those of a run of `System`.
- `OneShot`, `EventIterator`: two smaller machines, as step functions and as classes.
- `TextCommand`: `parseCommand` and `buildCommand`. `SubLines`: the pattern for SUB on lines as typed.
- `LoadWriter`, `LoadBuffers`, `LoadPipeline`, `LoadWorkers`: the load generator's buffered
  writer as a value, its reader, writer and ring as classes, the worker program on them,
  and N workers interleaved. `LoadResponses` relates its header check to the responses of the protocol.
  `LoadPipeline` and `LoadWorkers` model the same program from
  two sides; no refinement between them is stated.

Strings are the byte sequences that carry them (`TextCommand` works on characters).
Integers are unbounded; every 8-, 32- and 64-bit field is reduced explicitly.
Await points are explicit: a request parks in `waiters`, is `woken`, then `released`,
then sits in the pending queue; `log[handled..]` are settled promises whose
continuations have not run yet. Synchronous blocks are atomic and handlers do not call
back into the client.

## What the environment is assumed to do

The client checks none of these; they are the conditions of `System.Enabled`.

- A socket that was ended accepts no more bytes. `Theorems.StrayReplySettlesStaleSend` shows
  what happens otherwise: a request released just before `close()` is settled by a reply
  meant for another exactly when the old socket still takes its bytes.
- The writes made in `onOpen` and in a drain do not fail, and the magic is taken whole
  (wormdb.ts:862 ignores the result; wormdb.ts:1059-1061 drops a chunk on an error).
  `Backlog.FlushConservesIff` shows that a drain keeps every byte exactly when no write fails.
- A dropped socket makes no callback once a later connection is open: the callbacks ignore
  which socket called (wormdb.ts:826-837).
- A dial reports success or failure in a later callback, once, and the open callback comes
  together with the continuation of `Bun.connect`. Socket and timer callbacks run after
  pending promise continuations.
- A server answers every command frame exactly once, in order, with any non-event frame.

`UserUnsubscribe` is enabled for any channel and handler. That is more than a caller can do, who
gets the means to unsubscribe from `subscribe()`; it makes the theorems about every run
stronger. The runs in `Witnesses` use it only where a caller can.

## Where the code does less than expected

- `close()` during a dial does not stick. `Theorems.CloseDuringDialReopens` is a run in which
  the closed client becomes ready again; `Theorems.ClosedIsLeftOnlyByADial` shows that a dial
  in flight that succeeds is the only way out, and `Theorems.ClosedForGood` that without one
  the closed state is final.
- The server may be subscribed to a channel the client has no entry for
  (`Witnesses.UnsubscribedYetSubscribed`: subscribe twice with one handler, unsubscribe with the
  second handle while the dial is in flight, and the parked SUB is sent and granted all the
  same). `Leftovers.StaleArises` says exactly which three steps bring it about.
- A channel marked `wireSubscribed` may be missing at the server. `ServerView.SettledServerAgrees`
  gives the exact condition once the server has answered: an UNSUB sent by hand
  (`Witnesses.UnsubscribedByHand`), or a resubscribe of the handshake that the server refused, a
  reply the client does not look at (`Witnesses.ResubscribeRefused`).
- When the SUB of a channel with two handlers fails, the second handler stays registered
  and its `subscribe()` has reported success, but while the entry is in the map the client
  never subscribes the channel again on its own (`Witnesses.SharedSubFails`, `Leftovers.HopelessForever`, with the exact condition in
  `Leftovers.UnwiredIsOpenOrHopeless`).
- Requests keep their order but for one case: a request made after an open, while those that waited
  for it are still being woken, goes ahead of them (`Ordering.SentInOrder`).
- Two consumers of one event iterator strand each other (`EventIterator.TwoConsumersStrand`): a
  parked call can be resumed exactly when it holds the single wake slot. The client's
  `close()` wakes nobody.
- The one-shot client writes its command even after it has timed out, and leaves open a
  socket that arrives later (`OneShot.TimedOutStillSent`, `OneShot.WritesAfterSettlingIff`,
  `OneShot.EndedIffConnectedFirst`).
- The token's capability count is one byte: a reader recovers the claims exactly up to 255
  capabilities (`SctToken.TokenRoundTrip`), though the signed bytes stay unambiguous.
- `SET` on the CLI turns write-once without `--worm` when a field is spelled WORM in any case, and
  empty arguments are lost (`TextCommand.BuiltInRecovered` gives the exact condition).
- The browser decodes a truncated message instead of rejecting it
  (`Responses.BrowserDoesNotWait`).
- The load generator flags a connection as broken only for a failed flush or read. A command
  write that fails while the flush after it succeeds leaves a cut command with the server,
  unflagged, and the next phase reuses the connection (`LoadWorkers.WriteFailureGoesUnflagged`).
  An unflagged connection is clean exactly when the stream took no byte from the first
  failed write on (`LoadWorkers.UnbrokenIsCleanIff`).
- The comment at wormdb.ts:778 says the close handler runs the reconnect; `failConnection`
  runs it itself, and the model follows the code.

## Model

| member | source | states |
|---|---|---|
| Frames.ConsumeEncoded | apps/bun/src/lib/wire.ts:214-227 | A whole frame parses back, whatever follows it. |
| Frames.ConsumeAppend | apps/bun/src/lib/wire.ts:214-227 | More bytes never change a frame that is already complete. |
| Frames.ParseAll | apps/bun/src/lib/wormdb.ts:893-900 | The consume loop ends; the frames it takes re-encode, with the leftover, to the input, and the leftover holds no whole frame. |
| Frames.ParseAppend | apps/bun/src/lib/wormdb.ts:893-900 | Consuming two pieces one after the other, carrying the leftover, is consuming them joined. |
| Frames.FeedIsParse | apps/bun/src/lib/wormdb.ts:893-916 | For every way of cutting a stream into chunks the frames and the leftover are those of the whole stream. |
| Frames.LeftoverIsProperPrefix | apps/bun/src/lib/wire.ts:214-227 | A leftover is a proper prefix of some frame. |
| Frames.ParseCutStream | apps/bun/src/lib/wormdb.ts:893-916 | Cutting a stream of whole frames anywhere, the first part parses to a prefix of them and the rest completes the others. |
| Commands.CommandRoundTrip | apps/bun/src/lib/wire.ts:52-212 | Every command within the 16 MiB cap is recovered from its frame, for any number of args or items: no length or count was cut to 32 bits. |
| Commands.EncodedCommandIsReadable | apps/bun/src/lib/wire.ts:301-310 | Encoding succeeds exactly within the cap; a stream reader then gets the command back and the following bytes untouched. |
| WireEncoder.ExecPayload | apps/bun/src/lib/wire.ts:108-127 | EXEC: the size loop and the fill loop agree, the offset ends at the size, the bytes are the concatenation. |
| WireEncoder.VinsertPayload | apps/bun/src/lib/wire.ts:128-150 | VINSERT: the offset ends at the size and the bytes are the concatenation. |
| WireEncoder.VbulkinsertPayload | apps/bun/src/lib/wire.ts:151-183 | VBULKINSERT with any number of items: same. |
| WireEncoder.SetPayload | apps/bun/src/lib/wire.ts:85-96 | SET at fixed positions gives the concatenation. |
| WireEncoder.SubPayload | apps/bun/src/lib/wire.ts:62-74 | SUB writes a filter only if it is given and not empty. |
| WireEncoder.WriteFrame | apps/bun/src/lib/wire.ts:301-310 | The frame, or PayloadTooLargeError exactly above the cap. |
| WireEncoder.EncodeCommandFrame | apps/bun/src/lib/wire.ts:52-212 | Every command, filled in place, is the concatenation form or the size error. |
| WireEncoder.ConcatBytes | apps/bun/src/lib/wire.ts:273-288 | One buffer of the total length holds the chunks in order. |
| WireEncoder.BrowserEncode | apps/browser/src/wire.ts:66-157 | The browser's encoders give code, length and payload of the same command. |
| WireEncoder.BothEncode | apps/browser/src/wire.ts:66-157 | Bun and browser give identical bytes exactly for payloads within the cap, and those bytes decode to the command. |
| Responses.DecodersAgree | apps/browser/src/wire.ts:161-201 | On every complete frame, malformed events and unknown codes included, both decoders give the same variant and contents. |
| Responses.BrowserDoesNotWait | apps/browser/src/wire.ts:161-201 | On any bytes: agreement when the frame is complete; when it is not, Bun waits and the browser decodes what there is. |
| Responses.EventAccepted | apps/bun/src/lib/wire.ts:243-266 | An event payload is accepted exactly when it is two length-prefixed fields and a tail. |
| Responses.ResponseRoundTrip | apps/bun/src/lib/wire.ts:233-271 | Every response a server can state survives its frame, by either decoder. |
| Responses.UnknownCodes | apps/bun/src/lib/wire.ts:268-270 | A response is an unknown code exactly for codes above 4. |
| SctToken.EncodeSct | apps/browser/demo/auth-provider.ts:91-161 | The in-place encoder writes exactly the concatenation layout, then the signature over it; the last position is the computed size. |
| SctToken.LayoutIsHeadThenCaps | scripts/test-security.ts:14-23 | The nested concatenation of `token` is the fixed head followed by the capabilities, of the stated length. |
| SctToken.TwoWords | apps/browser/demo/auth-provider.ts:113-121 | The high and low words written for a time are its eight big-endian bytes. |
| SctToken.TimeReassembles | apps/browser/demo/auth-provider.ts:113-121 | A time below 2^53, split in two words, reads back as that time. |
| SctToken.TokenRoundTrip | apps/browser/demo/auth-provider.ts:91-161 | A reader recovers all claims and the signature exactly when there are at most 255 capabilities. |
| SctToken.SamePayloadSameClaims | apps/browser/demo/auth-provider.ts:91-161 | Two claim sets with the same signed bytes are equal. |
| TextCommand.SplitOfTrim | apps/bun/src/lib/command.ts:32-35 | trim and split give the maximal runs of non-space characters, or one empty string. |
| TextCommand.SplitOfJoin | apps/bun/src/lib/command.ts:32-35 | Splitting a joined line gives its non-empty words back. |
| TextCommand.SpacingDoesNotMatter | apps/bun/src/lib/command.ts:31-106 | Outside SUB two lines with the same words parse alike. |
| TextCommand.BuiltInRecovered | apps/bun/src/bin/client.ts:59-79 | For status, cluster-status, get, set, del and pub, parsing the built line recovers the command meant exactly when no used field is empty and no SET field reads as WORM without --worm. |
| TextCommand.PassedThrough | apps/bun/src/bin/client.ts:59-79 | All other non-empty words reach the parser as they are; a SUB filter is the rest of the line. |
| TextCommand.ParsesPrinted | apps/bun/src/lib/command.ts:31-106 | Every command has a line, its verb in any spelling and then its fields, that parses back to it: all ten forms, the SUB filter and the WORM flag included. |
| TextCommand.TooFewWords | apps/bun/src/lib/command.ts:39-106 | Too few words are an invalid command of just that verb. |
| TextCommand.UnknownVerb | apps/bun/src/lib/command.ts:64-106 | An unknown verb, or CLUSTER without STATUS or PEERS, is unsupported. |
| TextCommand.BlankLine | apps/bun/src/lib/command.ts:32-35 | A line without words is a missing command. |
| SubLines.FilterVerbatim | apps/bun/src/lib/command.ts:49-57 | On any spacing the filter of SUB is the rest of the trimmed line as typed, inner spaces kept, and a filter that spans lines is an invalid SUB. |
| Backlog.SendConserves | apps/bun/src/lib/client.ts:296-307 | A send appends its bytes to the outgoing stream, or fails with an empty backlog and nothing written. |
| Backlog.FlushConserves | apps/bun/src/lib/client.ts:310-325 | A drain without failed writes keeps every byte in order. |
| Backlog.FlushConservesIff | apps/bun/src/lib/client.ts:310-325 | A drain keeps every byte exactly when none of its writes fails. |
| WormDBClass.WormDB.WriteOrQueue | apps/bun/src/lib/wormdb.ts:1043-1053 | The backlog and the accepted bytes are those of the value form; a throw changes neither. |
| WormDBClass.WormDB.FlushBacklog | apps/bun/src/lib/wormdb.ts:1055-1069 | The loop writes and keeps exactly what the value form says for the socket's results. |
| WormDBClass.WormDB.SendReleased | apps/bun/src/lib/wormdb.ts:748-763 | Enqueue, write, and on failure take the newest entry back and reject it. |
| WormDBClass.WormDB.EnqueuePending | apps/bun/src/lib/wormdb.ts:765-777 | The request goes to the end of the queue with a timer of the current generation. |
| WormDBClass.WormDB.RejectAllPending | apps/bun/src/lib/wormdb.ts:980-989 | Every queued request is rejected in order and its timer cleared. |
| WormDBClass.WormDB.RejectReadyWaiters | apps/bun/src/lib/wormdb.ts:991-997 | Every parked request is rejected in order. |
| WormDBClass.WormDB.EnsureReady | apps/bun/src/lib/wormdb.ts:795-812 | The loop throws, returns the socket, or dials and parks, as the value form says; `Progress.NewNext` and `Progress.WokenNext` say which, by phase. |
| WormDBClass.WormDB.OpenSocket | apps/bun/src/lib/wormdb.ts:814-816 | At most one dial in flight, none once closed. |
| WormDBClass.WormDB.SendHandshake | apps/bun/src/lib/wormdb.ts:864-881 | AUTH if a token is held, then one SUB per live entry, each with its queue entry, also over a non-empty backlog; `Bookkeeping.HandshakeSays` reads the frames. |
| WormDBClass.WormDB.OnOpen | apps/bun/src/lib/wormdb.ts:852-891 | New generation, empty buffers, magic, handshake, ready, waiters released. |
| WormDBClass.WormDB.OnData | apps/bun/src/lib/wormdb.ts:893-916 | The consume loop is the parse of buffer and chunk; each non-event frame settles the oldest request. |
| WormDBClass.WormDB.ScheduleReconnect | apps/bun/src/lib/wormdb.ts:957-978 | Gives up at the attempt limit, otherwise arms the jittered delay. |
| WormDBClass.WormDB.HandleDisconnect | apps/bun/src/lib/wormdb.ts:934-955 | Drops the connection state, rejects what was in flight, then closes, idles or schedules. |
| WormDBClass.WormDB.OnRequestTimer | apps/bun/src/lib/wormdb.ts:765-776 | A timer of the current generation tears the connection down, an older one does nothing. |
| WormDBClass.WormDB.FailConnection | apps/bun/src/lib/wormdb.ts:779-793 | All in-flight requests rejected and the connection dropped. |
| WormDBClass.WormDB.Close | apps/bun/src/lib/wormdb.ts:256-277 | Closed, timer cancelled, everything queued or parked rejected, buffers emptied. |
| WormDBClass.WormDB.Subscribe | apps/bun/src/lib/wormdb.ts:318-354 | A known channel gains a handler; a new one gets an entry and a SUB request; `Bookkeeping.SubscribeAsks` reads it. |
| WormDBClass.WormDB.RemoveHandler | apps/bun/src/lib/wormdb.ts:999-1015 | The last handler removes the entry and, if connected, requests UNSUB. |
| WormDBClass.WormDB.RunContinuation | apps/bun/src/lib/wormdb.ts:301-354 | A SUB reply marks its entry live or takes the handler back; an AUTH reply that is no error stores the token (`Bookkeeping.TokenIsLastGranted`). |
| Session.Session.RecordQuiet | apps/bun/src/lib/wormdb.ts:743-1015 | A call that writes nothing extends the run by its step and leaves the accepted bytes as the run has them. |
| Session.Session.SendOne | apps/bun/src/lib/wormdb.ts:748-763 | The write of a released request extends the run, and the socket took what the run says, unless an ended socket takes bytes. |
| Session.Session.Opened | apps/bun/src/lib/wormdb.ts:852-891 | A successful dial extends the run on a new connection, unless a handshake write fails or the magic is cut. |
| Session.Session.Drains | apps/bun/src/lib/wormdb.ts:1055-1069 | A drain extends the run unless a write fails. |
| Session.Session.Receive | apps/bun/src/lib/wormdb.ts:893-916 | A chunk of what the server sent extends the run. |
| Session.Session.ObjectIsCorrelated | apps/bun/src/lib/wormdb.ts:893-916 | After any calls on the object, every request it resolved holds the server's reply to its own frame. |
| Session.Session.ObjectConservesBytes | apps/bun/src/lib/wormdb.ts:1043-1069 | After any calls, the bytes its socket took, then its backlog, are magic and all frames submitted. |
| Lifecycle.StepKeepsLife | apps/bun/src/lib/wormdb.ts:795-978 | Every step keeps the lifecycle invariant: one link, no stranded waiter, empty queues without a socket, no released request before the first connection, the dial budget and the delay range. |
| Settlement.StepKeepsSettle | apps/bun/src/lib/wormdb.ts:743-793 | Every step keeps each request in exactly one place and the timers equal to the queue. |
| Correlation.ServeTakesNext | apps/bun/src/lib/wormdb.ts:743-776 | The next frame the server parses is the next one submitted. |
| Correlation.HandleAllAnswers | apps/bun/src/lib/wormdb.ts:893-916 | A chunk settles the oldest requests with its non-event frames, in order. |
| Correlation.StepKeepsLink | apps/bun/src/lib/wormdb.ts:743-916 | Every step keeps queue, both channels and server aligned and every resolved request matched to its reply. |
| Ledger.StepKeepsLedger | apps/bun/src/lib/wormdb.ts:743-942 | Every step keeps the handshake shape of each connection and submits a request at most once. |
| Subscriptions.StepKeepsSubs | apps/bun/src/lib/wormdb.ts:318-354 | Every step, raw commands included, keeps for each live entry the SUB that made its channel live on this connection, followed by no UNSUB but by hand. |
| Subscriptions.ReplayIsLastWord | apps/bun/src/lib/wormdb.ts:318-354 | Replaying a sequence of frames yields a channel exactly when the last SUB or UNSUB for it is a SUB. |
| Theorems.RunKeepsInv | apps/bun/src/lib/wormdb.ts:743-1069 | All invariants hold after every run. |
| Theorems.RepliesReachTheirRequests | apps/bun/src/lib/wormdb.ts:893-916 | In every run each resolved request holds the server's reply to its own frame. |
| Theorems.PendingQueueLayout | apps/bun/src/lib/wormdb.ts:743-776 | In every live state, handshake included, the queue lists replies in transit, then frames the socket took whole, then frames with unsent bytes. |
| Theorems.SettledExactlyOnce | apps/bun/src/lib/wormdb.ts:748-793 | Each issued request is in exactly one place and none settles twice. |
| Theorems.SettlementIsFinal | apps/bun/src/lib/wormdb.ts:980-989 | A settled promise stays as it is for the rest of the run. |
| Progress.StepShifts | apps/bun/src/lib/wormdb.ts:743-1015 | Each step moves requests between the queues and settles, in this order, the queued and then the parked ones, or the oldest queued ones, or one that is about to be let through. |
| Progress.ParkedNext | apps/bun/src/lib/wormdb.ts:887-997 | A parked request is woken by an open, rejected when the client goes idle or closed, and else stays parked. |
| Progress.WokenNext | apps/bun/src/lib/wormdb.ts:795-812 | The oldest woken request is rejected if closed, let through if ready, and else parked again; no other moves. |
| Progress.ReleasedNext | apps/bun/src/lib/wormdb.ts:748-763 | The oldest request let through is queued, or rejected exactly if its write fails on an empty backlog. |
| Progress.QueuedNext | apps/bun/src/lib/wormdb.ts:765-793 | A queued request is resolved by incoming bytes or rejected when the connection goes; nothing else settles it. |
| Progress.NewNext | apps/bun/src/lib/wormdb.ts:795-812 | A new request is rejected by a closed client, let through by a ready one, parked by any other. |
| Progress.DropLeadsTo | apps/bun/src/lib/wormdb.ts:934-964 | After a lost connection, failed dial or timeout the client is closed exactly if it was or has no attempt left, idle exactly without reconnects, and else reconnecting with a dial or timer. |
| Progress.IdleDials | apps/bun/src/lib/wormdb.ts:800-806 | The first request of an idle client dials at once. |
| Progress.StepKeepsFifo | apps/bun/src/lib/wormdb.ts:893-997 | Every step keeps the settled requests of each connection a prefix of those submitted, in order, and on a live one all resolved. |
| Progress.SettledInOrder | apps/bun/src/lib/wormdb.ts:893-997 | In every run, when a request submitted on a connection has settled, every earlier one settled before it, with a reply if the later one got one. |
| Ordering.ParkedInOrder | apps/bun/src/lib/wormdb.ts:887-890 | In every run the parked and the woken requests stand in the order in which they were made. |
| Ordering.SentInOrder | apps/bun/src/lib/wormdb.ts:748-763 | In every run, of two user requests submitted on one connection the older is first, unless it had to be woken and the younger had not. |
| Theorems.NothingIsReplayed | apps/bun/src/lib/wormdb.ts:934-942 | A request is submitted at most once, on at most one connection. |
| Theorems.TimersBelongToQueue | apps/bun/src/lib/wormdb.ts:765-793 | Armed request timers are exactly those of queued requests, all of the current generation. |
| Theorems.OpensClean | apps/bun/src/lib/wormdb.ts:852-856 | A connection opens with queue, inbound and backlog empty, and its bytes are magic then handshake. |
| Theorems.HandshakeShape | apps/bun/src/lib/wormdb.ts:852-891 | On every connection: AUTH iff a token was held, one SUB per live channel, then user frames only, one queue entry each. |
| Bookkeeping.HandshakeSays | apps/bun/src/lib/wormdb.ts:864-881 | On every connection a reader decodes the handshake as AUTH of the token held, then SUB of each live entry with its channel and filter. |
| Bookkeeping.TokenIsLastGranted | apps/bun/src/lib/wormdb.ts:301-306 | In every run the token held is the one of the last auth() whose reply was dealt with and had a code of at most 2, and none if there was none. |
| Bookkeeping.OpensWithLastGranted | apps/bun/src/lib/wormdb.ts:864-870 | A connection opens with AUTH of a token exactly when that is the last one granted. |
| Bookkeeping.OpenResubscribes | apps/bun/src/lib/wormdb.ts:872-881 | In every run an open sends SUB again for exactly the live entries of the map, oldest first. |
| Bookkeeping.RequestsSayTheirPurpose | apps/bun/src/lib/wormdb.ts:301-346 | In every run a reader decodes each request of auth, subscribe and unsubscribe as its token, channel and filter, or channel. |
| Bookkeeping.SubscribeAsks | apps/bun/src/lib/wormdb.ts:318-335 | subscribe() on a new channel makes one request, which decodes as SUB of that channel and filter, and an entry that remembers them. |
| Bookkeeping.SubscribeQuietly | apps/bun/src/lib/wormdb.ts:318-331 | On a known channel it asks for nothing. |
| Bookkeeping.EntryKeepsFilter | apps/bun/src/lib/wormdb.ts:318-328 | An entry keeps its channel and filter in every run. |
| Bookkeeping.LiveIffWon | apps/bun/src/lib/wormdb.ts:331-341 | In every run an entry is live exactly when its own SUB was answered with code 0, 1 or 2 and that was dealt with. |
| Bookkeeping.SubscribeRegisters | apps/bun/src/lib/wormdb.ts:318-329 | subscribe() adds its handler to its channel and to no other. |
| Bookkeeping.RemoveUnregisters | apps/bun/src/lib/wormdb.ts:999-1005 | Unsubscribing takes just that handler from just that channel. |
| Bookkeeping.RemoveAsks | apps/bun/src/lib/wormdb.ts:999-1015 | It asks for UNSUB exactly when it takes the last handler while connected; the channel leaves the map with its last handler in any phase. |
| Bookkeeping.ContinuationHandlers | apps/bun/src/lib/wormdb.ts:331-346 | A failed SUB takes its handler from its own entry, and the whole channel with the last one, also when by then it belongs to a newer entry. |
| Theorems.BytesConserved | apps/bun/src/lib/wormdb.ts:1043-1069 | In every run the bytes a socket accepted, then the backlog, are magic and all submitted frames in order. |
| Theorems.FailedSendLeavesNoTrace | apps/bun/src/lib/wormdb.ts:748-763 | A send fails exactly on an error with an empty backlog; then no byte went out and the entry popped is its own. |
| Theorems.SubscriptionsAgree | apps/bun/src/lib/wormdb.ts:318-354 | In every run the last frame submitted for a channel marked wireSubscribed is a SUB, except exactly when it is an UNSUB sent by hand on this connection. |
| ServerView.ServerSetIsLastObeyed | apps/bun/src/lib/wormdb.ts:331-346 | The server is subscribed to a channel exactly when the last SUB or UNSUB for it that it accepted is a SUB. |
| ServerView.ServerAgrees | apps/bun/src/lib/wormdb.ts:872-881 | In every run a channel marked wireSubscribed is missing at the server exactly when nothing about it was accepted on this connection or last an UNSUB by hand; in the first case the handshake's SUB was refused or is unanswered. |
| ServerView.SettledServerAgrees | apps/bun/src/lib/wormdb.ts:872-881 | Once the server has answered: missing exactly after an UNSUB by hand, or after a refused resubscribe with nothing accepted. |
| ServerView.OwnSubAccepted | apps/bun/src/lib/wormdb.ts:331-341 | The own SUB of a live entry, if it went out on this connection, was accepted there. |
| Theorems.ResubscribesOnce | apps/bun/src/lib/wormdb.ts:872-881 | In every run, one open never sends the same channel twice. |
| Leftovers.StaleComesFrom | apps/bun/src/lib/wormdb.ts:999-1015 | In every run, when the server is subscribed to a channel without an entry, the last word it accepted on it is a SUB by hand or of a removed entry. |
| Leftovers.StaleArises | apps/bun/src/lib/wormdb.ts:999-1015 | A step brings that about exactly if the server grants a SUB that has no entry, or the last handler goes, by an unsubscribe or a failed SUB, while the server is subscribed; an unsubscribe has its UNSUB released behind. |
| Leftovers.OpenIsNotStale | apps/bun/src/lib/wormdb.ts:872-881 | A new connection starts without such channels. |
| Leftovers.UnwiredIsOpenOrHopeless | apps/bun/src/lib/wormdb.ts:328-346 | An entry that is not live has its one SUB on its way exactly when it has not been given up. |
| Leftovers.HopelessForever | apps/bun/src/lib/wormdb.ts:872-875 | A given-up entry is never live again, its SUB never resent, and no handshake subscribes its channel while it is in the map. |
| Witnesses.UnsubscribedYetSubscribed | apps/bun/src/lib/wormdb.ts:318-354 | A run that ends with the server subscribed and no entry. |
| Witnesses.UnsubscribedByHand | apps/bun/src/lib/wormdb.ts:284-290 | A run that ends with a live entry the server has dropped on an UNSUB by hand. |
| Witnesses.ResubscribeRefused | apps/bun/src/lib/wormdb.ts:872-881 | A run without raw commands that ends with a live entry whose resubscribe the server refused. |
| Witnesses.SharedSubFails | apps/bun/src/lib/wormdb.ts:328-346 | A run that ends with a registered handler on a given-up entry. |
| Theorems.OneLinkAndNoStrandedWaiter | apps/bun/src/lib/wormdb.ts:795-850 | At most one of socket, dial and timer; a parked request has a dial or a timer to wait for. |
| Theorems.ClosedIsLeftOnlyByADial | apps/bun/src/lib/wormdb.ts:814-850 | A step leaves the closed state exactly when it is a dial in flight succeeding. |
| Theorems.ClosedForGood | apps/bun/src/lib/wormdb.ts:256-277 | Closed with no dial in flight is never left. |
| Theorems.CloseDuringDialReopens | apps/bun/src/lib/wormdb.ts:256-277 | A run in which close() during a dial ends in a ready client. |
| Theorems.LastDialCloses | apps/bun/src/lib/wormdb.ts:957-964 | In every run a failed dial closes the client exactly when it was the last the budget allows: maxAttempts, and one more before the first connection. |
| Theorems.ClosedIffDialsSpent | apps/bun/src/lib/wormdb.ts:957-978 | In every run without a successful dial, whatever else is called, the client is closed exactly when close() was called or maxAttempts + 1 dials have failed. |
| Theorems.GivesUpAfterMaxAttempts | apps/bun/src/lib/wormdb.ts:957-978 | Such runs exist for every jitter: after exactly maxAttempts + 1 dials the client is closed with no waiter left. |
| Theorems.OpenResetsBudget | apps/bun/src/lib/wormdb.ts:883-885 | A successful open resets the attempts. |
| Theorems.BackoffGrows | apps/bun/src/lib/wormdb.ts:966-970 | The backoff never shrinks and never exceeds maxDelayMs. |
| Theorems.DelaysInRange | apps/bun/src/lib/wormdb.ts:966-977 | Every armed delay lies in [b/2, b] for the backoff b of its attempt. |
| Theorems.BackoffDoubles | apps/bun/src/lib/wormdb.ts:966-970 | The backoff starts at minDelayMs, and each attempt doubles the one before until the cap. |
| Theorems.JitterCovers | apps/bun/src/lib/wormdb.ts:970-971 | Every delay in [b/2, b) comes from some jitter. |
| Theorems.StrayReplySettlesStaleSend | apps/bun/src/lib/wormdb.ts:748-763 | A request released just before close() takes a foreign reply exactly when the old socket accepts its bytes. |
| OneShot.SettlesAtMostOnce | apps/bun/src/lib/client.ts:172-261 | For any order of callbacks: settled at most once, and written bytes then unsent bytes are the request. |
| OneShot.ReturnsFirstReply | apps/bun/src/lib/client.ts:228-247 | The result is the first non-event frame of the whole stream, and nothing else settles an undisturbed request. |
| OneShot.FirstReplyIsFirst | apps/bun/src/lib/client.ts:228-247 | The consume loop finds the first non-event frame of the parse. |
| OneShot.SettledStays | apps/bun/src/lib/client.ts:177-187 | Once settled, no callback changes the outcome. |
| OneShot.OutcomeIsExpected | apps/bun/src/lib/client.ts:172-261 | For any order of callbacks the outcome is that of the first reply or the first ending callback, whichever comes first, each named: close, error, timeout, failed dial. |
| OneShot.CountsWhatWasTaken | apps/bun/src/lib/client.ts:205-215 | A write counts as written exactly the bytes the socket took of it. |
| OneShot.EndedIffConnectedFirst | apps/bun/src/lib/client.ts:177-187 | The socket is ended exactly when Bun.connect had returned before the request settled. |
| OneShot.TimedOutStillSent | apps/bun/src/lib/client.ts:205-222 | A request timed out during the dial is still written, on a socket that is never ended. |
| OneShot.WritesAfterSettlingIff | apps/bun/src/lib/client.ts:205-227 | A settled request writes more exactly when bytes are unsent and a later open or drain finds the socket taking some. |
| OneShot.Request.Finalize | apps/bun/src/lib/client.ts:177-187 | Only the first call settles. |
| OneShot.Request.WriteChunk | apps/bun/src/lib/client.ts:205-215 | A partial write keeps the rest, a failed one keeps everything. |
| OneShot.Request.OnData | apps/bun/src/lib/client.ts:228-247 | The loop is the value form: first reply or nothing. |
| OneShot.Request.OnEnd | apps/bun/src/lib/client.ts:248-260 | Close, error, timeout and dial failure each settle with their own error, if nothing did before. |
| EventIterator.EveryEventHasOneFate | apps/bun/src/lib/wormdb.ts:361-424 | Every event is returned, dropped or queued; returned ones in order; the queue is the most recent suffix, within the limit. |
| EventIterator.EventsConserved | apps/bun/src/lib/wormdb.ts:361-376 | Arrived equals returned plus `dropped` plus queued. |
| EventIterator.DropsOnlyWhenFull | apps/bun/src/lib/wormdb.ts:368-375 | An event is dropped exactly when one arrives at a full queue, the limit being the one asked for and at least 1. |
| EventIterator.NextDecides | apps/bun/src/lib/wormdb.ts:400-412 | A turn returns the oldest event if there is one, and with none reports the end exactly when finished or closed, else parks. |
| EventIterator.LoneConsumerMissesNothing | apps/bun/src/lib/wormdb.ts:398-413 | With one consumer, a parked un-woken call means an empty queue, and the next event or return() wakes it. |
| EventIterator.WakeableIffHoldsSlot | apps/bun/src/lib/wormdb.ts:398-413 | With any number of consumers, a parked call can ever be resumed exactly when it holds the wake slot. |
| EventIterator.StrandedForever | apps/bun/src/lib/wormdb.ts:398-413 | A parked call without the slot stays parked in every run. |
| EventIterator.TwoConsumersStrand | apps/bun/src/lib/wormdb.ts:398-413 | Two consumers: one sleeps beside a queued event. |
| EventIterator.OnlyEventsAndFinishWake | apps/bun/src/lib/wormdb.ts:381-391 | Neither close() of the client nor its reopening wakes a parked call. |
| EventIterator.Iterator.Handler | apps/bun/src/lib/wormdb.ts:368-375 | Push, drop the oldest over the limit, wake. |
| EventIterator.Iterator.LoopTurn | apps/bun/src/lib/wormdb.ts:402-412 | Yields the oldest event, reports the end exactly when none is left and finished or closed, or parks. |
| EventIterator.Iterator.ResumeNext | apps/bun/src/lib/wormdb.ts:402-412 | After the promise: the slot is cleared and the loop goes round. |
| EventIterator.Iterator.FinishAll | apps/bun/src/lib/wormdb.ts:381-384 | Finished once, and the holder of the slot is woken. |
| LoadBuffers.BufferedReader.Read | bench/wire_load_bench.zig:80-106 | What is delivered comes off the front of buffered bytes and stream; nothing is delivered only at the end. |
| LoadBuffers.ReadExact | bench/wire_load_bench.zig:176-183 | Fills the destination from the front of the unread bytes; end-of-stream only if too few are left. |
| LoadBuffers.DiscardBytes | bench/wire_load_bench.zig:185-193 | Exactly the given number of unread bytes is gone. |
| LoadBuffers.ConsumeResponse | bench/wire_load_bench.zig:142-174 | On success exactly the first whole frame is gone and the verdict is that frame's; each error says why there was none. |
| LoadBuffers.CountSnoc | bench/wire_load_bench.zig:142-174 | The verdict by code and payload: all but errors, and the refused transfer of a transfer load, count as successes. |
| LoadResponses.HeaderAccepted | bench/wire_load_bench.zig:146-155 | The header check takes every response of the protocol within the cap, and of the codes other than EVENT nothing else. |
| LoadBuffers.BufferedWriter.Flush | bench/wire_load_bench.zig:131-136 | Sends the buffer, or keeps all of it after a failure that took some. |
| LoadBuffers.BufferedWriter.WriteAll | bench/wire_load_bench.zig:114-129 | Ends from any state and does what the value form says: whole blocks out, or a failed block left in the buffer. |
| LoadWriter.PutKeepsBytes | bench/wire_load_bench.zig:114-136 | While no flush fails, taken plus buffered bytes grow by the data and less than a block waits. |
| LoadWriter.PutPut | bench/wire_load_bench.zig:114-129 | Several writes are one write of their bytes. |
| LoadWriter.PutPutFails | bench/wire_load_bench.zig:114-129 | A failure in one of several writes is a failure of one write of their bytes. |
| LoadWriter.FailedWriteLeavesExtra | bench/wire_load_bench.zig:114-136 | After a failed write more is taken or buffered than had been written. |
| LoadBuffers.Ring.Push | bench/wire_load_bench.zig:356-358 | The ring is a queue: push appends. |
| LoadBuffers.Ring.Pop | bench/wire_load_bench.zig:367-369 | Pop takes the front. |
| LoadBuffers.RingCap | bench/wire_load_bench.zig:328-337 | The capacity is the largest within the in-flight limit and 256, and at least 1. |
| LoadPipeline.WriteCommand | bench/wire_load_bench.zig:266-324 | A command cut into any number of writes goes out, or fails, as one. |
| LoadPipeline.FillPipeline | bench/wire_load_bench.zig:346-359 | Every claimed operation is in the ring, in order and with the clock as read for it, or failed; without a failure each has its command written, and the ring is full unless the operations ran out. |
| LoadPipeline.TakeResponse | bench/wire_load_bench.zig:366-386 | Pops the oldest operation, consumes its frame, counts it by code and payload and stores the time since its start, in its slot only, or loses everything in flight. |
| LoadPipeline.DrainPipeline | bench/wire_load_bench.zig:366-405 | The loop ends; ring plus claims equal successes plus failures, the successes being the frames consumed that count as such; operations are answered in the order written and only theirs are stored. |
| LoadPipeline.WorkerMain | bench/wire_load_bench.zig:326-409 | The worker ends; claims equal successes plus failures on every path, the successes being the frames consumed that count as such; latencies are stored only for answered operations; without an error one whole frame was consumed per command and the stream took exactly the commands. |
| LoadPipeline.NothingLeftOver | bench/wire_load_bench.zig:614-620 | If the peer sent exactly one frame per command, nothing is left unread. |
| LoadWorkers.StepKeepsInv | bench/wire_load_bench.zig:326-456 | Every step of every worker and of the server keeps the phase invariant. |
| LoadWorkers.ClaimedOnce | bench/wire_load_bench.zig:348-349 | Over every interleaving each index below the counter and the total is claimed exactly once, no other ever. |
| LoadWorkers.LatencySlotsDistinct | bench/wire_load_bench.zig:378-381 | Latency writes hit distinct slots inside the array. |
| LoadWorkers.StoredIffAnswered | bench/wire_load_bench.zig:378-381 | A latency is stored for just the answered operations, and for none unless measured. |
| LoadWorkers.PipelineFull | bench/wire_load_bench.zig:346-401 | While operations are left and nothing has failed, a worker about to read has as many commands in flight as its ring takes. |
| LoadWorkers.BrokenIffDead | bench/wire_load_bench.zig:361-377 | The phase is flagged broken exactly when some worker had a failed flush or read. |
| LoadWorkers.ExitAccounted | bench/wire_load_bench.zig:326-409 | On every exit path a worker's claims are its successes plus failures. |
| LoadWorkers.TotalsAddUp | bench/wire_load_bench.zig:411-456 | After the join the totals are the operations handed out, the successes being the replies that count as such by code and payload; all of them exactly when the counter got that far, as one unhurt worker ensures. |
| LoadWorkers.PipelineInOrder | bench/wire_load_bench.zig:366-405 | Until a flush or read fails, the ring lists the commands awaiting a frame, oldest first, and the unread bytes are whole replies, also after a failed write. |
| LoadWorkers.PhaseHandoff | bench/wire_load_bench.zig:614-620 | A worker that ends without an error took one frame per command, the server got exactly its commands, and nothing is unread or unflushed. |
| LoadWorkers.CleanIffNothingTaken | bench/wire_load_bench.zig:352-405 | A worker that ended without a failed flush or read leaves a clean connection exactly when the stream took no byte from its first failed command write on. |
| LoadWorkers.UnbrokenIsCleanIff | bench/wire_load_bench.zig:614-620 | A phase not flagged broken leaves each connection clean exactly under that condition. |
| LoadWorkers.FailedFillIsUnclean | bench/wire_load_bench.zig:352-364 | A failed write in the fill loop always makes the flush after it send too much. |
| LoadWorkers.WriteFailureGoesUnflagged | bench/wire_load_bench.zig:352-364 | A run that ends unflagged with a cut command taken by the stream: not clean. |

## Left out

- A refinement between `LoadPipeline.WorkerMain` and a worker of `LoadWorkers`: the first takes all the peer will ever send as given, the second has it arrive in reply to commands.
- The Zig engine: store, WAL, snapshots, HNSW, RaBitQ, MMR proofs, cluster. The server is abstract.
- `WormClient` keep-alive mode and the browser `WormDB` client: both drop queue entries after a timeout without dropping the socket, so positional correlation is not theirs to promise. Only the write path of keep-alive mode is modelled.
- UTF-8, Ed25519, base64 and JSON: byte sequences or opaque functions. The wording of client-side error messages.
- Case mapping beyond what `parseCommand` needs: `upper` and `lower` are arbitrary functions, of which only `upper` on words of capitals A-Z is fixed.
- Clocks, random numbers and real sockets: steps with the stated bounds.
- `dispatchEvent`: which handlers an event reaches. It changes no connection state.
- The liveness ping, which is an ordinary STATUS request, and `connect()`, which is a wait without a request.
- Theorems.GivesUpAfterMaxAttempts: states one schedule per list of jitters; the statement over every run is `Theorems.ClosedIffDialsSpent`.
- LoadPipeline.WorkerMain: sees the other threads only in the shared counter; their interleaving is in `LoadWorkers`.
- Failure to start a thread in `runPhase`, the percentile report and argument parsing of the load generator.
- `apps/bun/src/lib/bench/runner.ts`, an easier sibling of the Zig workers; thin wrappers (KV, vectors, append log, `MemClient`, native bindings); HTTP servers, UI, Docker and scripts.
