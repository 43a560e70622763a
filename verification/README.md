# Verification of iridium-stomp

A Dafny model of the STOMP 1.2 client library *iridium-stomp*, with proofs of
what it promises its callers. `dafny verify dfyconfig.toml` checks everything.

Two cores are modelled.

**The wire codec** (`src/parser.rs`, `src/codec.rs`, `src/frame.rs`), byte by
byte and with 64-bit indices. The parser, the escaping printer and the decoder
over its growing buffer are methods with the loops of the original, each proved
equal to a function; the theorems are about those functions. *Grammar* says what
a frame looks like on the wire without any algorithm and shows that the parser
accepts exactly that; *Refusals* says what it refuses, and that it waits only for
what can come. *Spelling*, *Spaces* and *Utf8* say the same of escapes, of the
white space around a `content-length`, and of text, each against a definition
without an algorithm; *Decoding* puts these together into what the decoder makes
of any frame of the grammar. *RoundTrip* says which frames come back from their
own encoding, *Announcing* which come back just as the caller gave them and what
the encoder adds to the others, *Stream* that a stream may be cut into chunks
anywhere, its heart-beats written as LF or CRLF.

**The connection** (`src/connection.rs`, with the end of a subscription as
`src/subscription.rs` documents it). The I/O task and any number of application
tasks share a subscription registry, a pending-acknowledgement map, an outbound
queue, a two-stage queue per subscription, a wake list, a receipt table and a
shutdown signal, and lock them in short sections that never nest. *Client* is a
transition system whose steps are those sections, interleaved in every possible
order, and the steps of a broker that reads each connection in order;
*Registry*, *Ledger*, *Wire* and *Halt* are its components, *Invariant*,
*Delivery*, *History* and *Acks* what every step keeps, and *Runs* lifts that to
runs. The results over all runs are in *Promises* (what a consumer sees, ends,
wakeups, broker errors), *Arrivals* and *Waking* (every MESSAGE that arrives is
offered to all it is for, and what is parked moves up), *Entries*, *Forgetting*,
*Calls* and *Loop* (the exact effect of every section on an entry, on what is
pending, on the outbound log and the receipt table, and where it leads; nothing
else changes them), *Traces* and *Recording* (record before deliver, from the
arrival of a MESSAGE on), *Acknowledging*, *Given* and *Conservation* (which
ACK and NACK frames are sent and what becomes of each delivery), *Closing* and
*Evidence* (receipts, `close`, and what a RECEIPT proves), *Resubscribing* and
*Shutdown*; *Races* has the runs that break a promise. *Entry*, *Pending*,
*Table* and *Receipt* are the registry entry, the pending map, the subscription
table and the receipt table as the library keeps them, updated in place, proved
against the functions the transition system is made of.

History variables say what a promise is about: a serial number for each arrived
MESSAGE, the session it came in on, the book of everything ever recorded as
pending and what became of it, what each subscription accepted and its consumer
received, a log of everything ever queued and what became of each item, which
items the broker processed, and how often the client dialled. A shutdown signal
is a message in a channel of one slot that each place that looks for it
consumes, as in the source; the task's own flag is separate.

## Where the code and its promises part

For each of these there is a lemma with a concrete input or a concrete run, and
beside it the exact condition, for all inputs or all runs.

- A body without a command line is taken back when an LF arrives behind it: a
  lone NUL is a frame until then (`Grammar.LoneNulFlips`). Verdicts are final
  exactly when an LF ends the command (`Grammar.FinalExactlyWithCommandLine`).
- A frame whose command holds a NUL cannot be cut anywhere
  (`Stream.NulCommandCut`, `Stream.CutsWaitExactly`).
- A blank line that ends in CRLF does not end the headers: it is refused as a
  header line without a colon (`Refusals.CrlfBlankRefused`), though section
  "Augmented BNF" of STOMP 1.2 lets any line end in CRLF and the other lines may.
  The parser complains of a header line exactly when a line without a colon
  stands there, behind good ones (`Refusals.MalformedExactly`).
- A frame that just fits the size bound is refused when a heart-beat is already
  in the buffer behind it, since the LF it absorbs is counted
  (`Decoding.BeatTipsFrame`); a frame is within the bound exactly when it is with
  that LF (`Decoding.CommandDecoded`, `Decoding.HeadersDecoded`).
- `Connection::ack` documents that every message of a client-mode subscription
  is recorded before it is delivered. A MESSAGE routed by destination can reach
  a subscription added between the two sections, unrecorded
  (`Races.UnrecordedDelivery`); it is recorded exactly when the subscription was
  registered at the last look-up (`Recording.RecordedIffRegistered`), which
  holds of every MESSAGE that names an id the broker was sent a SUBSCRIBE for
  (`Recording.SeenIsAccounted`).
- It also documents that on a client-mode subscription an id that is not
  outstanding sends nothing. Once the subscription has ended its mode is not
  found any more, and the id is sent as given: a second ACK for a delivery
  already acknowledged (`Races.AckedTwice`), or one that names a message of an
  earlier session after a reconnect (`Races.GivenOutlivesSession`). A call does
  so exactly when nothing it names is outstanding and the subscription was not
  registered in a client mode as that call began (`Given.SentAsGivenExactly`,
  `Given.OneBeginning`); when every call began while it was, no ACK or NACK is
  stale (`Given.RegisteredAcksAreFresh`) and no two name the same delivery
  (`Given.RegisteredAcksDiffer`).
- `Connection::close` documents that a confirmed close proves everything
  previously sent on the connection reached the broker. Frames that were handed
  to a connection that dropped, any number of them, and one whose write failed,
  are not sent again, and a DISCONNECT on the next connection is still confirmed
  (`Races.LostBeforeConfirmedClose`). It proves it of an item exactly when the
  item was written to the connection the DISCONNECT was, and not behind it
  (`Evidence.CloseShowsExactly`, `Evidence.ConfirmationsProveExactly`), so of
  everything exactly when all of it was (`Closing.ReachProvesAllExactly`), and
  for a caller whose frames were still queued, or queued, under that connection
  (`Closing.ConfirmedCloseReaches`).
- `Frame::receipt` asks that a caller's receipt id be unique. One that the
  library makes too gets another frame confirmed (`Races.ConfirmedByAnother`);
  with no such frame the confirmed one did reach the broker
  (`Closing.ConfirmedReached`, `Closing.ConfirmedCloseReaches`).
- A replayed SUBSCRIBE whose write fails is not tried again on that connection:
  the subscription stays registered on a connection that is not handed one, and
  none is to come (`Races.ReplayLost`). A registered subscription is left so
  exactly when, in this session, a failed replay write or a call dropped before
  it queued its SUBSCRIBE lost the only one there was
  (`Resubscribing.Resubscribed`).
- A shutdown signal that is sent when the check at the head of the reconnect
  loop is already passed is followed by one connect attempt
  (`Races.DialBehindSignal`), and never by more (`Shutdown.OneDialAfterSignal`).
  With two signals unread, a dropped connection is counted as a session and
  backed off from before the task exits (`Races.LagCountsSession`,
  `Shutdown.DropAfterSignal`). No signal is lost (`Shutdown.SignalNeverLost`).
- Dispatch takes the last `message-id` and `get_header` the first, so with
  repeated headers and no `ack` header `ack_frame` names a message that was
  recorded under another id (`Routing.RepeatedMessageIdMissed`,
  `Routing.AckFrameNamesRecorded`).

## Model

| member | source | states |
|---|---|---|
| Escape.UnescapeEscaped | src/codec.rs:15-27 | Unescaping undoes escaping, on every byte string |
| Escape.EscapedIsInert | src/codec.rs:8-27 | Escaped text has no CR, LF or colon, so it cannot end a name or a line |
| Escape.EscapeUnescaped | src/parser.rs:12-39 | What unescaping accepts escapes back to the same bytes if and only if it held no raw CR, LF or colon |
| Spelling.UnescapeExactly | src/parser.rs:12-39 | Unescaping a text gives a verdict if and only if the text is spelt so in raw bytes and the four escapes: what it stands for, a backslash at its end, or the first backslash with another letter behind it |
| Spelling.EscapedExactly | src/codec.rs:15-27 | The encoder spells CR, LF, colon and backslash as those escapes, with the letters of STOMP 1.2, and no other byte |
| Utf8.ValidExactly | src/codec.rs:146-182 | The check that guards commands, names and values accepts exactly the UTF-8 encodings of sequences of Unicode scalar values |
| Escape.EscapeHeaderValue | src/codec.rs:15-27 | The escaping loop computes the escape function |
| Escape.UnescapeHeaderValue | src/parser.rs:12-39 | The unescaping loop, with 64-bit indices, computes the unescape function, errors included |
| Length.LengthOfDecimal | src/parser.rs:50-66 | A length printed in decimal parses back to itself, trimming and overflow checks included |
| Spaces.SpacedNumber | src/parser.rs:50-66 | A number with any white space around it, wide characters included, announces its value, or is refused when it exceeds 64 bits |
| Spaces.AnnouncesExactly | src/parser.rs:50-66 | A value announces n if and only if it is digits worth n, perhaps behind a plus sign, with white space around them and nothing else |
| Parser.GetContentLength | src/parser.rs:50-66 | The search finds the first `content-length`, ignoring case, and judges its value |
| Parser.ParseHeaders | src/parser.rs:140-172 | The header loop on machine-word indices: no index or sum overflows on any input |
| Parser.ParseFrameSliceBounded | src/parser.rs:97-236 | The whole parser on machine-word indices computes the specified verdict for every buffer and bound |
| Grammar.ShapeReadBack | src/parser.rs:97-236 | Completeness: a frame of the grammar at the front of a buffer is read as itself, whatever follows |
| Grammar.ParsedHasShape | src/parser.rs:97-236 | Soundness: a frame the parser returns stands at the front of the buffer in the grammar's shape |
| Grammar.ParserAgreesWithGrammar | src/parser.rs:97-236 | When an LF ends the command, the parser returns (command, headers, body, n) if and only if the buffer starts with such a frame of the grammar, n counting one LF behind its NUL |
| Grammar.GrammarUnambiguous | src/parser.rs:97-236 | No buffer starts with two frames of the grammar: leading LFs, command, line ends, header lines and body are all determined |
| Grammar.VerdictStable | src/parser.rs:97-236 | A frame or an error is not revised by more input, but for the one LF a frame may still absorb |
| Grammar.BareVerdictFlips | src/parser.rs:119-138 | Every verdict on a body without a command line is taken back when an LF arrives |
| Grammar.LoneNulFlips | src/parser.rs:119-138 | The shortest case: a lone NUL is an empty frame, with an LF behind it nothing yet |
| Grammar.FinalExactlyWithCommandLine | src/parser.rs:108-138 | A verdict survives all further input if and only if an LF ended the command |
| Grammar.PrefixNeedsMore | src/parser.rs:97-236 | A cut-off frame of the grammar is never judged early unless a bare NUL ends it |
| Refusals.MalformedRefused | src/parser.rs:140-172 | A header line without a colon, behind any good lines, is refused as soon as its LF is there, with whatever behind it, and the error names it |
| Refusals.MalformedExactly | src/parser.rs:140-172 | The parser names a malformed header line if and only if the buffer starts with a command line, good header lines and that line, which has no colon |
| Refusals.CrlfBlankRefused | src/parser.rs:140-166 | The shortest blank line that ends in CRLF is refused, whatever follows |
| Refusals.LengthRefused | src/parser.rs:174-191 | A length that cannot be read or is past the bound is refused before any of the body is there |
| Refusals.NulMissing | src/parser.rs:199-207 | A body whose announced length does not end at a NUL is refused once that byte is there |
| Refusals.LongBodyRefused | src/parser.rs:218-225 | A body without a length is refused once its NUL shows that it is past the bound |
| Refusals.WaitingCanEnd | src/parser.rs:140-236 | With the command line there, the parser waits only when some further bytes make it return a frame of the grammar or refuse its length: it never waits on a bad header line |
| Decoding.CommandDecoded | src/codec.rs:124-150 | A frame of the grammar, whatever is behind it: past the bound it is refused and left in the buffer; else its bytes are taken, and a command that is not UTF-8 is refused before any header |
| Decoding.HeadersDecoded | src/codec.rs:151-192 | Then the decoder returns the frame with given headers if and only if each name and value of the lines is an escaped spelling of theirs, in UTF-8 |
| Decoding.HeaderRefused | src/codec.rs:154-182 | Otherwise the first name or value, in order, that cannot be read decides the error, and the bytes are taken |
| Decoding.DecodedIsText | src/codec.rs:145-183 | Every frame that comes out of any buffer has a UTF-8 command and UTF-8 headers |
| Decoding.MalformedStays | src/codec.rs:207-211 | On a bad header line the decoder fails with the parser's error and takes nothing |
| Decoding.LengthStays | src/codec.rs:207-211 | So it does on a bad length |
| Decoding.CutFrame | src/codec.rs:193-206 | A frame cut off behind its command line is waited for up to the bound and refused past it |
| Decoding.BeatTipsFrame | src/codec.rs:126-140 | A frame of exactly the bound is returned alone and refused with an LF behind it |
| Codec.SizeBounded | src/codec.rs:104-140 | Every decoded item takes at least one byte, every frame spans at most the bound, and a waiting decoder holds at most the bound |
| Codec.StompCodec.Encode | src/codec.rs:231-269 | The encoder appends to the buffer exactly the encoding that `Announcing` and `Stream` are about |
| Codec.StompCodec.Decode | src/codec.rs:100-213 | The decoder gives, and takes off the buffer in place, exactly what `Decoding`, `Refusals` and `Stream.BeatAtFront` say, and nothing while it waits |
| Stream.EncoderWrites | src/codec.rs:231-269 | What the encoder writes for an item is what a stream holds for it: the frame's encoding, or a bare LF |
| Stream.BeatAtFront | src/codec.rs:104-122 | LF and CRLF at the front of any buffer are a heart-beat, taken off whole and nothing behind it; a lone CR is waited on |
| RoundTrip.LengthNameEscaped | src/codec.rs:240-260 | Escaping a header name never makes or hides a `content-length` |
| RoundTrip.FrameRoundTrip | src/codec.rs:231-269 | With any bytes behind it, a frame is read back as sent if and only if its command is non-empty, has no LF and no final CR, a supplied `content-length` is true, and it fits the bound |
| Announcing.UnchangedExactly | src/codec.rs:231-269 | With any bytes behind it, a frame comes back just as the caller gave it if and only if its command can be found again, it fits, and its first `content-length` is true and holds no CR or LF, or it has none and its body is UTF-8 without a NUL |
| Announcing.LengthAdded | src/codec.rs:240-250 | Any other body of a frame without a `content-length` comes back with one header more, the last: a `content-length`, which announces the length of the body |
| Announcing.AnnouncedEscaped | src/codec.rs:252-260 | Escaping a value keeps the length it announces if and only if it holds no CR or LF |
| Stream.PrefixWaits | src/codec.rs:193-206 | Every proper prefix of an encoded frame makes the decoder wait |
| Stream.CutsWaitExactly | src/parser.rs:119-138 | A frame can be cut anywhere if and only if its command has no NUL |
| Stream.NulCommandCut | src/parser.rs:119-138 | The command `A` NUL: the first two bytes of its encoding decode as a frame with body `A` |
| Stream.DrainKeepsStream | src/codec.rs:100-213 | Draining any front part of a stream, heart-beats in either form and cut anywhere, never fails and loses no frame |
| Stream.ChunkingIndependent | src/codec.rs:100-213 | However a stream of any heart-beats, each as LF or CRLF, and of frames the two conditions above admit is cut into chunks, decoding yields the frames sent, in order, never an error, and ends with an empty buffer |
| Stream.StreamRoundTrip | src/codec.rs:100-213 | One buffer with all of it decodes to exactly the items sent, each frame absorbing one bare LF right behind it and never a CRLF |
| Frame.GetHeader | src/frame.rs:86-90 | The first value under the name, ignoring ASCII case, or nothing when there is none |
| Frame.AddReceipt | src/connection.rs:2264-2275 | The loop that replaces a caller's receipt headers computes the specified frame |
| Frame.OneReceiptHeader | src/connection.rs:2264-2275 | The frame carries exactly one receipt header, the generated one; all else is the caller's, in order |
| Routing.Dispatch | src/connection.rs:1686-1702 | The dispatch loop takes the last destination, subscription and message-id and the first ack |
| Routing.AckFrameNamesRecorded | src/connection.rs:2614-2619 | When acknowledging by frame names the recorded ack id, for every frame: with an ASCII `ack` header, when the first is the first the loop takes; with only KELVIN SIGN ones, when the first `message-id` has its value; with none, when first and last `message-id` agree |
| Routing.RepeatedMessageIdMissed | src/connection.rs:1691-1702 | Two message-id headers and no ack header: the two sides disagree |
| Lane.DrainedKeepsOrder | src/connection.rs:888-906 | A drain loses and reorders nothing, stops only at an empty queue or a full channel, and fails exactly when the receiver is gone and something was parked |
| Lane.ParkedValid | src/connection.rs:911-946 | Parking keeps the growth log in step: the threshold is the capacity times a power of two, above the depth |
| Lane.ThresholdBounded | src/connection.rs:943-945 | The doubled threshold stays within twice the depth that raised it |
| Lane.OfferRefinesFifo | src/connection.rs:967-985 | Offering a frame is the enqueue of one bounded FIFO of capacity plus limit: taken exactly when it has room, overflowed exactly when it is full, closed exactly when the receiver is gone |
| Lane.StepRefinesFifo | src/connection.rs:888-985 | Every deliver, drain and receive is one step of that FIFO |
| Lane.RunConserves | src/connection.rs:888-985 | Over any run, received then channel then overflow queue is exactly what was accepted, within max(capacity, 1) + limit frames |
| Lane.WarningsLogarithmic | src/connection.rs:911-946 | An episode with w >= 2 warnings has capacity times 2^(w-2) within the limit |
| Entry.SubscriptionEntry.DrainOverflow | src/connection.rs:888-906 | The pop, try, push-back loop on the entry's own queue and channel is the specified drain |
| Entry.SubscriptionEntry.Park | src/connection.rs:911-946 | Parking in place, with the doubling loop, is the specified parking |
| Entry.SubscriptionEntry.DeliverAndKeep | src/connection.rs:967-985 | Delivery in place is the specified offer |
| Entry.SubscriptionEntry.Serve | src/connection.rs:1796-1821 | The delivery closure on one entry: it stays exactly when it took the frame, and one failed at its limit has that recorded first, unless it had an end |
| Entry.SubscriptionEntry.DiscardParked | src/connection.rs:1581-1590 | What a reconnect does to a client-mode entry |
| Pending.PendingMap.Settle | src/connection.rs:2653-2679 | The in-place search by ack value, then by message-id, and removal, cumulative or single, with empty queues dropped |
| Pending.PendingMap.Record | src/connection.rs:1773-1781 | The loop that records one MESSAGE under several subscriptions grows exactly their queues |
| Pending.PendingMap.Sweep | src/connection.rs:1864-1869 | The retain loop keeps exactly the queues of live ids |
| Table.Subscriptions.Insert | src/connection.rs:2372-2385 | Registering files one more entry under its destination |
| Table.Subscriptions.Unsubscribe | src/connection.rs:2457-2477 | The search over all lists removes exactly the entry with the id, gives it back with its end recorded as unsubscribed, or nothing when there is none, and leaves no empty list |
| Table.Subscriptions.Deliver | src/connection.rs:1785-1848 | The retain passes, over all lists or the one of a destination, serve exactly the entries the message is routed to, append to the wake list exactly those left with something parked that were not on it, and list exactly those failed at their limit, each once |
| Table.Subscriptions.ModeOf | src/connection.rs:2632-2643 | The search for an ack mode finds the entry's, or nothing when it is not registered |
| Table.Subscriptions.AckIds | src/connection.rs:1763-1772 | Exactly the ids at a destination that acknowledge, each once |
| Table.Subscriptions.PruneParked | src/connection.rs:1011-1017 | The retain loop over the wake list, searching the table for each id, is the specified pruning |
| Table.TableRefinesRegistry | src/connection.rs:1785-1848 | Registering, unsubscribing, delivering, looking up who acknowledges, and pruning through the table are those sections of the flat registry, and the lists a delivery makes are ones its step allows |
| Receipt.PendingReceipts.Register | src/connection.rs:2249-2262 | The id is in the table, with a handle of its own, before its frame can be queued |
| Receipt.PendingReceipts.Settle | src/connection.rs:1035-1048 | The waiter leaves the table and its handle alone is told, once; a handle given up is told nothing |
| Receipt.PendingReceipts.EndWait | src/connection.rs:1139-1158 | An answer that is there is what `wait` returns, however early it came; else the id is given up |
| Registry.DeliveryReaches | src/connection.rs:1785-1848 | The pass offers the message to exactly the entries it is routed to; each takes it, is failed with its limit, or is dropped, exactly as its FIFO and receiver say |
| Registry.UnregisterKeeps | src/connection.rs:2457-2477 | Unsubscribing removes the entry after recording that the application ended it |
| Registry.FailKeeps | src/connection.rs:1871-1896 | A subscription failed at its limit is struck off the wake list and its id marked for good |
| Registry.PruneKeeps | src/connection.rs:1644-1648 | Right after pruning the wake list holds exactly the registered subscriptions with something parked |
| Registry.WakeKeeps | src/connection.rs:1998-2019 | So it does after a wake-up, whose moves are in `Waking` |
| Registry.DeliverKeeps | src/connection.rs:1785-1848 | The delivery pass keeps the registry invariant: woken ids join the wake list once, ends are recorded before entries go |
| Acks.FindNames | src/connection.rs:2656-2660 | The entry named is the first whose ack value it is, or when there is none the first whose message-id it is |
| Acks.IndividualRemovesOne | src/connection.rs:2661-2676 | An individual acknowledgement removes that entry and no other, keeping the order of the rest |
| Acks.SettleCursor | src/connection.rs:2664-2667 | A cumulative acknowledgement moves the cursor strictly forward, past the delivery it names |
| Invariant.AppKeeps | src/connection.rs:2205-2717 | Every application section keeps the client's invariant in every state that has it; its exact effects are in `Entries`, `Forgetting` and `Calls` |
| Invariant.TaskKeeps | src/connection.rs:1468-2089 | So does every section of the I/O task |
| Delivery.AppDelivered | src/connection.rs:2205-2717 | Application sections keep the recorded-before-delivered invariant |
| Delivery.TaskDelivered | src/connection.rs:1468-2089 | So do the I/O task's, the racing sections of MESSAGE handling included |
| Runs.RunSound | src/connection.rs:1468-2089 | Every state of every run has the whole invariant |
| Runs.RunFollows | src/connection.rs:1468-2089 | Along every run decided fates, answers, ends and disposed frames stay, and sessions only advance |
| Acknowledging.NoStaleAck | src/connection.rs:274-290 | A frame that acknowledges a pending delivery, written in session s, carries the ack id, under the same subscription, of a MESSAGE that was recorded in session s; frames sent as given are in `Given` |
| Acknowledging.StaleNeverWritten | src/connection.rs:2044-2052 | Once a session is over, no acknowledgement issued in it is ever written, whenever it is queued |
| Acknowledging.NothingAckedWhileDown | src/connection.rs:2681-2697 | While there is no connection, acknowledging on a client-mode subscription queues nothing |
| Acknowledging.NeverNamedTwice | src/connection.rs:2652-2712 | No two of those frames ever queued name the same delivery |
| Given.SentAsGivenExactly | src/connection.rs:2629-2708 | A call sends its id as given if and only if it finds nothing outstanding and the subscription was unregistered or `auto` at the step that began that call |
| Given.OneBeginning | src/connection.rs:2629-2644 | A call has one such step, so the condition decides |
| Given.GivenHasCall | src/connection.rs:2629-2712 | Every place in the log that holds a frame sent as given was filled by one such call: begun, settled and queued by one task, with nothing of its own in between |
| Given.EveryAckFrame | src/connection.rs:2652-2712 | Every ACK or NACK the library wrote in a session names a delivery recorded in that session, or was queued by such a call |
| Given.RegisteredAcksAreFresh | src/connection.rs:2563-2570 | When every call on a subscription began while it was registered in a client mode, each ACK or NACK for it names a recorded delivery and, when written, one recorded in that session |
| Given.RegisteredAcksDiffer | src/connection.rs:2563-2570 | Under the same condition no two of them name the same delivery |
| Acknowledging.LineWasRecorded | src/connection.rs:1739-1783 | Whatever is in the book was recorded by one step, from a MESSAGE of the session it is stamped with |
| Acknowledging.FatesAccountForPending | src/connection.rs:1739-1783 | A recorded delivery is outstanding exactly while it is in its pending queue |
| Conservation.NamedByOneFrame | src/connection.rs:2652-2712 | A delivery is named if and only if a frame naming it was or is about to be queued, or the call that named it was dropped with it; never both |
| Conservation.CoveredByNamed | src/connection.rs:2664-2667 | A delivery covered by a cumulative acknowledgement has a later one of its subscription and session that was named |
| Conservation.EveryDeliveryAccounted | src/connection.rs:1739-1783 | Conservation, at all times: a recorded delivery is pending, or named by one frame or lost with its call, or covered below a named one, or forgotten for a reason that shows (a session that is over, a subscription that is gone or let go of); exactly one of these |
| Arrivals.DroppedExactly | src/connection.rs:1704-1710 | Over every run, a MESSAGE is put down on arrival if and only if it names a subscription failed at its limit |
| Arrivals.HeldUntilPass | src/connection.rs:1712-1783 | Any other stays in hand, with its headers, serial and session, until a delivery pass, at most two of the task's sections later |
| Arrivals.PassReaches | src/connection.rs:1785-1848 | At the pass every entry it is for takes it, at the back, if its receiver is there and its two stages have room; else it leaves the registry, failed with its limit or closed. No other entry changes |
| Arrivals.ArrivedReaches | src/connection.rs:1686-1848 | From the wire to the queue, the converse of the next row: a MESSAGE that arrives is the last thing accepted, after the next pass, by every registered entry it names, or whose destination it has, with a receiver and room |
| Traces.AcceptedTraced | src/connection.rs:1686-1848 | Every message a subscription accepted came from one arrival with its headers, serial and session, over the last look-up, to a delivery pass routed to that registered subscription |
| Recording.RecordedIffRegistered | src/connection.rs:1712-1783 | A message a client-mode subscription accepted is in the book, under the ids of its headers, if and only if the subscription was registered at the last step the client looked up whom to record it for |
| Recording.SeenIsAccounted | src/connection.rs:1714-1783 | End to end: a MESSAGE with a `message-id` for an id the broker was sent a SUBSCRIBE for, once accepted, is in the book and pending, where acknowledging finds it, or named, covered, or forgotten for a listed reason |
| Recording.AckNeverSkipped | src/connection.rs:2683-2697 | On a registered subscription nobody began to drop, a message of this session it was registered in time for is pending, named or covered, never forgotten; while pending, its ids find an entry that has them, its own when no other shares its ack id |
| Acknowledging.ModeWasRead | src/connection.rs:2629-2644 | The ack mode a call acts on is the one the registry gave at the step that began that very call |
| Acknowledging.SettleTakesOne | src/connection.rs:2661-2676 | At run level: a `client-individual` acknowledgement takes out one delivery and sends its ack id |
| Acknowledging.SettleMovesPast | src/connection.rs:2661-2676 | At run level: a `client` acknowledgement moves the cursor to just past the delivery whose ack id it sends |
| Acknowledging.CursorNeverBack | src/connection.rs:2644-2679 | Within a session what is pending for a `client` subscription is the newest part of what was recorded, and never grows at the front |
| Promises.AutoInOrder | src/connection.rs:1576-1590 | An `auto` consumer sees the accepted frames in order, none lost or repeated, across any number of reconnects |
| Promises.ClientSessionsInOrder | src/connection.rs:1576-1590 | In the client modes a consumer sees, of each session, a prefix of what it accepted, sessions in order, nothing twice |
| Promises.ParkedIsCurrent | src/connection.rs:1576-1590 | While a connection is in use nothing an earlier session sent is parked for a registered client-mode subscription |
| Promises.NoLostWakeup | src/connection.rs:1812-1819 | Between any two sections every registered subscription with something parked is on the wake list, once |
| Waking.WakeUpMoves | src/connection.rs:1998-2019 | Over every run, a wake-up on a live receiver moves frames up in order, at least one if any is parked, until none is parked or the channel is full; the id stays on the wake list exactly while some are; no other subscription changes |
| Waking.WakeUpBuries | src/connection.rs:2009-2018 | One that finds the receiver gone takes the subscription off the registry, and the task's next section forgets what was pending for it |
| Waking.WakeUpReady | src/connection.rs:1998-2005 | Between two items of work such a wake-up can come for every subscription with something parked, once there is room |
| Entries.EntryMoves | src/connection.rs:1468-2717 | Over every run, what every section does to every entry: it leaves only by its owner, an ERROR too many, its limit, a receiver that is gone or the exit, the reason recorded; what is parked is discarded only then or by a reconnect in a client mode; all else is unchanged |
| Entries.NewEntries | src/connection.rs:2354-2385 | An entry appears only by a call that registers it, with its destination, mode and limit, under a fresh id, with a channel of at least one place |
| Entries.NothingTakenBack | src/connection.rs:888-985 | Over any stretch of any run what a consumer received and what its channel holds only grow, at the back |
| Promises.EndBeforeSilence | src/subscription.rs:196-201 | Off the registry with the receiver alive, the end is recorded; while registered none is; a subscription failed at its limit is never registered |
| Promises.FirstEndStays | src/connection.rs:140-144 | The first end stays, and a subscription that left the registry never returns |
| Promises.PendingOnlyForClientModes | src/connection.rs:1757-1772 | An `auto` subscription never gets a pending queue |
| Promises.SweepExact | src/connection.rs:1850-1869 | After the sweep pending queues exist only for ids registered at the delivery pass before it, and no registered subscription's queue was touched |
| Forgetting.LedgerMoves | src/connection.rs:1468-2717 | Over every run, the exact effect of every section on the pending queues and the book: what is recorded, which delivery is named and which are covered, what is forgotten and why; every other queue and line stays |
| Forgetting.UnsubscribeLeavesNothing | src/connection.rs:2478-2484 | `unsubscribe` leaves nothing pending under the id, and no line of it outstanding, before its UNSUBSCRIBE is queued |
| Loop.PassIsSwept | src/connection.rs:1850-1869 | A delivery pass of a MESSAGE with somewhere to go is followed by the sweep before the task turns to anything else |
| Acknowledging.UnsubscribeForgetsFirst | src/connection.rs:1657-1668 | When an UNSUBSCRIBE is written nothing is pending for its subscription, whatever raced |
| Calls.LogIsWhatWasSent | src/connection.rs:2205-2717 | Over every run, everything queued for the broker is what the calls sent, in the order they sent it |
| Calls.CallGoesOn | src/connection.rs:2354-2712 | Every section of a call leaves its task with what that call does next, or with nothing, and every other call as it was; an acknowledgement sends the ack id of a delivery its token names, nothing in a client mode, else the token |
| Calls.NoCallBlocks | src/connection.rs:2354-2712 | In every state a task in no call can begin any, one in a call can go on with it or be dropped where its source awaits, and a consumer can take what is there |
| Calls.WritesInTurn | src/connection.rs:1651-1669 | Queued items are taken in turn: an acknowledgement of another session is skipped, any other is written, an UNSUBSCRIBE after its pending queue is forgotten |
| Calls.SeenExactly | src/connection.rs:1592-1631 | A SUBSCRIBE for an id was handed over from the queue or by a replay, exactly for the ids seen |
| Resubscribing.Resubscribed | src/connection.rs:1592-1631 | Resubscription, over every run: for a registered subscription the connection in use was handed a SUBSCRIBE, or one is to come from the queue, its call or a replay, if and only if it is not the case that the connection is past the replay of it and, in this session, a failed replay write or a dropped call lost the only one |
| Resubscribing.ReplayedOnce | src/connection.rs:1592-1631 | No session replays a subscription twice |
| Closing.ReceiptNeverLost | src/connection.rs:2257-2262 | A receipt id is in the table, answered or given up from before its frame is queued |
| Calls.AwaitingExactly | src/connection.rs:2249-2290 | Over every run, a receipt id is in the table exactly from the call that made it until a RECEIPT or ERROR for it, a wait given up, or a send that failed |
| Calls.AnsweredExactly | src/connection.rs:1035-1048 | A handle was told an answer exactly when that answer came while its id was in the table and the handle was there |
| Calls.GivenUpExactly | src/connection.rs:1139-1158 | A handle is gone exactly when some step gave it up |
| Closing.OneAnswer | src/connection.rs:1035-1048 | A handle gets one answer, and it is kept |
| Closing.OneFramePerReceipt | src/connection.rs:2249-2275 | No two frames ever queued ask for the same receipt under an id the library made; a caller may put any id in a frame of its own |
| Closing.CloseDrains | src/connection.rs:2868-2883 | Everything queued before a frame written in session s was handed to the connection of s or an earlier one, was a stale acknowledgement, or was a write that failed as a session before s ended |
| Closing.FailedWriteIsLast | src/connection.rs:1669-1669 | A failed write is the last of its session |
| Closing.ReachProvesExactly | src/connection.rs:2868-2873 | That an item reached the broker proves the same of an earlier one if and only if both were written to the same connection |
| Closing.ReachProvesAllExactly | src/connection.rs:2868-2873 | It proves it of everything before if and only if all of that was written to the same connection |
| Closing.ConfirmedReached | src/connection.rs:1035-1048 | A confirmed receipt means a frame that asks for it reached the broker, if the broker confirms only what it processed |
| Closing.ConfirmedCloseReaches | src/connection.rs:2835-2858 | Then a confirmed DISCONNECT reached the broker, unless a frame of the caller's own with its id did; and with it everything still queued or queued under its connection before it, stale acknowledgements aside |
| Evidence.ConfirmationsProveExactly | src/connection.rs:2868-2873 | Over every run: the RECEIPTs that came prove that a written item reached the broker if and only if one was for a frame that is the item or came behind it on its connection; else some run with the same sections and RECEIPTs, against a broker just as honest, leaves the item out |
| Evidence.CloseShowsExactly | src/connection.rs:2868-2873 | The RECEIPT for a DISCONNECT whose id no frame of the caller's own has shows it of exactly the items not behind the DISCONNECT and written to its connection |
| Loop.TaskGoesOn | src/connection.rs:1468-2089 | Over every run, where the task's sections lead it, and that only the end of a session that goes to the backoff counts one |
| Loop.DialsAreChecked | src/connection.rs:1468-1483 | A connect attempt comes right behind a look for the signal that found none |
| Loop.NeverStuck | src/connection.rs:1639-2080 | In every state of every run, short of its end, the task has a section it can run; between two items of work it can write what is queued, take in anything, and take a signal |
| Loop.FailedIsMarked | src/connection.rs:1871-1896 | A subscription failed at its limit is marked before the task turns to anything else, unless telling the broker failed and ended the connection |
| Loop.MarkedExactly | src/connection.rs:1871-1896 | Only those are marked |
| Shutdown.SignalNeverLost | src/connection.rs:1639-1650 | A signal that was sent is unread, or the task is shutting down, or on its way out, whichever place consumes it |
| Shutdown.OneDialAfterSignal | src/connection.rs:1468-1483 | After a signal at most one connect attempt begins, and exactly when the check at the loop head had been passed and the task moves on |
| Shutdown.OneSessionAfterSignal | src/connection.rs:2040-2052 | After a signal at most one more session is counted, and the task stops at the backoff behind it |
| Shutdown.DropAfterSignal | src/connection.rs:2040-2052 | A drop after a signal leads to the exit if and only if the task had taken it or exactly one was unread |
| Promises.ThirdErrorEnds | src/connection.rs:1945-1989 | Over any run the first two ERRORs about a destination end nothing, and each later one ends every subscription then registered to it with its message, and no other |
| Promises.DoneMeansEnded | src/connection.rs:2081-2089 | When the task is done, everything registered as it exited has ended as connection closed, and no earlier subscription is registered |
| Races.UnrecordedDelivery | src/connection.rs:1762-1783 | A run in which a subscription gets a frame that was never recorded, and acknowledging it queues nothing |
| Races.LostBeforeConfirmedClose | src/connection.rs:1669-1669 | A run, with an honest broker, in which a frame handed over or failed as its connection drops is lost and a later DISCONNECT is still confirmed |
| Races.AckedTwice | src/connection.rs:2681-2708 | A run that queues two ACKs for one delivery |
| Races.GivenOutlivesSession | src/connection.rs:2681-2708 | A run that writes an ACK naming a message of an earlier session |
| Races.DialBehindSignal | src/connection.rs:1468-1483 | A run that dials after the signal was sent |
| Races.LagCountsSession | src/connection.rs:2040-2052 | A run that counts a session after two signals were sent |
| Races.ConfirmedByAnother | src/frame.rs:54-77 | A run in which the RECEIPT for a caller's frame confirms a frame of the library's that is still queued |
| Races.ReplayLost | src/connection.rs:1592-1631 | A run, with an honest broker, at the end of which a subscription is registered, its replay in this session failed, no SUBSCRIBE for it was handed to the connection from the queue or by the replay, and none is to come |

## Left out

- Sockets, timers, task scheduling and tracing: reads, writes, failed writes, drops, failed and finished connects are nondeterministic steps.
- Heart-beat negotiation, the watchdog and the backoff delay: timing only.
- Subscription ids, destinations and header values in the state machine are numbers that are only compared; counters do not wrap there. The codec works on bytes and 64-bit indices.
- The library takes a subscription id or receipt id from a counter just before the lock it registers it under; the model numbers them as they register, which differs by a renaming when two calls race.
- The outbound queue is unbounded in the model: waiting for room is a task not taking its step yet, and a full queue met by a dropped handle is the `sent` choice of its last section.
- SUBSCRIBE and UNSUBSCRIBE frames the I/O task writes itself (the replay after a reconnect, a subscription failed at its limit) are not in the wire log; the replay counts towards the ids the broker has seen.
- An application that sends its own SUBSCRIBE, ACK or NACK frames through `send_frame`: they are plain frames to the model. Receipt ids of the caller's own are modelled, as numbers that may be ones the library makes.
- That a broker confirms only what it has processed is an assumption of the results about confirmed receipts (`Closing.Honest`), as section "RECEIPT" of STOMP 1.2 requires; nothing else is assumed of it.
- Dropping every `Connection` handle instead of calling `close`: modelled as the shutdown signal only.
- The wake list holds a sender of each channel, so a consumer may see the end of its stream only after the next pruning; the model records when the entry goes.
- `next_frame` and what is forwarded to it, including the synthetic ERROR frames.
- Which destination an ERROR is about: text scraping and the look-up by subscription id give the abandonment step any destination.
- `Subscription`'s `unsubscribed` flag, `into_receiver` and the option builders: easy members.
- CONNECT, CONNECTED and transaction frames, `ConnectOptions`, `Display`, the command-line program and the examples.
- The texts of errors, and the lossy rendering of a malformed line: errors are values.
- Lower-casing beyond ASCII: it matters for no name the code looks for except `ack`, whose KELVIN SIGN spelling `Routing.LowersToAck` includes.
- The table's lists hold entries as values, and serve one with the function that `Entry.SubscriptionEntry.Serve` is proved against; that the entry objects are shared with their handles is not captured. The wake list holds ids, without the senders beside them.
