# Verification of the SMP client

This project models the SimpleX Messaging Protocol client in `smp/` and proves what it
keeps over every run. It has three parts.

**The wire stack.** `Encoding` has the field primitives of the protocol as printing and
parsing functions, and the `Encoder` and `Decoder` objects that compute them. `Protocol` has
transmissions and counted blocks, `Commands` the commands and the server's messages,
`Transport` the padded 16384-octet blocks. Almost every parser is characterised by an
equivalence: it succeeds with a value and a remainder exactly when its input is a written
form of that value followed by that remainder. Round trips, rejection of everything else and
unambiguity follow. `WireFormat` says at which position each octet stands, in the letters and
numbers of the protocol and without the printing functions. `Stack` puts the layers together
and covers the block that `send` builds and authorizes.

**The client.** `ClientCore` has the state that the client's mutex protects, the critical
sections that change it, and the `Client` object whose methods are those sections.
`ClientMachine` runs any number of `send` and `Subscribe` calls, the reader, `Close`, and the
consumers of subscription channels in every interleaving. One step is one critical section,
one channel operation outside the lock, or one write. Channels have a capacity, contents and
a closed bit, and closing or sending to a closed channel is a fault of the state: either
`LockedFault` (under the lock, where blocking counts as well) or `CallerPanic` (outside it).
`ClientInvariant` and `ClientSafety` prove an inductive invariant of all steps. `ClientRuns`,
`ClientReplies`, `ClientSubscriptions`, `ClientPanics`, `ClientRegistration` and
`ClientOutcomes` derive what holds over whole runs, told by the steps and messages of the
run. `ClientExamples` has an ordinary run and runs on which the client misbehaves.
`ClientBytes` feeds the machine with octets and proves that it dispatches what the stream of
blocks says. The short methods of `Client` (`Register`, `Unregister`, `UnregisterSub`,
`CloseInbox`, `PushInbox`) only tie the object's fields to the functions that the machine
uses; what these steps are good for is said by the lemmas about the machine.

**Queue addresses.** `Text` has decimals, base64url without padding (section 5 of RFC 4648,
padding omitted as in section 3.2), the escaping of query strings, and their round trips.
`TextLaws` says which texts these codecs accept beyond what they write. `QueueUri` has the
printer and parser of `smp://` addresses and their round trip, and `UriGrammar` every text that
the parser accepts.

Assumptions. Every correlation identifier that `newCorrID` draws is new and not zero. A write
may succeed or fail at any time; `ReadBlock` yields a block or an error. `Authorize` is an
arbitrary function that may fail. A result and a cancelled context may both be there for a
waiting call, and either is taken.

Where the code differs from its comments, the model follows the code:

- The comment at `smp/client.go:29` says that writes are serialized by the mutex. The write
  at `smp/client.go:263` is made without it. Here a write is a step of its own that ends at
  any time, and `ClientExamples.WritesOverlap` has two calls inside their writes at once.
- `Subscribe` closes its own channel on its error paths without looking whether the reader,
  `Close` or END has closed it already. A channel can be closed twice, which panics:
  `ClientExamples.CloseDuringSubscribePanics` is such a run, and `ClientPanics.PanicExactly`
  says exactly when it happens.
- `Subscribe` deletes its key whoever holds it by then, so an open subscription can lose its
  registration: `ClientExamples.EvictionHappens` is such a run.
  `ClientRegistration.RegisteredIffOpen` says exactly when: a subscription is registered if
  and only if its inbox was not shut and no other clean-up took its key, and registered and
  open agree if and only if the latter did not happen. `ClientRegistration.EvictsExactly`
  says when a clean-up does that: exactly if its own call had lost the key before.
- `Subscribe` pushes an inline first message without a default branch, and nobody can make
  room before it returns: `ClientExamples.FloodBlocks` is a run on which it never does.
  `ClientPanics.BlocksExactly` says exactly when: if and only if at least 32 pushes were
  dispatched to the subscription before.
- `String` is said to round-trip through `ParseSMPQueueURI`. It does so, with port 0 read as
  5223, exactly for the addresses that `QueueUri.Printable` describes.

## Model

| member | source | states |
|---|---|---|
| Encoding.Encoder.Word16 | smp/encoding.go:24 | appends the big-endian form, leaves the rest of the buffer |
| Encoding.Encoder.Word32 | smp/encoding.go:25 | appends the big-endian form |
| Encoding.Encoder.Int64 | smp/encoding.go:29-32 | appends the two's complement of a signed 64-bit number, high half first |
| Encoding.Encoder.ShortString | smp/encoding.go:36-43 | appends length and octets, or fails above 255 and leaves the buffer |
| Encoding.Encoder.Large | smp/encoding.go:47-54 | appends length and octets, or fails above 65535 and leaves the buffer |
| Encoding.Encoder.Bool | smp/encoding.go:57-63 | appends T or F |
| Encoding.Encoder.Char | smp/encoding.go:65 | appends one octet |
| Encoding.Encoder.Raw | smp/encoding.go:87 | appends octets as they are (Raw and Tail) |
| Encoding.Encoder.MaybeShortString | smp/encoding.go:75-82 | appends the tag and, when present, the string; a failed string leaves the tag behind |
| Encoding.Decoder.Need | smp/encoding.go:100-107 | takes exactly n octets or fails without moving; the position never passes the end |
| Encoding.Decoder.Word16 | smp/encoding.go:109-115 | yields and consumes what ParseWord16 says, on failure too |
| Encoding.Decoder.Word32 | smp/encoding.go:117-123 | yields and consumes what ParseWord32 says |
| Encoding.Decoder.Int64 | smp/encoding.go:125-135 | yields and consumes what ParseInt64 says, also when the second half is missing |
| Encoding.Decoder.ShortString | smp/encoding.go:137-143 | yields and consumes what ParseShort says, also when the octets are missing |
| Encoding.Decoder.Large | smp/encoding.go:145-151 | yields and consumes what ParseLarge says |
| Encoding.Decoder.Bool | smp/encoding.go:153-166 | yields and consumes what ParseBool says; a bad octet is consumed |
| Encoding.Decoder.Char | smp/encoding.go:168-174 | yields and consumes one octet |
| Encoding.Decoder.Tail | smp/encoding.go:177-181 | yields everything left and ends at the end |
| Encoding.Decoder.MaybeShortString | smp/encoding.go:183-197 | yields and consumes what ParseMaybe says |
| Encoding.Int64Exact | smp/encoding.go:29-135 | the signed 64-bit code is a bijection: parsing succeeds exactly on the written form |
| Encoding.ShortExact | smp/encoding.go:36-143 | a short string is read exactly where one was written |
| Encoding.LargeExact | smp/encoding.go:47-151 | a large string is read exactly where one was written |
| Encoding.MaybeExact | smp/encoding.go:75-197 | an optional string is read exactly where one was written |
| Encoding.FieldsExact | smp/encoding.go:24-197 | for any list of field kinds, reading yields a list and a remainder exactly when that list was written before that remainder |
| Encoding.FieldsPrefixFree | smp/encoding.go:24-87 | two different field lists of the same kinds never encode alike, whatever follows |
| Protocol.EncodeCorrID | smp/protocol.go:451-458 | appends one zero octet or 0x18 and the identifier |
| Protocol.DecodeCorrID | smp/protocol.go:461-480 | yields and consumes what ParseCorr says |
| Protocol.CorrExact | smp/protocol.go:451-480 | the decoder takes the encoder's form of an identifier and the long form of zero, nothing else |
| Protocol.EncodeTransmission | smp/protocol.go:415-446 | both octet strings, or an error exactly when one of three fields exceeds 255 octets |
| Protocol.DecodeTransmission | smp/protocol.go:548-578 | the transmission of a body, with every rejection |
| Protocol.TransmissionExact | smp/protocol.go:415-578 | a body is accepted exactly when it is a written form of that transmission under that version and session |
| Protocol.AuthBytesInjective | smp/protocol.go:415-426 | authorized octets are equal exactly when session, identifier, entity and command are |
| Protocol.EncodeBlock | smp/protocol.go:493-507 | count and length-prefixed bodies, or the error of the limit that is exceeded |
| Protocol.DecodeBlock | smp/protocol.go:522-545 | the list of transmissions of a block, or the first error |
| Protocol.BlockExact | smp/protocol.go:522-545 | a block is accepted exactly when it is a count, that many length-prefixed well-formed bodies and anything after them |
| Protocol.EncodeThenDecode | smp/protocol.go:493-545 | what the encoder makes of any list decodes to that list, also with octets appended |
| Protocol.Reencode | smp/protocol.go:451-578 | re-encoding an accepted block succeeds, decodes to the same list, and is the block itself exactly when nothing trailed it and no zero identifier was spelled long |
| Commands.EncodeCommand | smp/protocol.go:197-241 | the octets of every command, with the errors of its length limits |
| Commands.CommandUnambiguous | smp/protocol.go:197-241 | for one version two commands encode alike exactly when they agree up to mode 0 being S and the flag that older versions drop |
| Commands.DecodeBrokerMsg | smp/protocol.go:247-272 | the message of the octets, with every rejection |
| Commands.DecodeIDS | smp/protocol.go:274-301 | the identifiers and, from version 9 on, the flag |
| Commands.DecodeMSG | smp/protocol.go:303-316 | the identifier and the rest as body |
| Commands.BrokerExact | smp/protocol.go:247-327 | octets decode to a message exactly when they are one of its spellings |
| Commands.ErrExact | smp/protocol.go:318-327 | an error splits at its first space and nowhere else |
| Transport.Conn.WriteBlock | smp/transport.go:188-202 | writes one padded block of 16384 octets, or nothing above 16382; a connection that breaks keeps a part of the block and fails the write |
| Transport.Conn.ReadBlock | smp/transport.go:209-226 | consumes one block and strips the padding; a short stream, a bad length or a connection that breaks within the block fails, each with what it consumed |
| Transport.UnpadExact | smp/transport.go:209-226 | unpadding yields a payload exactly when its length and octets lead the block, whatever the padding |
| Transport.StreamRoundTrip | smp/transport.go:188-226 | blocks written one after another are read back in order, and what follows stays unread |
| WireFormat.IntegerLayout | smp/encoding.go:24-32 | integers are big-endian, of 2, 4 and 8 octets, signed ones in two's complement |
| WireFormat.StringLayout | smp/encoding.go:36-82 | where the length and the octets of a string stand, and the letters of flags and options |
| WireFormat.AuthLayout | smp/protocol.go:416-426 | the octets to sign: session identifier, correlation identifier, entity, command, each at its position, at every version |
| WireFormat.WireLayout | smp/protocol.go:428-446 | the octets to send: authorization, session identifier only below version 7, then the same, each at its position |
| WireFormat.WireCarriesAuth | smp/protocol.go:415-446 | below version 7 the signed octets follow the authorization on the wire; from 7 on they do so without the session identifier |
| WireFormat.BlockLayout | smp/protocol.go:493-507 | a block has its count in the first octet, and each transmission behind its length at its offset |
| WireFormat.PadLayout | smp/transport.go:188-198 | a transport block has the length in two octets, the payload, and '#' up to 16384 octets |
| WireFormat.TagsAreText | smp/protocol.go:201-262 | the texts that commands and messages begin with |
| WireFormat.CommandSpelled | smp/protocol.go:197-241 | a command is encoded exactly if its strings are short, and then octet by octet as written here |
| Stack.SentIffFits | smp/protocol.go:415-507 | a list can be sent exactly when it has at most 255 transmissions, fields of at most 255 octets and a computed size of at most 16382 |
| Stack.SentArrives | smp/transport.go:188-226 | every list that fits survives encoding, blocking, padding, unpadding and decoding, for every version |
| Stack.BuildBlock | smp/client.go:215-252 | the block for one command, or the error of the step that failed: encoding, drawing the identifier, authorizing, or a limit |
| Stack.BuiltExactly | smp/client.go:215-252 | a block is built exactly if the command encodes, an identifier was drawn, the identifiers are short, the authorization (empty without a key) is there and short, and the size fits; and which block |
| Stack.BuildErrors | smp/client.go:215-252 | which error it is otherwise, condition by condition |
| Stack.BuiltIsAuthentic | smp/client.go:226-252 | the block decodes to one transmission with the command's octets, and the octets a receiver recomputes are those the key was given |
| Stack.AuthenticIsUnambiguous | smp/client.go:232-252 | equal authorized octets mean the same identifier, entity and transmitted command |
| ClientCore.Client.constructor | smp/client.go:67-77 | a new client is open with empty tables |
| ClientCore.Client.Dispatch | smp/client.go:177-211 | the new state of every branch, and a fault where a registered channel is closed or full |
| ClientCore.Client.DrainCommands | smp/client.go:122-126 | in any order of the map, every registered response channel gets the result and is closed; it faults exactly when one cannot |
| ClientCore.Client.DrainSubs | smp/client.go:127-130 | in any order of the map, every registered inbox is closed; it faults exactly when one is closed already or registered twice |
| ClientCore.Client.Close | smp/client.go:112-131 | the client is closed; the first call empties both tables, later calls change nothing |
| ClientCore.Client.HandleReadError | smp/client.go:158-175 | the client is closed; the first of Close and the read error empties both tables |
| ClientCore.Client.Register | smp/client.go:254-261 | registers a fresh channel of capacity 1 unless the client is closed |
| ClientCore.Client.Unregister | smp/client.go:264-282 | removes the entry and nothing else |
| ClientCore.Client.Subscribe | smp/client.go:389-400 | refuses a closed client and a taken key, else registers a fresh channel of capacity 32 |
| ClientCore.Client.UnregisterSub | smp/client.go:404-421 | removes the key whoever holds it |
| ClientCore.Client.CloseInbox | smp/client.go:407-422 | closes the channel, or panics when it is closed |
| ClientCore.Client.PushInbox | smp/client.go:414-417 | appends the message, blocks when 32 are buffered, panics when the channel is closed |
| ClientCore.Client.HandleBlock | smp/client.go:147-154 | dispatches all transmissions of a block in wire order, or none of a malformed one |
| ClientCore.Client.ReadLoop | smp/client.go:139-156 | without interference, blocks take effect one by one up to the first read error, which empties the tables, or faults exactly when they cannot be emptied |
| ClientInvariant.InitInv | smp/client.go:67-77 | the invariant holds of a new client |
| ClientInvariant.TablesCanBeDrained | smp/client.go:121-130 | in a state that satisfies the invariant, emptying the tables neither panics nor blocks |
| ClientInvariant.DispatchKeepsInv | smp/client.go:177-211 | dispatching any transmission keeps the invariant |
| ClientInvariant.DrainKeepsInv | smp/client.go:112-175 | Close and the read error keep the invariant |
| ClientInvariant.LeaveDooms | smp/client.go:403-407 | the clean-up of Subscribe removes its own key or leaves someone on that key about to panic |
| ClientSafety.ReceivesAResult | smp/client.go:271-278 | a waiting call that can receive finds exactly one result and not the zero value |
| ClientSafety.StepKeepsInv | smp/client.go:112-425 | every step keeps the invariant and faults nowhere, except Subscribe's push to or close of a closed channel |
| ClientRuns.RunKeepsInv | smp/client.go:112-425 | every run keeps the invariant up to the first caller panic, and no run ever blocks, closes twice or sends to a closed channel under the lock |
| ClientRuns.NoOrphans | smp/client.go:254-284 | a waiting caller owns its entry and an empty open channel exactly when it cannot receive, and otherwise has one result on a closed channel |
| ClientRuns.RegisteredInboxes | smp/client.go:186-202 | every registered inbox is open, holds at most 32 messages and has one key |
| ClientRuns.OwnStepsBounded | smp/client.go:215-426 | over any run, a call takes at most as many steps of its own as its rank drops |
| ClientRuns.ClosedIgnoresDispatch | smp/client.go:177-211 | on a closed client, dispatch changes nothing |
| ClientRuns.ClosesOnce | smp/client.go:116-175 | closed changes at most once, from false to true, and then both tables are empty for good |
| ClientRuns.ClosedExactly | smp/client.go:112-175 | over every run, a client is closed exactly if the run has a Close or a read error |
| ClientRuns.ClosedFinishes | smp/client.go:256-425 | on a closed client the next step of every unfinished call is enabled and lowers its rank, except exactly the push to a full inbox |
| ClientRuns.NeverStuck | smp/client.go:215-425 | in every reachable state a call has a step of its own to take exactly if it is unfinished and not at the push to a full inbox |
| ClientRuns.ReaderGoesOn | smp/client.go:139-156 | in every reachable state the reader can dispatch what it has read, or read anything, and Close can be called |
| ClientReplies.OthersSettle | smp/client.go:122-211 | what any step of others does to a call's channel and entry: nothing, or one result and the entry gone |
| ClientReplies.PutSpends | smp/client.go:122-211 | a result is put only by dispatch, Close or a read error, and never on a channel that had one |
| ClientReplies.AtMostOneResult | smp/client.go:122-211 | over any run, however many duplicates arrive, a call gets at most one result |
| ClientReplies.FirstHeardIsReturned | smp/client.go:177-285 | a call returns the failure of the step in which it gave up, if it did; else what it heard first since it registered: ERR as a server error, any other message with its identifier as a reply, or the Close or read error that closed the client before one came, or the closed client found on entry |
| ClientSubscriptions.InboxEffect | smp/client.go:127-425 | what any step does to any inbox |
| ClientSubscriptions.InboxIsQueue | smp/client.go:186-418 | over any run, an inbox is a first-in first-out queue of 32 that drops pushes only when full |
| ClientSubscriptions.QueueConserves | smp/client.go:191-198 | of such a queue, what was there and what was kept is what was taken and what is left, in order |
| ClientSubscriptions.AtMostOneInline | smp/client.go:411-418 | over any run, at most one message of an inbox is inline |
| ClientSubscriptions.InboxBooks | smp/client.go:186-418 | in any run of a new client, the kept offers are those received followed by those buffered, every other offer found 32 messages, and at most one was inline |
| ClientPanics.ShutIff | smp/client.go:127-202 | over any run, the inbox of a call that has not failed is closed exactly when Close, a read error or an END found it registered |
| ClientPanics.PanicExactly | smp/client.go:403-422 | the push and the close of Subscribe panic exactly when Close, a read error or an END found the subscription registered earlier in the run |
| ClientPanics.FailedSubscribeIsCleanedUp | smp/client.go:403-423 | after a Subscribe that failed, its inbox is closed and under no key, and it has no entry |
| ClientPanics.DoomLasts | smp/client.go:407-422 | a call about to panic stays so over any run, and its next step panics |
| ClientPanics.BlockedForGood | smp/client.go:414-417 | a Subscribe that must push into a full inbox never returns, in any further run (BlocksExactly says when that is) |
| ClientPanics.BlocksExactly | smp/client.go:186-417 | in any run of a new client, a pending inline push finds the inbox full exactly if at least 32 pushes were dispatched to it; it can go on exactly if fewer were or the inbox was shut; with fewer and not shut it puts the message last and Subscribe returns |
| ClientRegistration.KeyEffect | smp/client.go:127-421 | what any step does to the registration of any call: it is kept, shut, evicted, given up or taken |
| ClientRegistration.KeyOverRun | smp/client.go:127-421 | from any state and over any run, a subscription holds its key exactly if it may and neither of the two losses occurred, and at most one of them ever occurs |
| ClientRegistration.LostForGood | smp/client.go:186-421 | a call that lost its key never holds one again, over any run, and no push of the server reaches its inbox |
| ClientRegistration.RegisteredIffOpen | smp/client.go:186-425 | in any run of a new client, a subscription is registered exactly if its inbox was not shut and no other clean-up took its key; open exactly if not shut; the two agree exactly if it was not evicted; an eviction leaves a Subscribe on the key about to panic |
| ClientRegistration.EvictsExactly | smp/client.go:403-406 | a failing Subscribe takes the key from another holder exactly if it had lost the key itself earlier in the run |
| ClientRegistration.EvictionDooms | smp/client.go:404-407 | when that happens the victim's inbox stays open and a Subscribe on the key is about to panic |
| ClientRegistration.EvictedForGood | smp/client.go:186-406 | over every continuation of the run, the victim does not get a key back and no push reaches it |
| ClientOutcomes.RefusedExactly | smp/client.go:389-400 | in any run of a new client, Subscribe is refused as closed exactly after a Close or a read error, as already subscribed exactly if the client is open and another call holds the key, and else registers its inbox |
| ClientOutcomes.HandleExactly | smp/client.go:402-425 | the whole new state for each response: OK changes nothing and succeeds, a message goes last into the inbox, everything else and only that deletes the key |
| ClientOutcomes.CloseExactly | smp/client.go:403-423 | after that, closing the inbox is always possible and ends the call |
| ClientOutcomes.SubscribeExactly | smp/client.go:402-425 | in any run of a new client, the response that Subscribe acts on is the first thing heard unless it gave up, and it acts as above |
| ClientOutcomes.ReceivesTheOldest | smp/client.go:425 | a subscriber whose Subscribe succeeded can receive exactly if something is buffered, and gets the oldest |
| ClientExamples.CloseDuringSubscribePanics | smp/client.go:389-407 | a run of six steps that closes one channel twice |
| ClientExamples.EvictionHappens | smp/client.go:404-406 | a run on which a clean-up unregisters another subscription |
| ClientExamples.FloodBlocks | smp/client.go:186-417 | a server that pushes 32 messages before its response blocks a Subscribe for good |
| ClientExamples.WritesOverlap | smp/client.go:254-263 | a run that ends with two calls inside their writes, either of which may end next |
| ClientExamples.OkSubscribes | smp/client.go:386-425 | the ordinary run: SUB is answered OK, Subscribe returns, the subscription is registered and open |
| ClientBytes.BytesRefine | smp/client.go:139-156 | every byte-level run is a run of the client machine that ends in the same state, where a malformed block is no step |
| ClientBytes.ReadNextExactly | smp/client.go:141-151 | reading a block ends the reader exactly if its length does not fit, changes nothing if it does not decode, and else hands its transmissions to dispatch |
| ClientBytes.ByteRunsAreSafe | smp/client.go:112-284 | no octets that arrive, cut up in any way, cause a fault under the lock, break the invariant, or leave a waiting caller without an entry and without a result |
| ClientBytes.DispatchesTheStream | smp/client.go:139-156 | what was dispatched and what is still ahead is, in wire order, what the received octets say |
| ClientBytes.BlockRuns | smp/client.go:147-154 | a block read and dispatched without interference has the effect that Client.HandleBlock has |
| ClientBytes.LoopRuns | smp/client.go:139-156 | any list of blocks up to the first read error, read without interference, has the effect that Client.ReadLoop has |
| ClientBytes.ServerToClient | smp/client.go:139-156 | if the arriving octets begin the padded encodings of lists, cut anywhere, the client dispatches exactly their transmissions in order, and while its reader runs those of the whole blocks are dispatched or still ahead |
| Text.DecimalRoundTrip | smp/queue_uri.go:147-213 | decimal printing of a 16-bit number parses back |
| TextLaws.NumberExact | smp/queue_uri.go:180-214 | a 16-bit number is accepted exactly in its decimal form behind any number of zeros |
| Text.Base64RoundTrip | smp/queue_uri.go:148-154 | unpadded base64url decodes to the octets it encodes and has none of the delimiters |
| TextLaws.GroupLayout | smp/queue_uri.go:148-154 | three octets make four letters that spell the same 24 bits, and an incomplete group two or three |
| TextLaws.Base64Exact | smp/queue_uri.go:79-122 | what the decoder accepts: the letters of the encoding with free left-over bits, line breaks apart |
| TextLaws.SkipExact | smp/queue_uri.go:79-122 | line breaks and nothing else are dropped, wherever they stand |
| Text.EscapeRoundTrip | smp/queue_uri.go:146-155 | query escaping is undone by unescaping, for every octet |
| Text.QueryRoundTrip | smp/queue_uri.go:105-155 | the encoded query parses to its two items |
| TextLaws.QueryItem | smp/queue_uri.go:105 | a single item: a semicolon or a bad escape spoils it, an empty one is skipped |
| TextLaws.QueryJoin | smp/queue_uri.go:105 | two queries joined by '&' yield the items of both in order, or nothing if either is spoilt |
| TextLaws.ItemExact | smp/queue_uri.go:105 | an item is cut at its first '=' and both sides are unescaped |
| TextLaws.UnescapeRules | smp/queue_uri.go:105 | the three rules of unescaping, in front of any text |
| TextLaws.GetExact | smp/queue_uri.go:109-118 | a value is looked up by name at any position, and the first one wins |
| QueueUri.ServerExact | smp/queue_uri.go:159-199 | a server text is accepted exactly when it spells that host and port: bracketed, plain or without a port |
| QueueUri.VersionsExact | smp/queue_uri.go:201-222 | a version text is accepted exactly when it spells that ordered range or single version |
| QueueUri.ParsedIsRegular | smp/queue_uri.go:42-138 | what parses has a sender of 16 to 24 octets, a 32-octet key, an ordered range and a host without '#' and '/' |
| QueueUri.PrintThenParse | smp/queue_uri.go:42-157 | a printable address comes back, with port 0 as 5223, also with ':' or '@' in its host |
| QueueUri.RoundTripExactly | smp/queue_uri.go:42-157 | the round trip holds exactly for the printable addresses |
| QueueUri.AcceptedReparses | smp/queue_uri.go:42-157 | every accepted text, however spelled, reprints to one with the same value, exactly when its host does not start with '[' |
| QueueUri.BracketsAdmit | smp/queue_uri.go:159-173 | a bracketed text with any host free of three characters is accepted with that host; one that itself starts with '[' does not survive reprinting |
| UriGrammar.FragmentExact | smp/queue_uri.go:54-128 | the part behind '#' is accepted exactly if, with or without slash and question mark, it is a query whose first "v" spells that range and whose first "dh" decodes to that key, among any other items in any order |
| UriGrammar.PathExact | smp/queue_uri.go:60-102 | the part before '#' is accepted exactly if it is fingerprint, '@', server, '/', sender and perhaps a slash |
| UriGrammar.ParseExact | smp/queue_uri.go:42-138 | a text is accepted as an address exactly if it spells that address |
| UriGrammar.SwappedParses | smp/queue_uri.go:15-157 | a printed address with "v" before "dh", as documented, parses to the same value |
| UriGrammar.ExtraItemsParse | smp/queue_uri.go:105-122 | a printed address with further query items parses to the same value |
| UriGrammar.PrintedText | smp/queue_uri.go:141-157 | the printed address, letter by letter |

## Left out

- TLS, dialing, certificate fingerprints, deadlines and sockets of `smp/transport.go`: input and output; the padding is modelled, and a read or write may break at any octet.
- `smp/auth.go`, `smp/auth_cb.go`, `smp/dh.go`: wrappers over cryptographic libraries; `Authorize` is an arbitrary partial function.
- `smp/handshake.go`, `smp/dial.go`: the exchange ends before the client exists and shares no state with it; its outcome is the version and the session identifier, which are parameters here.
- The command-line programs under `cmd`.
- `Ping`, `Send`, `Ack` and `NewQueue`: each is one `send` and a check of the response's type.
- Error texts, wrapped errors and `ErrMsg.Error`: an error is one of the sentinel values.
- The end of `Close` at `<-c.readerDone`: whether the transport unblocks its pending read is outside this model, and so is the error that closing the transport returns.
- The randomness of `newCorrID`: that identifiers do not repeat and are not zero is assumed where calls start.
- Fairness: the bounds on a call's own steps say that it can finish, not that the scheduler lets it.
- Unknown command types, nil receivers, and the fields of a delivered message that this client never sets (time, flags, quota).
- ClientCore.Client.ReadLoop: stated for a finite list of blocks and without interference; `ClientBytes` has the reader that goes on for ever beside the callers.
- ClientCore.Client.Close: states the critical section only; a fault ends it at once, where the program would panic or hang.
- ClientCore.Client.Subscribe: states the opening critical section; the rest of Subscribe and all of send are steps of the client machine, since other goroutines run between them.
- QueueUri.AcceptedReparses: claims that the value survives, not the text; `UriGrammar.ParseExact` has all the texts of one value.
- Text.QueryRoundTrip: the limit that newer versions of the Go library put on the number of query parameters is not modelled.
- Unicode: a text is a sequence of octets written as characters.
