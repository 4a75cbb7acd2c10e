# Meeks, modelled and proved

Meeks is an end-to-end encrypted chat room in the browser with a small server. This project models the
parts of it where several things interact, and proves what they promise together:

- **History and files between browsers** (`Window`, `Convergence`, `Records`, `History`, `HistorySync`,
  `Files`, `Reassembly`, `FileSync`, `Network`). A browser exchanges only its last 1000 records on each
  connection. The abstract network of `Convergence` lets requests and the parts of answers be lost,
  repeated, delayed and mixed; `History` is the page's database, whose methods build and take in the
  packets; `HistorySync` shows that the database moves exactly as the abstract history does. File chunks
  are reassembled from any order, repetition and number of senders; `FileSync` says which files an answer
  brings. `Network` puts this together for any number of databases that receive single packets.
- **Rooms and join requests** (`StoreSpec`, `Store`, `StoreTheorems`, `StoreHistory`). `StoreSpec` says
  what each operation does to one room, `Store` is the object that does it in place, and `StoreTheorems`
  and `StoreHistory` are statements about whole runs.
- **The hub** (`HubSpec`, `HubViews`, `Hub`, `Limiter`): two indexes of the open connections, bounded
  queues, what a page learns of its room, and the rate limit.
- **The protocol of server and pages together** (`Wire`, `Browser`, `RoomClient`, `PageLaws`,
  `PageInbox`, `JoinSpec`, `JoinDesk`, `JoinNews`, `Joining`, `JoiningSteps`, `RoomSystem`, `ClaimCount`,
  `KeyAgreement`, `CutOff`, `Discovery`, `DiscoveryRuns`, `Announcements`). `Browser` says what a page
  does with each message, `RoomClient` is the page that does it in place, and `PageLaws` and `PageInbox`
  are laws about that over a page's whole life; `JoinSpec` and `Joining` are the first two for the
  server, and `JoinNews` says who is told what. `RoomSystem` runs one room: pages open, connect, are
  welcomed, send, receive, are cut off and leave, and the server reads a message, changes the store,
  composes and sends each reply as separate steps that interleave with those of every other connection.
- **Encodings, TURN bookkeeping and the connection log** (`Codec`, `CodecLaws`, `Turn`, `IpLog`).
- `Wrappers` and `Clock` are shared definitions.

Five properties are false as one might first put them, and each comes with the exact condition under
which it holds. Not every page may be cut off, or its stored key copied, without risk to the room's one
key: a page stores the key of a room it tries to create before the server confirms it, and uses it as a
member's after a reconnect (`CutOff.CutOffIsSafeIff`, `CutOff.CopyIsSafeIff`). More than ten requests of
a room can be pending (`StoreTheorems.CapHoldsIff`). A TURN login can be logged twice within the hour
(`Turn.LoggedTwiceIff`). A search of the log for a room can miss relay entries
(`IpLog.SearchIsCompleteIff`). A record with more than 200 readers does not travel with all of them
(`Records.ReadersArriveIff`), so the theorems on the convergence of databases are about records with at
most 200.

The model assumes what the code takes for granted. Connection ids, room keys and ciphertexts are fresh;
SHA-256 is injective, so a digest is the hashed text itself; AES-GCM opens only under the sealing key,
and ECDH gives both owners of two key pairs the same key. Record ids determine author and timestamp, and
timestamps are positive. One operation of the store reads the clock once, while the code reads it again
for each request it tests for expiry. Times are integers in nanoseconds. Lengths of ids, names, messages
and wraps are counted in characters, which for the ASCII texts that pages send is the byte count that the
server checks.

## Model

| member | source | states |
|---|---|---|
| Window.RecentSize | web/static/room.js:1037 | The window of a history is its last 1000 records, or all of them if there are fewer. |
| Window.WindowIsLatest | web/static/room.js:120 | No record outside the window is younger than one inside it; among records of the same moment the order of the ids decides. |
| Window.IdLessAt | web/static/room.js:120 | Ids are ordered by the first characters that differ, or by length if none do. |
| Window.RecentSandwich | web/static/room.js:1037 | Any set of records between the window of a history and the history has the same window. |
| Window.MergeAbsorbsTruncation | web/static/room.js:1051 | Truncating to the last 1000 before a merge changes nothing: only windows need to travel. |
| Window.MergeIsSemilattice | web/static/room.js:1019-1083 | Union-then-last-1000 is commutative, idempotent and associative, and equals the last 1000 of the union however it is bracketed. |
| Convergence.AskIsHonest | web/static/room.js:1037-1042 | The `since` cut-off and the listed ids never exclude a record of the final window that the asker lacks. |
| Convergence.AnswerBrings | web/static/room.js:1049-1077 | With what the asker holds, the answer to such a request brings every record of the answerer that is in the final window, and all receipts of those. |
| Convergence.Converges | web/static/room.js:1019-1083 | In every asynchronous schedule of requests and answers that travel in parts, which arrive in any order, repeatedly, late or never and mixed with whatever else clients tell each other, a client that every initial history reached shows exactly the last 1000 records of the union of all histories, with exactly the union of their receipts. |
| Convergence.PartsAreEnough | web/static/room.js:1055-1077 | An answer whose parts have all been delivered, however interleaved with anything else, brings the asker all that its sender had: no packet needs to follow another directly. |
| Convergence.WholePartLands | web/static/room.js:1049-1077 | Nothing of a part is dropped, whatever arrived before it: its receipts are for records it holds or that the asker named. |
| Convergence.TwoWaySync | web/static/room.js:1031-1083 | After each of two clients has asked and merged the reply, the second answering before or after its own merge, both show the window of the union, receipts included. |
| Convergence.NothingLostOrInvented | web/static/room.js:1019-1029 | Along every schedule a client keeps all it had and holds only records and receipts that someone had initially. |
| Records.CleanReadsLoop | web/static/room.js:991-997 | At most 200 reader entries are kept, ids clipped to 64 and names to 32 characters; a later entry for the same clipped id wins. |
| Records.CleanRecordIsClean | web/static/room.js:999-1016 | Whatever a peer sends, the stored record is within all length limits. |
| Records.CleanRecordKeeps | web/static/room.js:999-1016 | Of every field as much is kept as its limit allows; a missing name, file name, type or time gets its stand-in. |
| Records.LaterEntryWins | web/static/room.js:991-997 | Among the first 200 entries, the last one for a reader gives its name. |
| Records.RelayIsIdentity | web/static/room.js:1061-1063 | A clean record with at most 200 readers that is sent on and sanitised again arrives unchanged. |
| Records.ReadersArriveIff | web/static/room.js:991-997 | The readers of a record sent on are all there after sanitising exactly when there are at most 200. |
| Records.MergeReadsIsJoin | web/static/room.js:454-469 | On reader ids merging is a join: monotone, commutative and never adding the author; names are first-writer-wins. |
| Records.NewReadersNamed | web/static/room.js:454-469 | A new reader gets the name that came with it, and nothing else of the record changes. |
| Records.MergeReadsIdempotent | web/static/room.js:454-469 | Merging the same receipts again changes nothing. |
| History.TailIsRecent | web/static/room.js:120 | The last 1000 rows of the table sorted by time, ties in storage-key order, are the window of its records. |
| History.MessageStore.DbAll | web/static/room.js:120 | Lists every stored record once, by (ts, id). |
| History.SortByTs | web/static/room.js:120 | Stable insertion by timestamp of key-ordered rows yields the (ts, id) order and the same rows. |
| History.MessageStore.MergeReads | web/static/room.js:454-469 | Adds exactly the new readers other than the author to a stored record; reports a change only if there is one. |
| History.MessageStore.AcceptRecord | web/static/room.js:1019-1029 | Stores an unknown record sanitised, or merges the receipts of a known one; an empty id is ignored. |
| History.MessageStore.ReceiveHistory | web/static/room.js:956-958 | Accepts each record of a history packet in turn. |
| History.MessageStore.ReceiveReads | web/static/room.js:970-972 | Merges the first 1000 entries of a receipts packet in turn. |
| History.MessageStore.MakeRequest | web/static/room.js:1037-1043 | The ids sent are those of the last 1000 records, and `since` is the oldest of them exactly when there are 1000. |
| FileSync.AnswerHolds | web/static/room.js:1048-1083 | In every answer a record of the last 1000 that the asker neither listed nor cut off is sent exactly once; it has exactly one transfer if and only if it is a file with stored bytes of at most 20 MiB; the readers of a record the asker listed are sent exactly once if there are any; and nothing is sent of any other record. |
| FileSync.AnswerBringsFiles | web/static/room.js:1079-1138 | Whoever receives the metas and all chunks of an answer, in any order, repeatedly and among anything else, ends with the bytes of exactly the files it had and those transfers, and they are the sender's. |
| History.MessageStore.SendHistory | web/static/room.js:1048-1083 | The packets of an answer are those of one reading of the database, records before receipts before files, none of them empty, with the end marker last. |
| History.ListedIds | web/static/room.js:1049 | Of the ids an asker lists, the first 1001 count. |
| History.SendRecords | web/static/room.js:1055-1068 | The history batches concatenate to the wanted records in order, none of them empty; each is within an estimated 40 KiB until its last record, and all but the last exceed it with that. |
| History.SendReceipts | web/static/room.js:1071-1077 | The receipt batches concatenate to the receipts of the records the asker holds, 137 entries in each but the last. |
| HistorySync.AcceptAbs | web/static/room.js:1019-1029 | Accepting an honest record joins it and its readers into the abstract history and does nothing else. |
| HistorySync.ExchangeRefinesSync | web/static/room.js:1048-1083 | Receiving an answer moves the database exactly as the abstract merge moves the abstract history: batching, storage order, sanitising and first-writer-wins names neither lose nor add a record or a receipt. |
| HistorySync.PacketsAreOne | web/static/room.js:956-972 | Receiving the packets of an answer one by one, in the order sent, gives the same database as receiving all their records and then all their receipts. |
| HistorySync.BrowsersAgree | web/static/room.js:1035-1083 | Two databases that exchange requests and packets show the same window, that of the union, in either order of answering. |
| Network.DatabasesConverge | web/static/room.js:945-978 | Any number of browsers ask, answer and relay messages, receipts and files; every packet and every piece of a file is received on its own, in any order, repeatedly or never. A browser reached by all initial databases through answers of which it received every packet shows exactly the window of their union, with all its receipts. |
| Network.DatabasesKeep | web/static/room.js:945-978 | Along every such run a database keeps the records and receipts it had, holds none that no browser had, and stays fit to be sent on. |
| Network.PacketDb | web/static/room.js:956-972 | One packet, whenever it arrives, changes the database exactly as the abstract merge of the records and receipts it holds. |
| Network.MetaKeeps | web/static/room.js:1098-1109 | The meta packet of a file adds its record with its readers if it was unknown, and changes no record or receipt otherwise, even when it completes the file. |
| Network.FinishKeeps | web/static/room.js:1128-1138 | Finishing a download changes neither the records nor the receipts a database stands for. |
| Files.SendFile | web/static/room.js:1087-1096 | Sends the meta with the chunk count, then every chunk in order; the last may be short, an empty file has one empty chunk. |
| Files.ChunksMakeTheFile | web/static/room.js:1089-1094 | The chunks concatenate to the file. |
| Files.ChunkSizes | web/static/room.js:1091-1094 | Every chunk but the last has 60 KiB. |
| Files.CapNeverTruncates | web/static/room.js:1102 | The receiver's cap on the chunk count leaves the count of every file of up to 100 MiB as it is. |
| Files.CapBounds | web/static/room.js:1102 | Whatever count a sender gives, a receiver waits for at most one chunk more than a file of 100 MiB has. |
| Files.ChunkIgnored | web/static/room.js:1111-1122 | A slot is filled once, a chunk beyond the count is dropped, and a chunk of a stored file opens no download. |
| Files.Downloads.OnFileMeta | web/static/room.js:1098-1109 | Remembers the meta (the stored record if there is one) and the capped count, stores the record if new, ignores a file already held, and finishes if all parts are there. |
| Files.Downloads.OnFileChunk | web/static/room.js:1111-1126 | Fills a slot once, opening it if the chunk overtook its meta, and ignores chunks out of range, repeated, or of a file already held. |
| Files.Downloads.MaybeFinish | web/static/room.js:1128-1138 | When as many slots are filled as the meta says, stores the record with the parts in order and the readers merged meanwhile, and forgets the download. |
| Reassembly.CompletesExactly | web/static/room.js:1098-1138 | After any honest deliveries, a file is stored exactly when its meta and all its distinct chunks are among them, and then as their concatenation. |
| Reassembly.ProgressIsExact | web/static/room.js:1120-1124 | Until then `got` is the number of distinct chunks received and every filled slot holds the right slice. |
| Reassembly.FilesArriveIntact | web/static/room.js:1087-1138 | Files of up to 100 MiB sent any number of times by any number of senders, in any order, with receipts and records arriving in between, arrive byte for byte exactly when all their packets have. |
| Reassembly.FinishAddsOnlyTheBlob | web/static/room.js:1128-1137 | Finishing a download changes nothing of the record but its bytes. |
| Reassembly.ReceiptsSurvive | web/static/room.js:1133-1136 | No file packet, finishing included, loses or invents a receipt. |
| Codec.Base64RoundTrip | web/static/crypto.js:12-26 | Decoding what b64u wrote gives the bytes back for every byte sequence, and its length is ceil(4n/3). |
| Codec.B64u | web/static/crypto.js:12-18 | Encodes to the unpadded URL-safe text of its argument (sections 3.2 and 5 of RFC 4648). |
| Codec.FromB64u | web/static/crypto.js:20-26 | Decodes by translating the alphabet and padding to a multiple of four, failing where atob fails. |
| Codec.B64uIsUrlText | web/static/crypto.js:17 | The text has no padding and no plus or slash: the URL-safe digits of the bytes. |
| CodecLaws.GroupBits | web/static/crypto.js:12-18 | Three bytes and the four digits they are encoded in are the same 24 bits, most significant first. |
| CodecLaws.TailBits | web/static/crypto.js:12-18 | A last byte, or two, is padded with zero bits on the right. |
| CodecLaws.AlphabetIs | web/static/crypto.js:12-26 | Digits are written as capital letters, small letters, figures, and the two characters in which the alphabets differ. |
| CodecLaws.Foobar | web/static/crypto.js:12-18 | The test vectors for "f", "fo" and "foobar" of section 10 of RFC 4648, unpadded. |
| CodecLaws.BlanksAreSkipped | web/static/crypto.js:20-26 | The browser's decoder skips blanks, tabs, line breaks and form feeds; the server's skips line breaks alone. |
| CodecLaws.OthersAreRefused | web/static/crypto.js:20-26 | Both decoders refuse every other character outside their alphabets. |
| CodecLaws.ValidPubIsUrlText | internal/store/store.go:360-363 | Line breaks apart, a public key that the server accepts is written in the URL-safe alphabet. |
| Codec.EncodedPointIsValid | internal/store/store.go:360-363 | Every 65-byte point starting with 4 passes the server's check after encoding. |
| Codec.Pack | web/static/crypto.js:83-91 | Writes the four-byte big-endian header length, the header and the body into one buffer. |
| Codec.FramingRoundTrip | web/static/crypto.js:83-98 | Unpacking what pack wrote gives header and body back exactly when the header is shorter than 2^32 bytes. |
| CodecLaws.FrameLayout | web/static/crypto.js:83-91 | A packet starts with the header's length, most significant byte first, then the header, then the body. |
| CodecLaws.SealLayout | web/static/crypto.js:110-118 | A sealed message is a 1, twelve bytes drawn for it, and the ciphertext of the packet. |
| CodecLaws.OtherVersions | web/static/crypto.js:120-125 | A message that does not start with a 1 does not open. |
| Codec.SealOpens | web/static/crypto.js:101-118 | A sealed message opens with its key to its header and body, and with no other key, for any ideal authenticated cipher. |
| Codec.IdealCipherExists | web/static/crypto.js:101-118 | A cipher that meets the hypothesis of that statement. |
| Store.Store.Claim | internal/store/store.go:130-153 | Registers a room, refuses a second creation, refreshes activity and adopts the first valid inbox key; one room changes and the state file holds the result. |
| Store.StepIsLocal | internal/store/store.go:119-319 | An operation leaves every other room as it was, and its own as specified. |
| StoreHistory.RequestIsItsHistory | internal/store/store.go:166-283 | Over every run of one incarnation a request holds, and holds only, what the operations that succeeded on it brought: its messages are those it began with followed, in order and each once, by id, text and time of the messages answered with success; its verdict is the one accepted, with that key and wrap; its name is the last one given while it was pending; its time is that of the last success. |
| StoreHistory.RoomIsItsHistory | internal/store/store.go:130-153 | Over every run without a purge of the room it keeps its age and the first valid inbox key claimed, and was active when last claimed. |
| StoreHistory.SubmitAnswers | internal/store/store.go:207-247 | An application with an invalid key or to an unknown room is turned away; one whose request is not forgotten, after a day if rejected and seven otherwise, is told about it; otherwise a new request is filed unless ten are waiting. |
| StoreHistory.MessageAnswers | internal/store/store.go:166-185 | A message is accepted exactly if id and text have a legal length, the request is pending and it has fewer than 20; otherwise the answer says why and nothing changes. |
| StoreHistory.VerdictAnswers | internal/store/store.go:256-283 | A verdict is accepted exactly if key and wrap are legal and the request is pending; otherwise the answer says why and nothing changes. |
| StoreHistory.ClaimAnswers | internal/store/store.go:130-153 | A claim is refused exactly if it asks to create a room there is; the first creates it, and no claim touches a request. |
| StoreHistory.FiledAs | internal/store/store.go:240-247 | A new request holds the name, cut to 32 characters or replaced if missing, the key and the time, and nothing else yet. |
| StoreHistory.ListedIff | internal/store/store.go:188-203 | The pending list is of exactly the requests that are pending and were touched within seven days. |
| StoreHistory.PurgeEnds | internal/store/store.go:298-319 | A purge removes a room exactly if it was inactive for longer than the retention, and otherwise exactly its forgotten requests. |
| Store.Store.Submit | internal/store/store.go:207-247 | Creates, refreshes or refuses a join request as specified for its room; other rooms are unchanged and the state file holds the result. |
| Store.Store.AddMessage | internal/store/store.go:166-185 | Does to its room what a message does, to no other, and writes the state file; what that is over a run says StoreHistory.RequestIsItsHistory. |
| Store.Store.Decide | internal/store/store.go:256-283 | Approves or rejects a pending request, or reports the specific error and changes nothing. |
| Store.Store.Done | internal/store/store.go:286-295 | Removes an approved request and nothing else. |
| Store.Store.Pending | internal/store/store.go:188-203 | Lists each live pending request of the room once, oldest first. |
| Store.InsertByAge | internal/store/store.go:201 | Inserting a request into a list by age keeps it sorted, without repetition, with exactly that request more. |
| Store.RoomEntry.CountPending | internal/store/store.go:234-239 | Counts the live pending requests. |
| Store.Store.GetInboxPub | internal/store/store.go:156-163 | The registered inbox key, or nothing for an unknown room. |
| Store.Store.RoomExists | internal/store/store.go:119-123 | Whether the room is registered. |
| Store.Store.Purge | internal/store/store.go:298-319 | Every room is gone if inactive beyond the retention, and otherwise has lost exactly its expired requests; the state file holds the result. |
| Store.Store.Save | internal/store/store.go:344-358 | The state file holds all rooms and requests as they are, and nothing in memory changes. |
| StoreTheorems.RunKeepsGood | internal/store/store.go:207-283 | Along every run each request is filed under the hash of its public key, has an approver key and a wrap exactly when approved, and has at most 20 messages. |
| StoreTheorems.IncarnationEvolves | internal/store/store.go:166-283 | During one incarnation of a request identity and age never change, messages are append-only while pending and frozen afterwards, and a verdict with its key and wrap is final. |
| StoreTheorems.DecidedAtMostOnce | internal/store/store.go:271-283 | Each incarnation of a request accepts at most one verdict, and is decided at the end exactly if it accepted one or was decided before. |
| StoreTheorems.StepEvolves | internal/store/store.go:207-295 | The only step that changes a present request otherwise replaces an expired one by a new application. |
| StoreTheorems.RemovalCauses | internal/store/store.go:286-319 | A request disappears exactly when done after approval, or purged because it or its room expired. |
| StoreTheorems.PendingCap | internal/store/store.go:226-244 | In every run with a monotone clock in which messages reach only unexpired requests, a room never has more than 10 live pending requests. |
| StoreTheorems.LateMessageBreaksCap | internal/store/store.go:172-183 | A message to an expired, unpurged request breaks the cap exactly when it is accepted while the room already has 10. |
| StoreTheorems.CapHoldsIff | internal/store/store.go:166-247 | Along every run with a monotone clock, at most 10 requests are pending and live after every operation exactly when no message to an expired request is accepted while 10 are. |
| StoreTheorems.CapCanBreak | internal/store/store.go:172-183 | A monotone run from an empty store after which more than ten requests are pending and live: the cap does not hold without the condition on messages. |
| StoreTheorems.PurgeUnobservable | internal/store/store.go:298-319 | Purging at arbitrary times changes no answer of any run whose operations act on rooms within retention and, for messages and verdicts, on unexpired requests. |
| StoreTheorems.StepUnobservable | internal/store/store.go:130-319 | One operation in time answers alike on a purged and an unpurged room and leaves them alike up to purging. |
| StoreTheorems.VerdictSeesPurge | internal/store/store.go:275-277 | A well-formed verdict tells a purged room from an unpurged one exactly when it addresses a pending request that was purged. |
| StoreTheorems.DecisionsEndure | internal/store/store.go:224-233 | After a verdict every submission by that key is answered with the same status, approver key and wrap as long as each attempt comes within 24 hours (rejected) or 7 days (approved) of the verdict or the attempt before, across every interleaving with purges and other applicants. |
| StoreTheorems.DecisionLapses | internal/store/store.go:226-244 | The first attempt is treated as a new application exactly when it comes later than that. |
| Hub.Hub.constructor | internal/signaling/hub.go:133-138 | A new hub has no connections; a cap of zero or less means 16. |
| HubSpec.UndroppedGetsAll | internal/signaling/hub.go:265-271 | Of a connection, what its writer took and what still waits is everything ever enqueued, in order, unless it is marked to be dropped; it is marked exactly if some message found 512 waiting. |
| HubSpec.JoinTells | internal/signaling/hub.go:273-292 | A newcomer starts with an empty queue, and everyone in its room gains exactly one notice of it, everyone elsewhere nothing. |
| HubSpec.LeaveTells | internal/signaling/hub.go:294-308 | Everyone left in the room gains exactly one notice of a leaving connection, everyone elsewhere nothing. |
| HubSpec.ForwardTells | internal/signaling/hub.go:311-326 | A message passed on is gained by exactly those in the sender's room that it names, or by all others there if it names none. |
| HubSpec.RoomTells | internal/signaling/join.go:149-175 | A message to a room, or to the applicants of a request in it, is gained by exactly those. |
| HubSpec.SpaceIff | internal/signaling/hub.go:281-283 | There is space in a room exactly while fewer connections than the cap are in it. |
| Hub.Hub.Join | internal/signaling/hub.go:273-292 | A full room refuses; otherwise the others get exactly one notice each, their ids are returned, and the newcomer is filed in both indexes. |
| Hub.Hub.Leave | internal/signaling/hub.go:294-308 | The connection leaves both indexes, an emptied room goes, and each remaining member gets one notice. |
| Hub.Hub.Forward | internal/signaling/hub.go:311-326 | One copy to exactly the intended other members of the sender's room, each of which takes it or is dropped. |
| Hub.Hub.ToRoom | internal/signaling/join.go:149-155 | One copy to every member of a room. |
| Hub.Hub.ToApplicant | internal/signaling/join.go:166-175 | One copy to exactly the connections that submitted the request. |
| Hub.Hub.Connected | internal/signaling/hub.go:330-334 | Whether a connection with this id is open. |
| Hub.Hub.RoomCount | internal/signaling/hub.go:337-341 | The number of rooms that have a connection. |
| Hub.Hub.IndexesAgree | internal/signaling/hub.go:85-88 | In every state the methods can reach, the rooms listed are those of the open connections, each room's map holds exactly its members, and there are between 1 and the cap of them. |
| Hub.AgreeAdded | internal/signaling/hub.go:276-290 | Filing a connection with a new id in a room below its cap keeps the two indexes in agreement. |
| Hub.AgreeRemoved | internal/signaling/hub.go:297-303 | Taking a connection out, with its room when emptied, keeps the two indexes in agreement. |
| HubViews.MembershipView | internal/signaling/hub.go:164-183 | In every reachable state, a connection that is not being dropped and whose welcome is enqueued will see, by folding its messages, exactly the other members of its room and those of its join-time list that left before the welcome was enqueued. |
| HubViews.StepKeepsBooks | internal/signaling/hub.go:265-326 | Each step of the hub, whatever it tells to whom, keeps that correspondence for every connection. |
| HubViews.GhostMember | internal/signaling/hub.go:164-183 | A run after which a page, alone in its room, lists a member that left between its join and its welcome. |
| Limiter.ReadLoop | internal/signaling/hub.go:192-211 | Handles exactly the text frames before the fixed-window limit is broken; other frames are skipped uncounted. |
| Limiter.SlidingBound | internal/signaling/hub.go:192-211 | On every run with a monotone clock, every closed interval of one second holds at most 2000 accepted text messages and 32 MiB of their payload. |
| Limiter.WindowAccepts | internal/signaling/hub.go:192-211 | Within a window the next n text frames are handled exactly if with them it has at most 1000 messages and 16 MiB. |
| Limiter.NewWindow | internal/signaling/hub.go:197-200 | A text frame a second or more after its window began opens a new one, whatever came before. |
| Limiter.AcceptedIsPrefix | internal/signaling/hub.go:192-211 | Only text frames are handled, in order, and none is left out before the last one handled. |
| Limiter.BoundIsReached | internal/signaling/hub.go:203-208 | A run with 2000 accepted messages a nanosecond apart: no smaller bound holds. |
| Browser.AnnouncesEach | web/static/room.js:224 | A confirmed page announcing to a list ends having announced to all of it, and sends exactly the announcements that were missing, each once. |
| Browser.CardsFollowTheList | web/static/room.js:347-366 | A confirmed member's cards are exactly the requests last listed, those already shown kept as they were; any other page shows none. |
| PageLaws.OnceForEachPeer | web/static/room.js:236-246 | Over everything a page may live through, it announces itself to a peer, and sends it the first signal, at most once more than it is told that the peer left or loses its connection; between two such moments, once exactly if it comes to remember the peer. |
| PageLaws.PeersIffSameKey | web/static/room.js:242-246 | When one page announces its key and the other answers, each makes a peer of the other exactly if they hold the same key. |
| PageLaws.PeerIffOpens | web/static/room.js:898-919 | A sealed message makes its sender a peer exactly if it opens under the page's key. |
| PageLaws.KeyEndures | web/static/room.js:183-221 | A key, once held, stays until a claim of the page is refused, through reconnects and everything else. |
| PageLaws.KeyHasSource | web/static/room.js:201-289 | A page only ever holds the key it opened with, one it drew for a room that the server did not know, or one that came out of an approval sealed for it. |
| PageLaws.ConfirmedByTheServer | web/static/room.js:835-840 | A page counts as a member only if the server accepted a claim since it was last connected anew. |
| PageLaws.CreateOrApply | web/static/room.js:854-866 | A page without a key creates the room, with the key it drew, exactly if there was no room when it was greeted nor when its claim was read; otherwise it ends without a key and applies to join. |
| PageLaws.OpenedIsGreeted | web/static/room.js:854-866 | A page as it opens, once greeted, claims with the key it stored before; without one it creates an unknown room and applies to a known one. |
| PageLaws.ReconnectReclaims | web/static/room.js:835-866 | A page with a key that lost its connection claims with it, is accepted in every state of the room, keeps the key, and announces it exactly once to each member listed and to nobody else. |
| PageLaws.ApprovalRoundTrip | web/static/room.js:257-289 | A member approves a request: the store records the verdict, the applicant ends with the member's key and, exactly if the member's inbox key is the one the room registered, with that, reports done and claims; any other page ignores the same message; and the report removes this request and nothing else. |
| PageInbox.ApprovedCanRead | web/static/room.js:400-405 | An applicant whose approver can read applicants' messages can too once its claim is answered, with the same key and inbox key. |
| PageInbox.ApprovedRegisters | web/static/room.js:225-231 | One approved without an inbox key into a room that has none draws one, registers it and can then read. |
| PageInbox.ConfirmedInbox | web/static/room.js:225-233 | A confirmed page learns the room's inbox key; where there is none and it never tried before it registers its own, drawing one if needed, and clears its cards if it is new; otherwise it claims nothing and shows the requests listed. |
| PageInbox.ListedInbox | web/static/room.js:882-888 | A list of requests tells a page with a key the inbox key it names and redraws its cards; nothing is written. |
| PageInbox.HelloInbox | web/static/room.js:944-950 | A page that cannot read takes over the inbox key of a hello exactly if it is the one the room registered, claims with it and clears its cards. |
| PageInbox.KnowsTheRoomsInbox | web/static/room.js:225-233 | At every moment the inbox key a page takes for the room's is the one last named to it. |
| PageInbox.TheServerIsTold | web/static/room.js:165-210 | At every moment of a page's life the last claim it wrote named the inbox key it holds. |
| PageInbox.InboxHasSource | web/static/room.js:165-210 | A page only ever holds the inbox key it opened with, one it drew, one from an approval, or one from a hello. |
| PageInbox.OpenedRegistersOnce | web/static/room.js:157 | However often it reconnects, a page registers an inbox key of its own at most once in its life, and does so exactly if it is ever confirmed in a room without one. |
| PageInbox.CardsStay | web/static/room.js:835-840 | Cards change only with a confirmation, a new list or a hello: a lost connection leaves them. |
| PageLaws.LeaveUndoesJoin | web/static/room.js:867-875 | A page told that someone joined and then left is as before. |
| RoomClient.RoomPage.AnnounceAll | web/static/room.js:224 | Announces to each of a list in turn. |
| RoomClient.RoomPage.RenderRequests | web/static/room.js:347-366 | Drops cards no longer listed and adds the new ones. |
| Joining.Server.HandleClaim | internal/signaling/join.go:46-61 | Store, connections and replies end as specified for a claim: the answer with the pending list if accepted, and news to the room if it just got its inbox key. |
| JoinNews.NewsIsTold | internal/signaling/join.go:43-175 | For each kind of join message, exactly who gains which messages with which contents: after an application its sender the state of the request and, while it is pending, everyone in the room a list with it; after an accepted verdict every connection marked with the request its new state and everyone a list without it; after an accepted message everyone in the room that message; after a claim its sender the answer, and everyone the list if the room just got its inbox key; nobody else anything. |
| Joining.Server.HandleAsk | internal/signaling/join.go:63-85 | The submission is stored or refused, the connection is marked, the applicant is answered and members are told of a pending request. |
| Joining.Server.HandleVerdict | internal/signaling/join.go:87-106 | Nothing happens on a connection with a request of its own; otherwise an accepted verdict reaches the applicant and the room. |
| Joining.Server.HandlePost | internal/signaling/join.go:108-124 | Only members and the applicant itself may write; the message goes to the room or the error back. |
| Joining.Server.HandleDone | internal/signaling/join.go:126-139 | Clears the connection's own request and removes it from the store; any other id does nothing. |
| Joining.Server.HandleJoin | internal/signaling/join.go:43-141 | Each of the message kinds changes store and connections as specified, in order, quoting the pending requests as they are; everyone concerned gains exactly the messages of JoinNews.Told; other rooms of the store are unchanged. |
| JoiningSteps.HandlingIsARun | internal/signaling/join.go:43-141 | Whatever the handler does for a message is a run of the interleaved steps with nothing in between, so what holds of all runs holds of it. |
| JoinSpec.OnlyMembersDecide | internal/signaling/join.go:87-104 | Handling a message decides a request only if it is an approve or reject of that request on a connection without one of its own. |
| RoomSystem.MembersDecide | internal/signaling/join.go:87-104 | In every step of every run a request is decided only by an approve or reject read on a connection that has no request of its own. |
| RoomSystem.OwnLoopFilesRequest | internal/signaling/join.go:73-75 | Whether a connection has a request is written by its own read loop alone. |
| KeyAgreement.KeysAgree | web/static/room.js:201-233 | In every run in which no page holding a key that is not the room's is cut off or copied and the room is not purged, all confirmed pages hold the winner's key, and every stored approval opens, for the owner of the request's key, to it. |
| KeyAgreement.StepKeeps | web/static/room.js:201-405 | Every step of server, network and pages keeps the invariant behind that: what a page without the room's key has under way, whose key each wrap holds, and which requests are quoted. |
| KeyAgreement.WinnerIsTheCreator | internal/store/store.go:130-153 | The winner is the page whose create claim the store took when there was no room, and stays the winner. |
| CutOff.CutOffIsSafeIff | web/static/room.js:201-204 | When everything else stays careful, cutting a page off is safe exactly when it has no key or the room's: otherwise, whether the room is decided or not and however full it is, some run of the server, the other pages and at most one newcomer ends with the page confirmed with a key that is not the room's. |
| CutOff.CopyIsSafeIff | web/static/room.js:191-198 | Opening another page of the same browser with the key a page stored is safe under exactly the same condition. |
| CutOff.SettledPageIsSafe | web/static/room.js:207-221 | A page that has no key, or no claim to create unanswered, may always be cut off and its key copied. |
| KeyAgreement.DecideKeepsHeld | internal/store/store.go:271-283 | A verdict on a well-formed room leaves every approval handing over the winner's key. |
| DiscoveryRuns.MembersDiscoverEachOther | web/static/room.js:224-246 | In every run, two connected members with the same key that are not being dropped have a peer for each other once no notice of one, and no announcement or signal between the two, is under way to the other; whatever else is on its way to them or from them does not matter. |
| DiscoveryRuns.StepKeeps | web/static/room.js:772-926 | Every step keeps, for every two live connections, that each knows the other or is about to, that one of two announcements lands, and that a peer on one side has one on the other or the message that makes it. |
| Discovery.EffectOf | web/static/room.js:852-926 | What a message does to a page: it forgets nobody who has not left, keeps a confirmed key, and writes to whomever it newly announces itself to or makes a peer. |
| Discovery.PageHandles | web/static/room.js:212-289 | Handling a message keeps the connection good: one create claim at a time, answers after the welcome, and a confirmed page announced to everyone it knows. |
| Discovery.FirstHandles | web/static/room.js:242-246 | Handling a message keeps the relation between two pages. |
| Announcements.OneAnnouncementEach | web/static/room.js:236-240 | In every run each connection announces itself to each other at most once: not twice in one answer, and never again later. |
| Announcements.LeftStep | internal/signaling/hub.go:294-326 | In every run nothing from or about a member follows the notice of its leaving. |
| Turn.PeerOfCredential | internal/turnserver/turnserver.go:176-180 | The peer ID of a credential's username is found again, whatever it contains. |
| Turn.Server.QuotaHandler | internal/turnserver/turnserver.go:116-123 | A relay is allowed within both caps; a cap of zero or less is none. |
| Turn.DeletionUndoesCreation | internal/turnserver/turnserver.go:125-139 | A relay that ends leaves the counters, and the set of peers counted, as if it had never been made. |
| Turn.Accounting | internal/turnserver/turnserver.go:116-140 | In every run in which each deletion matches a creation, the total is the sum of the counters, the counters kept are positive and count exactly the live relays, and with at most k handlers between check and report a cap is exceeded by at most k - 1. |
| Turn.RefusedIff | internal/turnserver/turnserver.go:116-123 | In every run a check is refused exactly when the live relays of all, or of this peer, have reached a positive cap. |
| Turn.CapIsExceeded | internal/turnserver/turnserver.go:116-130 | k handlers that check while one place is left all get a relay: the excess of k - 1 occurs for the total cap and for the cap of one peer. |
| Turn.Server.LogAuth | internal/turnserver/turnserver.go:188-207 | Writes a line exactly if the key was not logged within the hour, and prunes when more than 10000 keys are held. |
| Turn.Server.Prune | internal/turnserver/turnserver.go:200-206 | Pruning keeps exactly the keys logged less than an hour ago. |
| Turn.LoggedHourly | internal/turnserver/turnserver.go:192-207 | Two lines for one key are at least an hour minus the clock skew apart; with readings in lock order, an hour. |
| Turn.LoggedAgainIff | internal/turnserver/turnserver.go:192-207 | After its last line a key is logged again exactly when an hour has passed by the clock readings, or if a call in between, an hour later by its own reading, wrote a line and found more than 10000 keys. |
| Turn.FirstIsLogged | internal/turnserver/turnserver.go:192-207 | The first call of a key always writes a line. |
| Turn.LoggedTwiceIff | internal/turnserver/turnserver.go:192-207 | Within the hour after its last line a key is logged again exactly if some call in between, an hour later by its own clock reading, wrote a line and found more than 10000 keys; nothing is assumed of the clock readings. |
| Turn.SkewLogsTwice | internal/turnserver/turnserver.go:193-206 | A run from the empty map, with clock readings out of order by one nanosecond, in which one key is logged twice within the hour: the bound above is reached. |
| IpLog.Logger.Log | internal/iplog/iplog.go:78-109 | Appends the entry to the flat log by appending it to the file of its UTC day; an entry without time gets the current one. |
| IpLog.Logger.Purge | internal/iplog/iplog.go:112-136 | An entry stays exactly if the end of its UTC day is within the retention. |
| IpLog.FoundIsAskedFor | internal/iplog/iplog.go:197-246 | An entry is returned as often as it was logged if its time is in the interval, its address is the one asked for and, where a room is asked for, it is of that room or of a peer with an entry of that room on a day the interval touches; and otherwise not at all. |
| IpLog.Logger.Search | internal/iplog/iplog.go:197-246 | Returns exactly those entries of the flat log, each as often as it was logged. |
| IpLog.SearchIsScan | internal/iplog/iplog.go:207-244 | Skipping files skips no match: the result is the scan of all files, a room's peers being those seen joining in the files read; without a room it is the plain scan. |
| IpLog.SearchIsCompleteIff | internal/iplog/iplog.go:207-244 | The result is what a scan of the whole log would find exactly when every entry asked for, of a peer that ever joined the room, has an entry of that peer joining it on a day that the interval of the query touches. |
| IpLog.SearchMissesLateRelay | internal/iplog/iplog.go:207-227 | A log and a query for which it is not: a relay used two days after the join. |
| IpLog.SearchRefinesFlat | internal/iplog/iplog.go:197-246 | Without a room, the day files and their pre-filter find exactly the entries a scan of the flat log finds. |
| IpLog.PurgeKeepsRetention | internal/iplog/iplog.go:112-122 | The files left hold the flat log without the outlived days, which contains everything newer than the retention. |
| IpLog.JoinedPeers | internal/iplog/iplog.go:221-228 | Collects exactly the non-empty peers of entries of the room. |
| IpLog.Filter | internal/iplog/iplog.go:229-244 | Keeps, in order and as often as it is there, every entry with a time in the interval, the address asked for, and the room or one of the peers given, and no other. |
| IpLog.Logger.ReadDays | internal/iplog/iplog.go:207-219 | Concatenates, in order, the files of the days that overlap the interval. |
| IpLog.ListDays | internal/iplog/iplog.go:166-185 | Lists each day that has a file once, in ascending order. |

## Left out

- WebSocket, HTTP, TLS, command line and deployment: only the outgoing queue and the drop flag of a connection are kept, and reading from it and writing to it are steps.
- Origin checks, client addresses, room name validation and the TURN credential service: single-step lookups.
- Pages, templates, translations, the site map, the DOM, calls and screen sharing.
- WebRTC negotiation: a new peer is modelled as sending one sealed message to the other side. The hello message is left out, except that a page may at any time re-register the inbox key it is told of, as long as its own claim to create is not unanswered.
- Chat messages on a join request are stored and passed on by the server model; what a page shows of them is left out.
- Two pages of one browser share their stored key: a page may open with the key another page holds, but later changes of the stored key by other pages are not seen by it.
- Messages received but still queued in a page when its connection closes: they are dropped here, while the page would still handle them.
- A handler is one step: the awaits inside it (key derivation, database access, sealing) do not interleave with other handlers, and markRead, which runs outside the queue, is not modelled.
- A sealed signal uses the key held when it is queued, not when it is sealed a moment later.
- Display names of readers, which are first-writer-wins and need not agree: convergence is about reader ids.
- Clearing the history, malformed packets and hostile peers.
- Failures to write the state file or the log, and reading the state file at start: saving is copying the state.
- Names that are not valid UTF-8, which the server replaces by a question mark, and the conversion between text and UTF-8.
- The JSON encoding of messages, requests, records and log entries, and the limits on message sizes it implies.
- A request id that is no digest of any public key: no request is filed under it, and a digest without a request behaves the same.
- Log entries written while a purge removes files: the two are separate steps here.
- The two store reads that compose one reply (pending requests and inbox key) are one step, and so are the inbox check before a claim and the claim.
- Joining a full room leaves no trace: the page gives up for good.
- The Cloudflare TURN switch: a small flag machine whose properties are those of one tick.
- Network.DatabasesConverge: the union is that of the databases at the start; messages written and read while the exchange runs are not part of it.
- KeyAgreement.KeysAgree: excludes runs that purge the room, after which members and newcomers can hold different keys.
- StoreTheorems.DecisionsEndure: an approval collected with join-done is over, as the code intends.
