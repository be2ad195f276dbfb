# Verification of the chat and game server

This project models the parts of the server (C++) and of its two Go clients where threads, bytes
or two programs have to agree, and proves what they guarantee. It is written in Dafny 4.11;
`dafny verify dfyconfig.toml` checks all of it.

## What is modelled

- **The shard pipeline** (`mpmc_queue.dfy`, `shard_*.dfy`). `MPMCQueue` is a class whose methods are
  the regions run under its mutex, and a monitor that interleaves those regions for any number of
  threads: lock, push, notify after unlocking, predicate test, park, signalled or spurious wake,
  re-acquisition. The shard server runs n such queues with one consumer each, any number of network
  threads, and a main thread that stops and joins the consumers one by one. A step is one of those
  regions, or the start or end of a handler.
- **The wire** (`utf8.dfy`, `utf8_layout.dfy`, `protocol.dfy`, `ring_buffer.dfy`, `session.dfy`). The back-off cut of the
  bot against the grammar of section 4 of RFC 3629, the length-prefixed framing on both sides, the ring
  buffer as a byte FIFO in an array, and the session that assembles packets out of one.
- **The friend list** (`friend_list.dfy`, `friend_agreement.dfy`): the text printed by the server,
  cut to a packet, and read by the bot's parser.
- **Names and ranking** (`decimal.dfy`, `doubles.dfy`, `nick.dfy`, `ranking.dfy`, `paging.dfy`, `rank_text.dfy`, `rank_pages.dfy`): the
  NICK announcement and the client's name map; the Redis sorted set and hash as two maps with the order
  ZREVRANGE uses; the greedy packing of the ranking replies into packets.
- **Gold and enhancement** (`economy.dfy`): the two tables, the transactions, the chat reward, the
  enhance command, and the ranking updates they send.
- **The bot and the pool** (`bot.dfy`, `object_pool.dfy`): the weighted choice, the pending requests, and
  the index allocator.

Code that updates fields is a class with those fields; its methods are proved against specification
functions, and the lemmas are about those functions. Failures of Redis and of the database, random draws
and the interleaving of other threads are parameters or steps, so every result holds for all of them.

## Assumptions

`Session.cpp`, `SessionManager.cpp`, `Database.cpp` and `Protocol.h` are not encoded in UTF-8, so the
table below cites the lines that use or describe them. What the model takes from them:

- `SessionManager::Post` pushes one message to the queue `sid % n`, and a new session gets the queue
  `id % n`, so `Session::OnRecv` pushes to that queue as well.
- `MakePacket` copies at most the first 256 bytes of the message and cuts the id to 16 bits.
- `Session::PostRecv` returns when the session is closing or the linear window behind the tail is empty,
  and otherwise receives into exactly that window. `OnRecv` moves the tail, takes packets as long as one
  is complete, closes on a size below 4 or above 260, and posts the next receive. `Send` drops a packet
  for which there is no room, `PostSend` sends the linear window at the head, `OnSend` moves the head.
- `EnhanceItem` charges the gold and changes the item in one transaction, refuses with too little gold
  first and with a foreign item second, and adds one to the level on success. `AddGold` throws for an
  unknown user; `DropItem` inserts an item at level 0.

## What turned out not to hold

- *Shutdown handles every posted message.* `ShardServer::Stop` stops and joins consumer 0, then 1, and
  so on, while the later ones still post. A trade message from a session on shard a to a session on
  shard b is certain to be handled exactly when a <= b (`TradeIsSafeExactly`).
- *A session reads for as long as it lives.* Receives go only into the linear window behind the tail,
  and the tail of the receive buffer never wraps. Once `BUFFER_SIZE - 1` bytes have arrived in the life
  of a session, no receive is posted any more, although the buffer may be empty (`FilledLinearly`,
  `Session.PostRecv`).
- *The friend list is read as it was printed.* This needs names the parser takes as they stand, and it
  needs that no blocked user is called `Request` or `Friends` with another blocked name behind. The
  exact condition, for lists of any length and whatever is cut off, is `AgreementExactly`; `HandleNick` lets
  the exceptions through (`InventedRequest`, `PartialName`).
- *A chat line is shown under its sender's name.* The packet id has 16 bits, and the client records no
  names for longer ids, so this holds exactly for session ids up to 65535 (`ChatIsAttributed`). Lines of
  later sessions go under the name or the number of their low 16 bits, and when these are 0 the client takes
  the text for a control message (`ChatGoesByLowBits`, `ChatTakenForAnnouncement`).
- *An item costs the price of its levels.* Cost and rate go by a level that was read in an earlier
  transaction. The price law holds exactly when every won attempt paid for the level the item had
  (`PriceLawExactly`); two attempts at once can share a level (`TwoAttemptsAtOnce`).
- *The score equals the total power.* It does exactly when the total is representable as a double
  (`OneSuccessRestores`, `StoredExactly`); and a `Rebuild` that fails between its DEL and its ZADD drops
  users that had a score (`BrokenRebuildDropsScores`).
- *A message typed into the terminal client arrives.* `sendPacket` does not cut at 256 bytes; the server
  reads the frame back exactly when the message fits (`SendPacketIsRead`).
- *The pool hands no index out twice.* `Free` checks nothing; the pool stays in order exactly as long as
  every freed index was in use (`DisciplineIsExact`).

Where the documentation of the repository says that the shard is `sessionId % 8`, the code uses the number of
shards; the model follows the code, for every number of shards.

## Model

| member | source | states |
|---|---|---|
| MpmcQueue.MPMCQueue.PushLocked | MPMCQueue.h:11-14 | under the mutex the value goes to the back and nothing else changes |
| MpmcQueue.MPMCQueue.PopLocked | MPMCQueue.h:23-33 | waits exactly when the queue is empty and not stopping, returns false exactly when it is empty and stopping, and otherwise takes the oldest item, also while stopping |
| MpmcQueue.MPMCQueue.StopLocked | MPMCQueue.h:38-41 | sets the flag and keeps the items |
| MpmcQueue.StepKeepsBalance | MPMCQueue.h:9-44 | while somebody is parked, no step but the predicate test leaves more items without a notification or a woken thread on its way |
| MpmcQueue.StepKeepsNoLostWakeup | MPMCQueue.h:9-44 | the no-lost-wakeup condition is inductive over every step of any number of threads: while somebody is parked, queued items never outnumber pending notify_one calls plus woken threads, and once stop is set notify_all is still pending |
| MpmcQueue.StepKeepsInv | MPMCQueue.h:9-44 | every step keeps mutual exclusion, first-in first-out order and the no-lost-wakeup condition |
| MpmcQueue.RunKeepsInv | MPMCQueue.h:9-44 | hence they hold in every state of every run, spurious wakes included |
| MpmcQueue.NoWaiterLeftBehind | MPMCQueue.h:16-25 | in no reachable state where all threads are outside or waiting is there a waiter together with an item or a stop request |
| MpmcQueue.NeverStuck | MPMCQueue.h:9-44 | a thread in the middle of Push, Pop or Stop always leaves a step enabled that is not a spurious wake |
| Routing.ShardIsDealt | README.md:160-173 | the shard of a session is its place when session ids are dealt out to the shards in turn, and no other: sid = n * turn + j |
| Routing.EveryShardOnce | README.md:160-173 | of any n sessions with consecutive ids every shard gets exactly one |
| ShardServer.InitInv | ShardServer.h:12-20 | the server as started satisfies the invariant, for any number of shards |
| ShardServer.StepKeepsInv | Consumer.cpp:17-35 | every step of network threads, consumers, handlers and main thread keeps the invariant: placement of threads, routing, exactly-once handling, and the record of stops and exits |
| ShardServer.InHandRouted | README.md:160-173 | what a consumer has in hand is for a session that is dealt to its shard |
| ShardRuns.RunKeepsInv | ShardServer.h:12-21 | the invariant holds in every state of every run |
| ShardRuns.HandledInPushOrder | Consumer.cpp:23-35 | for every shard and reachable state: handled, then in hand, then queued is exactly what was pushed, in order |
| ShardRuns.SessionOrder | README.md:160-173 | a session's messages stand only in the queue of the shard the session is dealt to, and those handled are a prefix of those pushed |
| ShardRuns.PushedIsDealt | README.md:160-173 | whatever was pushed to queue j, by the network or by a handler, is for a session dealt to shard j |
| ShardRuns.OneHandlerPerSession | README.md:164 | no two consumers handle messages of one session at the same time |
| ShardRuns.AfterStop | ShardServer.h:21 | after Stop has returned, every consumer has left its loop, everything pushed before its stop was handled, and a queue holds exactly what was pushed after its consumer left |
| ShardRuns.LeftoversComeFromAbove | ShardServer.h:21 | an internal message left in queue i was posted from a higher shard |
| ShardRuns.LeftoversStay | Consumer.cpp:23-35 | what is in the queue of a consumer that has left stays there |
| ShardShutdown.MeasureDrops | Consumer.cpp:405-416 | every step but the start of a network push and a spurious wake lowers a measure in which a client message outweighs the one trade message it may post |
| ShardShutdown.StopIsHeard | MPMCQueue.h:36-44 | once Stop of a consumer has sent notify_all, that consumer is not parked |
| ShardShutdown.Progress | ShardServer.h:21 | until Stop has returned some such step is enabled, pushes of network threads under way included: no deadlock |
| ShardShutdown.ShutdownTerminates | ShardServer.h:21 | from every state, with any pushes under way, all runs without new pushes and spurious wakes are bounded in length by one number |
| ShardShutdown.EndsStopped | ShardServer.h:21 | such a run that cannot be continued ends with Stop having returned |
| ShardStranded.ClientsAreDrained | ShardServer.h:21 | with no network push under way when the shutdown begins and none after, only internal messages from higher shards can be left in a queue |
| ShardStranded.TopShardDrains | ShardServer.h:21 | under the same condition the last shard is left empty |
| ShardStranded.RunToStop | ShardServer.h:21 | every run can be continued until Stop has returned |
| ShardStranded.ItemsStay | Consumer.cpp:17-35 | the queue of a consumer that has left only grows, over any stretch of a run |
| ShardStranded.StrandedRun | Consumer.cpp:405-416 | for any n and b < a < n, a run from the start that ends with a trade message from shard a unhandled in queue b |
| ShardStranded.TradeIsSafeExactly | ShardServer.h:21 | for every number of shards: no run strands a trade message from shard a to shard b if and only if a <= b |
| Utf8Layout.GrammarIsBitLayout | bot/protocol.go:64 | the characters of the grammar are exactly the encodings, by the bit layout of RFC 3629, of the scalar values up to 0x10FFFF without surrogates, one each |
| Utf8.CharsArePrefixFree | bot/protocol.go:64 | the front of a byte string decodes in one way only |
| Utf8.ValidIsWellFormed | bot/protocol.go:64 | the scanning check is true exactly for the byte strings of the UTF-8 grammar |
| Utf8.Concatenation | bot/protocol.go:58-68 | after a well-formed prefix, the whole is well-formed exactly when the remainder is |
| Utf8.ScannedIsLongest | bot/protocol.go:63-67 | reading characters from the front gives a well-formed prefix at least as long as any other |
| Utf8.TruncateUTF8 | bot/protocol.go:59-68 | the loop returns the input when it fits, and otherwise the longest well-formed prefix within the limit |
| Utf8.TruncationIsScanned | bot/protocol.go:59-68 | there is exactly one such result, and reading forward from the front finds it too |
| Utf8.TruncationLosesAtMostThree | bot/protocol.go:58-68 | on well-formed input the result is well-formed, ends on a character boundary of the input, and is at least limit - 3 long |
| Utf8.ThreeBytesCanBeLost | bot/protocol.go:58-68 | three bytes are lost on a concrete input |
| Protocol.Assemble | bot/protocol.go:27-30 | header and body in one buffer are exactly the encoding of the body with id 0 |
| Protocol.WritePacket | bot/protocol.go:24-34 | appends to the stream exactly the encoding of the payload cut at 256 bytes on a character boundary |
| Protocol.SendPacket | client/main.go:177-201 | appends the encoding of the whole message, without a cut |
| Protocol.Reader.Full | bot/protocol.go:39-41 | takes exactly the wanted bytes off the front of the stream whatever pieces they come in, or all there are when there are fewer |
| Protocol.Reader.ReadPacket | bot/protocol.go:37-56 | result and remaining stream are what decoding the undivided stream gives, errors included |
| Protocol.Reader.ReadAll | bot/bot.go:213-228 | the receive loop gets every packet up to the first failure, and stands where that failure leaves the stream |
| Protocol.DecodeIsEncode | bot/protocol.go:37-56 | a read yields (id, payload) and leaves the rest exactly when the stream is the encoding of them followed by the rest, with a 16-bit id and a size within the limit |
| Protocol.CutStream | bot/protocol.go:37-56 | from a written stream cut anywhere, the reader gets exactly the packets that lie wholly before the cut, and what is left is the start of the next |
| Protocol.RoundTrip | bot/protocol.go:24-56 | any list of payloads is read back as their truncations, in order, with id 0, and nothing of the stream is left |
| Protocol.SendPacketIsRead | client/main.go:177-201 | a frame of the terminal client is read back as its message if and only if the message has at most 256 bytes |
| Protocol.ReadersAgree | client/main.go:104-132 | the client's reader, which has no upper limit, agrees with the bot's exactly on streams that do not begin with an oversized frame |
| RingBuffers.RingBuffer.constructor | RingBuffer.cpp:88-91 | a new buffer is empty with head and tail at 0 |
| RingBuffers.RingBuffer.GetUsedSize | RingBuffer.cpp:5-8 | is the number of committed bytes |
| RingBuffers.RingBuffer.GetEmptySize | RingBuffer.cpp:10-13 | used and empty always add up to the size less one |
| RingBuffers.RingBuffer.GetLinearUsedSize | RingBuffer.cpp:15-22 | that many bytes from the head are the oldest committed bytes in order; it is 0 only when there are none |
| RingBuffers.RingBuffer.GetLinearEmptySize | RingBuffer.cpp:24-29 | that many bytes from the tail are free, and it is 0 with room left exactly when the tail is at the last slot and the head is not at 0 |
| RingBuffers.RingBuffer.MoveHead | RingBuffer.cpp:41-44 | removes exactly the oldest bytes |
| RingBuffers.RingBuffer.MoveTail | RingBuffer.cpp:46-49 | appends exactly the bytes that stand behind the tail |
| RingBuffers.RingBuffer.Peek | RingBuffer.cpp:51-69 | copies the oldest bytes, also around the end, and only when there are enough; nothing else in the destination changes |
| RingBuffers.RingBuffer.Write | RingBuffer.cpp:71-86 | succeeds exactly when there is room, puts the bytes behind the tail, also around the end, and changes no committed byte |
| RingBuffers.RingBuffer.Clear | RingBuffer.cpp:88-91 | empties the buffer |
| RingBuffers.LiveBytesStay | RingBuffer.cpp:71-86 | a write into the free space keeps every committed byte |
| RingBuffers.TwoPieces | RingBuffer.cpp:15-22 | reading seamless pieces recovers everything in at most two of them |
| RingBuffers.FilledLinearly | RingBuffer.cpp:24-29 | a buffer filled only through its linear window never wraps, accepts at most size - 1 bytes until it is cleared, and offers no room any more exactly when that many have come, however much was removed |
| Sessions.ParseResumes | README.md:149-155 | parsing may stop anywhere and resume with the remainder: arrival in pieces does not matter |
| Sessions.ParseIsDecode | bot/protocol.go:36-56 | the server finds the same messages in a stream as the bot's reader, stops at the same place, and finds a bad header exactly where the bot does |
| Sessions.BadHeaderIsFound | README.md:149-155 | behind any sound frames a bad header is found and nothing behind it is looked at |
| Sessions.SoundIsNeverBad | README.md:149-155 | a stream of sound frames holds no bad header wherever it is cut, and its messages are the first of theirs |
| Sessions.UncutMessageBreaks | client/main.go:177-201 | a message of more than 256 bytes from the terminal client is such a bad header |
| Sessions.Session.PostRecv | RingBuffer.cpp:24-29 | asks for exactly the linear window, and leaves an open session without an outstanding receive exactly when size - 1 bytes have come in its life |
| Sessions.Session.OnRecv | README.md:127-158 | everything received is what was posted, in order and split into the messages of the stream, plus what is buffered; sound frames followed by a header with a size below 4 or above 260 close the session with exactly the bodies of those frames posted, and a stream of sound frames, cut anywhere, never closes it |
| Sessions.Session.PostSend | RingBuffer.cpp:15-22 | hands over the longest seamless piece at the front of what waits to be sent |
| Sessions.Session.Send | RingBuffer.cpp:71-86 | takes the whole packet or none of it, in order, and leaves the bytes of an outstanding send where they are |
| Sessions.Session.OnSend | RingBuffer.cpp:41-44 | what was sent plus what is buffered stays what was accepted, and the next piece goes out |
| FriendLists.Render | Consumer.cpp:281-289 | the text is the headings, dashes and names, one line each, in the order blocked, request, friends |
| FriendLists.TrimSpaceTrims | bot/bot.go:284 | a trimmed line neither begins nor ends with white space, and a line stays as it is exactly when it already did not |
| FriendLists.SplitIsLines | bot/bot.go:275 | the pieces put together with newlines are the text, and none holds a newline |
| FriendLists.ParseFriendList | bot/bot.go:274-310 | the loop computes the two lists of the line reader on the trusted lines |
| FriendAgreement.PlainIsTaken | bot/bot.go:286-300 | a name is taken as it stands exactly when it is trimmed, not empty, no heading and does not begin with three dashes |
| FriendAgreement.SplitCut | bot/bot.go:275-280 | splitting a cut text gives the lines that arrived whole and one leftover piece |
| FriendAgreement.ReadsWholeLines | bot/bot.go:275-280 | dropping the last line of a full packet leaves exactly the lines that arrived whole |
| FriendAgreement.CutAgreement | Consumer.cpp:281-291 | with plain names and inert blocked ones the bot learns exactly the names whose lines arrived whole, however much is cut off: nothing partial, nothing invented |
| FriendAgreement.ArrivedInOrder | Consumer.cpp:281-291 | what arrives is a prefix of each section, a friend arrives only behind all requests, and everything arrives when the text fits a packet |
| FriendAgreement.LearnedBehindBlocked | bot/bot.go:282-309 | the plain names that arrive are learned behind whatever was made of the blocked names |
| FriendAgreement.PlainIsInert | bot/bot.go:291-308 | plain blocked names are inert |
| FriendAgreement.ReadBlocked | bot/bot.go:291-308 | blocked names leave no trace exactly when none stands behind a blocked `Request` or `Friends` still in force |
| FriendAgreement.PayloadIsPlain | bot/bot.go:274-310 | whatever text arrives, every name the bot learns from it is plain |
| FriendAgreement.AgreementExactly | bot/bot.go:274-310 | for every list, cut or not: the bot learns exactly the requests and friends that arrived if and only if those names are plain and the blocked names that arrived are inert |
| FriendAgreement.AsciiNicks | Consumer.cpp:85-93 | a valid nickname of visible ASCII characters is plain exactly when it is no heading and does not begin with three dashes |
| FriendAgreement.InventedRequest | Consumer.cpp:85-93 | `Request` is a valid nickname, and blocking that user makes the next blocked user a pending request of the bot |
| FriendAgreement.PartialName | Consumer.cpp:85-93 | a nickname may begin with a no-break space, and is learned without it |
| Decimal.ValueOfToString | Consumer.cpp:122 | reading a printed number gives the number back |
| Decimal.ParseOfToString | client/main.go:154 | a printed number is parsed exactly when it fits the width |
| Decimal.LeadingDigit | client/main.go:154 | numerals are read with the most significant digit first |
| Decimal.NoLeadingZero | Consumer.cpp:122 | no number is printed with a leading zero |
| Decimal.Uint64Digits | Consumer.cpp:444 | a 64-bit number prints in at most 20 digits |
| Nick.ChatUI.HandleControl | client/main.go:150-164 | binds the id of a well-formed announcement, keeps the map otherwise, and shows as a system message exactly what is no announcement |
| Nick.AnnouncementsBegin | client/main.go:151-153 | announcements are the messages that begin with "NICK " and have another space behind that; every other is shown |
| Nick.ChatUI.Receive | client/main.go:134-143 | a packet with id 0 is a control message, any other a chat line under the name bound to its id or under the number |
| Nick.AnnouncementBinds | Consumer.cpp:122-124 | an announcement binds exactly that id to exactly that name when the id is at most 65535, and binds nothing otherwise |
| Nick.NicksFit | Consumer.cpp:90-93 | with a valid name and a 64-bit id the announcement is never cut |
| Nick.LastNameWins | client/main.go:150-161 | after any run of announcements the map holds the last announced name of every id up to 65535 and nothing else |
| Nick.ChatIsAttributed | client/main.go:134-143 | for a 64-bit session id: every chat line after any announcements is shown under the last name announced for the session if and only if the id is at most 65535 |
| Nick.ChatGoesByLowBits | client/main.go:134-143 | in every case the line goes under the last name announced for the low 16 bits of the session id, or under that number, and is a control message when they are 0 |
| Nick.ChatTakenForAnnouncement | client/main.go:150-164 | the text of a session whose id is a multiple of 65536 is taken for an announcement when it reads like one |
| Doubles.UlpBounds | Ranking.cpp:14 | above 2^53 a number has exactly 53 bits in units of the spacing the model uses |
| Doubles.WithinHalf | Ranking.cpp:14 | the conversion to double moves a total by at most half the spacing |
| Doubles.ToDoubleIsNearest | Ranking.cpp:14 | the result is a 53-bit number times a power of two, and no such number is nearer |
| Doubles.TiesToEven | Ranking.cpp:14 | of two equally near ones the even significand is taken |
| Doubles.StoredExactly | Ranking.cpp:14 | a total survives the conversion exactly when it is a double, which is when it is a multiple of the local spacing, as every total up to 2^53 is |
| Doubles.Idempotent | Ranking.cpp:14 | a stored score converts to itself |
| Doubles.WideTotal | Ranking.cpp:14 | a 64-bit total is stored as at most 2^64 |
| Rankings.AboveTotal | Ranking.cpp:57 | of two users exactly one stands above the other |
| Rankings.AboveTransitive | Ranking.cpp:57 | standing above is transitive |
| Rankings.BoardFalls | Ranking.cpp:57 | along the board the scores never rise: more power stands higher |
| Rankings.RankBounds | Ranking.cpp:136 | a rank is at least the number of users with a greater score and below the number with at least that score |
| Rankings.RaisingHelps | Ranking.cpp:11-20 | raising a user's score never worsens the user's rank |
| Rankings.LexAtFirstDifference | Ranking.cpp:14 | ties go by the first character in which the printed ids differ |
| Rankings.TwoBeforeTen | Ranking.cpp:57 | with equal scores user 2 stands above user 10, since ids are compared as text |
| Rankings.BoardIsRank | Ranking.cpp:133-144 | u is the i-th entry of the board if and only if its rank is i |
| Rankings.BoardIsUnique | Ranking.cpp:52-58 | scores determine the board |
| Rankings.ComputeBoard | Ranking.cpp:57 | lists every member once, each above all that follow |
| Rankings.Ranking.Update | Ranking.cpp:11-20 | sets the user's score to the given total as a double, or nothing when the call fails, and keeps the index within 64-bit ids and totals and valid names |
| Rankings.Ranking.Rebuild | Ranking.cpp:22-50 | what stands in scores and names after any first part of the pipeline has run, again within those bounds |
| Rankings.RowIsKept | Ranking.cpp:38-45 | every row of a rebuild with different users is found again under its user, name and score |
| Rankings.Ranking.Top | Ranking.cpp:52-83 | the entries of the clamped inclusive rank range in board order with their names, powers never increasing, or nothing when a call fails |
| Rankings.Ranking.RankOf | Ranking.cpp:133-144 | the number of users above, at least as many as have more power and fewer than have at least as much; nothing for a user without a score or a failed call |
| Rankings.Ranking.SetName | Ranking.cpp:85-94 | sets the name, moves nobody and keeps the bounds for a valid name |
| Rankings.ScoreIsLastGiven | Ranking.cpp:11-50 | with arbitrary failures a score is the total that last reached the index |
| Rankings.LaterDoesNotMatter | Ranking.cpp:11-50 | events that do not reach a user's score do not change what was last given |
| Rankings.OneSuccessRestores | README.md:213-217 | one delivered update restores agreement however many were missed, exactly if the total is representable |
| Rankings.BrokenRebuildDropsScores | Ranking.cpp:31-45 | a rebuild cut off after its first DEL drops a user that had a score |
| Paging.PackKeepsText | Consumer.cpp:439-453 | the bodies sent concatenate to the header and all lines in order |
| Paging.PackFits | Consumer.cpp:446-449 | every body fits a packet exactly when the header and every line do |
| Paging.PackNonEmpty | Consumer.cpp:453 | no body is empty |
| Paging.PackIsPaging | Consumer.cpp:439-453 | every body is a group of whole lines |
| Paging.GreedyIsOptimal | Consumer.cpp:439-453 | no other way of sending header and lines in order and unsplit uses fewer packets |
| RankPages.ShowRanker | Consumer.cpp:428-454 | sends the packing of the first 20 entries, or one message when there are none; put together it is the header and one line for each rank, showing the user of that rank with name and score; on an index within its bounds nothing sent is cut or empty |
| RankPages.ShowMyRank | Consumer.cpp:456-491 | sends the packing of the window around the caller, or one message when the caller has no rank; put together it is a header with the rank and one line for each rank of the window, showing its user with rank, name and score, marked exactly when that is the caller; on an index within its bounds nothing sent is cut or empty |
| RankText.RankLineShows | Consumer.cpp:442-444 | a line reads a numeral of the rank, the name or "unknown", and a numeral of the score |
| RankText.NumberBeforeTheDot | Consumer.cpp:442-444 | the text before the first dot of such a line is a numeral of the rank |
| RankText.MarkedShows | Consumer.cpp:478-481 | the line begins with the mark exactly for the caller, and with two spaces otherwise |
| RankText.MyHeaderShows | Consumer.cpp:473 | the header shows the rank from 1 on |
| RankPages.TopTextIsSent | Consumer.cpp:439-453 | the text of the top command is the header and the lines of ranks 1 to 20 or fewer |
| RankPages.MyTextIsSent | Consumer.cpp:471-490 | the text of the own-rank command is its header and the lines of the ranks within 5 of the caller's |
| RankPages.Around | Consumer.cpp:467-469 | the entries asked for are those of the window around the caller |
| RankPages.NeighboursAreShown | Consumer.cpp:467-469 | a user is in the window, at the right place, exactly when the rank is within 5 of the caller's |
| RankPages.RankIsOnBoard | Ranking.cpp:133-144 | a user's rank is the position of the user on the board |
| RankPages.ExactlyTheCallerIsMarked | Consumer.cpp:474-481 | a line is marked exactly when it is the caller's, the caller is in the window, and every line carries the rank of the user it shows |
| RankPages.TopIsByRank | Consumer.cpp:430 | a user is in the top list exactly with a rank below 20, and stands there at that rank |
| RankPages.LinesFit | Consumer.cpp:478-481 | a line with a valid name and 64-bit numbers has at most 62 bytes |
| RankPages.RankedFits | Consumer.cpp:439-453 | bounds on the index are enough for every body of the top command to fit |
| RankPages.WindowFits | Consumer.cpp:471-490 | bounds on the index are enough for every body of the own-rank command to fit |
| Economy.RateFalls | Consumer.cpp:365 | the success rate stays between 20 and 100 and never rises with the level |
| Economy.WinningRolls | Consumer.cpp:365-367 | of the rolls 1 to 100 exactly 100 - 5 * min(16, level) win for an owner with enough gold, and every other loses |
| Economy.Database.EnhanceItem | README.md:184-209 | charges only when the gold suffices and the item is the user's, raises the level by one exactly on success, and changes nothing otherwise |
| Economy.Database.DropItem | Database.h:46 | adds a level 0 item and returns the new total power |
| Economy.Consumer.HandleEnhance | Consumer.cpp:351-403 | reads the level in one transaction and pays by it in another; tables, ranking and reply are those of the events others commit in between followed by this attempt, with a failure before or after its commit; with enough gold 100 * (level + 1) is charged, and rolls up to 100 - 5 * min(16, level) answer success and raise the item by one level, all others answer failure and leave it |
| Economy.Consumer.RewardChat | Consumer.cpp:506-529 | tables and ranking after one chat line are those of the reward and drop steps, exactly the given gold and at most one level 0 item; a failure of the first skips the second |
| Economy.GoldBalances | README.md:186-209 | over any run a user's gold plus what was charged is what the user started with plus what was paid; gold is never negative |
| Economy.LevelsArePaidFor | Consumer.cpp:364-372 | what has been charged for an item is the price of its levels plus what failed attempts cost, less what attempts saved that had read an earlier level |
| Economy.LevelCountsWins | Database.h:49 | the level counts the won attempts, so a level that was read is still current exactly when none was won in between |
| Economy.PriceLawExactly | Consumer.cpp:364-372 | the charge is exactly price plus waste if and only if every won attempt paid for the level the item then had |
| Economy.TwoAttemptsAtOnce | Consumer.cpp:364-372 | two attempts that have both read level 0 reach level 2 for 200 gold, not 300 |
| Economy.NothingBeforeTheDrop | Consumer.cpp:519-521 | nothing is charged for an item before it is dropped |
| Economy.OwnersStay | README.md:198 | items do not change hands |
| Economy.ItemIsChargedToOwner | README.md:188-198 | what an item cost, also one dropped during the run, was charged to its owner |
| Economy.LevelsNeedGold | Consumer.cpp:364-372 | for every item there is at the end: going from level a (0 when it was dropped on the way) to b took at least 50 (b (b + 1) - a (a + 1)) gold, less what was saved by attempts that had read an earlier level and nothing less when none had; the owner started with that gold or chatted for it at ten gold a line |
| Economy.TotalChangesOnlyWhenTouched | Consumer.cpp:384-390 | only a drop or a won attempt of the user changes the user's total power |
| Economy.TotalMoves | Database.h:46-50 | a drop adds its power to the user's total, a won attempt the difference between new and old power |
| Economy.UntouchedAgrees | Consumer.cpp:384-390 | an event of anybody else keeps score and total in agreement |
| Economy.ScoreFollowsPower | README.md:213-217 | after any run whose last event touching the user delivered its update, the score is the user's current total, rounded to a double, and exact if and only if that is representable |
| Bots.PickWeighted | bot/bot.go:350-367 | returns the first position whose running total exceeds the draw; the fallback is never reached |
| Bots.SelectsInterval | bot/bot.go:359-365 | with non-negative weights the draws for a position form one interval |
| Bots.ChoiceIsExact | bot/bot.go:350-367 | of the draws below the total exactly weight_k select position k |
| Bots.PositionOfDraw | bot/bot.go:116-124 | which draws select which of the five friend commands |
| Bots.Bot.OnControl | bot/bot.go:232-247 | only a friend list changes anything, and it replaces both lists by what the parser reads |
| Bots.Bot.ApplyFriendList | bot/bot.go:250-262 | the Request section of the list becomes the pending names and nothing of it is taken yet |
| Bots.Bot.HasPending | bot/bot.go:312-316 | is true exactly when a name is pending |
| Bots.Bot.TakePending | bot/bot.go:320-332 | removes one pending name and returns it, or an empty name exactly when there is none; taken and pending names still make up the latest list |
| Bots.Bot.Receive | bot/bot.go:208-229 | any sequence of control messages leaves the last list among them in force with nothing taken from it, and changes nothing when there is none |
| Bots.Bot.Answer | bot/bot.go:143-157 | with control messages arriving at any point, an answer goes to a name then pending on the list then in force, none goes out exactly when nothing is then pending, and the name is no longer pending unless a new list brings it back |
| Bots.Bot.FriendAction | bot/bot.go:115-161 | which command each draw sends, and accept or reject exactly when a request of the latest list is pending |
| ObjectPools.ObjectPool.constructor | ObjectPool.h:15-20 | all indices are free, the lowest on top |
| ObjectPools.ObjectPool.Alloc | ObjectPool.h:22-32 | on a pool in order, -1 exactly when all N indices are in use, and otherwise an index that was not |
| ObjectPools.ObjectPool.Free | ObjectPool.h:34-37 | pushes the index; a pool in order stays so exactly when the index was in use |
| ObjectPools.BadRelease | ObjectPool.h:34-37 | freeing an index that is not in use breaks the partition |
| ObjectPools.LiveAndFree | ObjectPool.h:22-32 | free and used indices together number N |
| ObjectPools.StepKeepsPartition | ObjectPool.h:22-37 | an allocation, or freeing a used index, keeps the partition |
| ObjectPools.DisciplineIsExact | ObjectPool.h:22-37 | the pool stays in order throughout a run if and only if the run frees only indices in use |
| ObjectPools.LastReleasedFirst | ObjectPool.h:22-37 | an index freed is the next one handed out |

## Left out

- ShardServer.StepKeepsInv: the loops of `Consumer` and `ShardServer::Stop` are modelled as steps of a state machine over values and not as class methods, because they run at the same time; `ShardServer::Start` is its initial state, and which client messages post a trade message is left open (any may post one).
- ShardShutdown.ShutdownTerminates: takes spurious wakes and new network messages out of the run, because either can go on for ever; pushes under way are in it.
- RankPages.ShowMyRank: reads rank and window from one snapshot; the two Redis calls are not atomic, and a write between them can shift the window.
- Economy.Consumer.HandleEnhance: the new power of an item is any number; the multiplier and its rounding in the database are not part of this model, nor is the width of cost, power and gold. The ranking update follows its commit in the same step, which takes one consumer per user.
- Economy.Consumer.RewardChat: no other event falls between the gold, the drop and the ranking update, for the same reason.
- Doubles.WideTotal: a total that rounds to 2^64 has no defined conversion back to 64 bits; the model shows 2^64.
- Sessions.Session.OnRecv: calls are serialised, as completions for one direction are; errors of WSARecv and WSASend, which close the session, are not modelled.
- RingBuffers.RingBuffer.Peek: lengths are not negative, as all callers guarantee.
- Bots.PickWeighted: the draw is any number in its range; how evenly the generator spreads is not part of this model.
- Sockets, completion ports, AcceptEx, session teardown and the reference counts of pending operations.
- The friend cache and its agreement with the database: it is updated after the transaction and from several shards.
- The dispatch of commands by their first word, login, name uniqueness, whispers, the inventory listing, `GetNames` and `Ping`: they add only easy members.
- What a trade message does once it is handled: the handler is a stub.
- Log output, the wording of replies, colours and keys of the terminal client, timers and statistics of the bot.
- Connection pools and SQL: the tables and the Redis keys are maps, and a transaction is one step that can fail before or after its commit.
- Text is a sequence of byte-sized characters; Unicode case and normalisation play no part.
