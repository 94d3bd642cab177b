# axproxy, modelled and verified

axproxy is a single-threaded SOCKS5 proxy: a fixed pool of streams in a linked list, an event loop
over `poll` or `epoll`, a small DNS client and a cache of names. This project models its behaviour in
Dafny and proves what the program relies on but nowhere writes down. `dafny verify dfyconfig.toml`
checks everything.

## How the model is laid out

**The stream pool and the event loop.** `Streams`, `Handlers`, `Walks`, `Watching` and `Runs` describe
the proxy as a value: the list of live slots, what each slot holds, creation stamps, open descriptors
and the kernel's interest list. Each C function is a function on that value. `Proxies.Proxy` is the
program itself: one array of slots with `prev` and `next` links and a `neighbour` index, updated in
place by pointer-walking loops. Every method of the class is proved to take the abstract value where
the function says, down to `ProxyTask`, so every theorem about the functions is a theorem about the
program's state. Pointers into the pool are slot indices, and -1 is the null pointer.

- `Turns` says case by case what a turn does, with octets, events and limits written out, and `Cycles` what
  a wait reports and a cycle comes to; the other modules say what holds of all of them.
- `BaseInvariant` holds in every run, with no hypothesis: list shape, newest to oldest; one listener,
  created first; each descriptor owned by one live stream and closed once; the epoll interest list in
  agreement with `pollref` and `levents`.
- `Relations` and `HandOffs` are about pairs: client and endpoint point at each other, share their
  fate, and hand octets over without losing, doubling or reordering any; nor do they stall when the
  client's reply was drained before promotion.
- `Handshakes` is about the one queue a client has for both input and replies; `Queues` shows that it
  never outgrows its buffer.
- `Steps` and `Walks` are about the walk over the list, in which handlers insert and evict.
- `Links` is the doubly linked list; `LiveLists` the sequence it stands for.
- `Limits` says where the guarantees end, as exact conditions, and `Hits` what a hit costs; `HitLives`,
  `TearLives` and `StrayLives` are lives, from start-up on, in which they do, put together with `Crowds`.

**The handshake.** `Socks` is the request parser and the reaction to a received chunk (sections 3 to 6
of RFC 1928); `Requests` follows a request over the turns that receive it. `DataQueues.DataQueue` is the
in-place octet queue. The answer to a user name and password is 5,0 as the code has it, where section 2
of RFC 1929 asks for version 1.

**DNS.** `DnsNames` encodes host names, `DnsCompression` expands compressed ones, `DnsRecords` walks
resource records, `DnsResolve` is the recursion as a function of the replies, `DnsAnswers` says from the
octets of a reply what is found or tried next, and `DnsClient` is the program's client: cursors over a
receive buffer, an out-parameter and one shared query counter.

**The cache.** `NsCache` is the record array, updated in place, and the expiring map it stands for.

## The outside world

Whatever the kernel, the network and the clock decide is a parameter, and every theorem holds for all
of it. Octets may arrive at any socket before any turn; `send` may take any part of what it is offered
or fail; `accept`, `connect`, `epoll_ctl` and the resolver may fail at any time; a descriptor handed
out is one that is not open (an answer the kernel cannot give is read as a failure). `recv` of octets
that are there returns them. `Stream.sock`, `Stream.drained`, `Sys.stamp` and `Sys.evictions` are
accounts kept by the model that the program does not have; no decision depends on them except that a
stream's `sock.unread` is what `recv` and `FIONREAD` see. Of the octets sent since promotion
`sock.passed` holds those that came from the other side and `sock.said` those that were left of the reply.
Under Linux the constants of `poll` and `epoll` coincide, so `epoll_to_poll_events`, which returns its
argument (src/util.c:718), is the identity on one record of four flags.

## Boundaries

Some properties do not hold of the code in all circumstances. For each, the exact condition or a
concrete failing state is proved:

- An eviction may take a stale stream: an abandoned one whose `neighbour`, out of date since an earlier
  eviction, names a slot that now belongs to a pair in service. `Limits.TurnGoodExactlyWhen` is the exact
  condition on a turn, `Runs.RunGood` an equivalence over whole runs, and `TearLives.TearHappens` a life in
  which it happens. At most one eviction between two removals of abandoned streams cannot do it
  (`Runs.FewEvictionsCalm`).
- A forwarding turn may then stray: the slot of its former partner has gone to a client in the handshake,
  whose events it changes. `Handshakes.TurnShakenExactlyWhen` is the exact condition on a turn and
  `Runs.RunShaken` an equivalence over whole runs: every handshake follows its script if and only if no
  turn strays. That needs a stale eviction before (`Runs.CalmRunNeverStrays`), and `StrayLives.StrayHappens`
  is a life in which it happens.
- An eviction may hit the successor the walk has saved. The walk still ends (`Walks.WalkProgress`), but
  goes on from the new head (`Limits.HitRestartsWalk`). `Walks.WalkVisitsEach` is an equivalence,
  `Limits.HitExactlyWhen` the exact condition on a turn, and `HitLives.HitHappens` a life in which it
  happens. The client whose request did it gets another turn in the same walk, with its request still
  reported as readable, and is dropped in it unless it was evicted first (`Hits.HitLosesClient`, for walks
  that end without a severe error and evict no stale stream). A hit takes no handshake out of its script
  (`Runs.RunShaken`). What else it can do is to have a reply that is still queued read together with what
  follows it: the client is then hung up on, or, if it sends the user name it offered before it is asked
  to, taken on. Without a hit that cannot happen (`Handshakes.WalkHeeded`, `Handshakes.ReadListens`).
- Promotion overwrites the client's events, so a reply not yet sent can disturb the hand-off:
  `HandOffs.HandOffExactlyWhenDrained` is an equivalence.
- A circle of compression pointers makes the decompressor spin: `DnsCompression.ReturnsExactlyWhen`
  and `DnsCompression.SelfPointerSpins`; `DnsResolve.SelfAliasNeverEnds` is a reply on which a resolution
  never ends. The resolver is proved for every set of replies on which none of the decompressions it makes
  spins (`DnsClient.Ends`); `DnsResolve.ResolutionSound` says what a reply must hold otherwise. Pointer
  offsets are masked to ten bits, so one leads where the standard says exactly if that is below 1024
  (`DnsCompression.TargetExactlyWhen`).
- Labels of up to 255 octets are encoded, where section 2.3.4 of RFC 1035 allows 63. Decompression gives
  an encoding back as long as every octet in it, length octets included, is below 0xC0.
- `nsaddr` takes the wire form to be two octets longer than the name: `DnsNames.LengthGuessExact`. For
  other names an octet more is sent, and for exactly the names of 255 characters with a dot at their end
  that octet is one past the buffer (`DnsClient.OverreadExactlyWhen`, `DnsClient.OverreadHappens`). The
  model reads it as whatever the memory there holds.
- The cache is a map whenever the clock shows no less than at any call before (`NsCache.RunDistinct`): also
  after it was set back, once it has caught up. `NsCache.ClockGoingBackBreaks` is a run in which it has
  not, and the cache is no map.

## Model

| member | source | states |
|---|---|---|
| `Socks.ParseMeansEncoded` | src/proxy.c:174-302 | a queue is taken for a CONNECT request exactly when the octets of that request (IPv4, host name or IPv6) start it: in both directions, for all octets |
| `Socks.PrefixNeedsMore` | src/proxy.c:179-182 | every proper prefix of a request, of each of the three kinds, leaves the stage waiting: no early accept and no early reject |
| `Socks.ChunkWaits` | src/proxy.c:97-111 | one chunk of a request: the stage keeps exactly what it has received while something is missing, and dials on the octet that completes it |
| `Socks.MoreExactlyWhen` | src/proxy.c:179-302 | octets that are not rejected and no request yet are waited on if and only if there are less than four of them, or they are a proper beginning of some request; all others are rejected |
| `Requests.TurnTakesChunk` | src/proxy.c:79-346 | one turn that receives a chunk of a request leaves the client at the request stage with that chunk gathered, or, if the chunk completes it, asks for exactly the encoded kind, address and port and dials |
| `Requests.RequestOverTurns` | src/proxy.c:79-346 | however a request is cut into chunks of two octets or more, each turn that receives one but the last leaves the client waiting with exactly the received prefix, and the turn that receives the last asks for exactly the encoded kind, address and port and dials (or abandons the client when its host is not resolved) |
| `Requests.OtherTurnLeaves` | src/util.c:1182-1198 | the turn of another stream that does not stray leaves a client that is still at the request stage as it was |
| `Requests.RunSpares` | src/util.c:1155-1202 | over a whole run in which no turn strays, a client still at the request stage is at its next turn what its last one left, but for what arrived, how it is watched and which events were reported |
| `Requests.RequestOverRun` | src/proxy.c:79-346 | so the statement on cut requests holds over the turns of a whole run, as long as the client is neither abandoned nor evicted before its request is complete |
| `Turns.PassedOver` | src/util.c:1184 | a stream to be removed, or without events, is passed over |
| `Turns.ErrorDrops` | src/util.c:1186-1190 | POLLERR and POLLHUP, each alone or with anything else, drop a stream and its partner and nobody else |
| `Turns.ListenerTurn` | src/proxy.c:10-31 | a readable listener accepts: a failure is severe, and a socket that cannot be made non-blocking is closed again; otherwise one client comes in front of the list, in the lowest free slot or in place of the oldest stream to be removed, else of the oldest client or endpoint |
| `Turns.UnusableTurn` | src/proxy.c:91-111 | a client that is not readable, or whose chunk is shorter than two octets or does not fit 384, is dropped |
| `Turns.GreetingTurn` | src/proxy.c:116-156 | a first octet other than 5 drops the client; what begins 5,1,2 is answered 5,2 and leads to the AUTH stage; anything else is answered 5,0 and leads to the request stage |
| `Turns.CredentialsTurn` | src/proxy.c:157-174 | whatever is sent for user name and password is answered 5,0 and leads to the request stage |
| `Turns.RequestTurn` | src/proxy.c:175-302 | octets that do not begin with a request are gathered if they may become one, and drop the client if they cannot |
| `Turns.UnexpectedTurn` | src/proxy.c:341-343 | a client at any other stage that sends something is dropped |
| `Turns.UnresolvedTurn` | src/proxy.c:263-268 | a host name that is not resolved drops the client |
| `Turns.NoSocketTurn` | src/util.c:193-198 | that there is no socket for a complete request is a severe error |
| `Turns.RefusedTurn` | src/util.c:200-229 | a connection that fails at once drops the client and nobody else; its socket is closed again and the proxy goes on |
| `Turns.PendingTurn` | src/proxy.c:36-74 | a pending connection brings an endpoint in front of the list that is watched for reading and writing and points at the client; the client points at it, has the ten octets of the grant to be sent, and goes on to the next stage |
| `Turns.ReplyingTurn` | src/proxy.c:360-372 | a failing send drops the client; else send takes octets off the front of the reply, and after the last one the client is to be read again, or not to be watched while its endpoint is awaited |
| `Turns.EndpointTurn` | src/proxy.c:393-403 | an endpoint that connects and becomes readable, writable or both starts to forward together with its partner, both watched for reading; without a partner, or at another stage, it is dropped |
| `Turns.ReadableTurn` | src/util.c:964-968 | a forwarding stream that became readable hands over to its partner, which is to be watched for writing |
| `Turns.WritableTurn` | src/util.c:954-963 | a forwarding stream that became writable is sent what its partner received: as much as send takes of what there is, of 16384 octets and of the room there is; then the partner is to be read again |
| `Turns.StuckTurn` | src/util.c:337-439 | when nothing can be forwarded a client is sent what is left of its reply instead, and without that the stream and its partner are dropped |
| `Turns.SevereExactlyWhen` | src/proxy.c:374-391 | a turn is a severe error if and only if a connection is to be accepted and cannot be, or a request is complete, its destination known, and there is no socket for it |
| `DataQueues.DataQueue.Reset` | src/util.c:459-462 | the queue is empty afterwards |
| `DataQueues.DataQueue.Push` | src/util.c:467-477 | appends in place exactly when the octets fit; otherwise refuses and changes nothing |
| `DataQueues.DataQueue.Set` | src/util.c:482-486 | the queue holds exactly the new octets, or nothing when they do not fit |
| `DataQueues.DataQueue.Shift` | src/util.c:491-509 | whatever part send takes, the octets sent followed by those left are the octets there were: none lost, duplicated or moved |
| `LiveLists.SieveDescends` | src/util.c:1017-1053 | taking streams out of the list keeps its order, strictly newest to oldest |
| `LiveLists.ConsDescends` | src/util.c:880-896 | a stream put in front with the newest stamp keeps the order |
| `LiveLists.LastIsOldest` | src/util.c:1129-1140 | the first candidate met from the tail is the oldest candidate of all |
| `LiveLists.LengthBounded` | src/util.c:860-878 | a list of distinct slots is never longer than the pool (pigeonhole) |
| `Links.LinkHeadThreads` | src/util.c:880-896 | the writes of an insertion leave `next` and `prev` mutually inverse through the list with the newcomer in front, and head and tail right |
| `Links.UnlinkThreads` | src/util.c:1031-1049 | the writes of a removal leave them so through the list without the removed stream, wherever in the list it was |
| `Streams.VictimExists` | src/util.c:1125-1150 | a full pool always holds a stream that force_cleanup may take, whichever stream is excluded (pigeonhole over roles and creation stamps) |
| `Streams.VictimIsOldest` | src/util.c:1125-1150 | it is the oldest abandoned stream if there is one, else the oldest client or endpoint; never the excluded one, and the listener only if abandoned |
| `Streams.EvictionFreesOneSlot` | src/proxy.c:48-60 | eviction from a full pool frees exactly the victim's slot, spares every other stream, and the insertion that follows gets that very slot: the failure after eviction cannot happen |
| `Handlers.Seat` | src/util.c:926-939 | an insertion, with eviction in between when the pool is full, always yields a slot, and that slot is the head of the list |
| `Handlers.ArriveSound` | src/util.c:1180-1199 | octets arriving at any sockets change nothing the proxy keeps |
| `BaseInvariant.RemoveConserves` | src/util.c:1017-1028 | the removed stream's descriptor was open; closing it keeps openings, closings and the open set in balance |
| `BaseInvariant.RemoveAgrees` | src/util.c:1019-1028 | after a removal the epoll interest list still agrees with every stream left |
| `BaseInvariant.EvictBase` | src/util.c:1125-1150 | an eviction keeps list shape, roles, descriptor account and epoll agreement |
| `BaseInvariant.OpenBase` | src/util.c:912-924 | a descriptor opened is the one loose descriptor of the account, and closing it again on failure balances the account |
| `BaseInvariant.SeatBase` | src/util.c:926-939 | a new stream, with or without eviction, takes up the one loose descriptor and keeps the base invariant |
| `BaseInvariant.SeatSpares` | src/proxy.c:48-52 | the client an endpoint is sought for is never the stream evicted to make room |
| `BaseInvariant.HandleNewStreamBase` | src/proxy.c:10-31 | accepting a connection keeps the base invariant on all its paths, failing ones included |
| `BaseInvariant.SetupEndpointBase` | src/proxy.c:36-74 | so does dialling an endpoint |
| `BaseInvariant.HandleSocksBase` | src/proxy.c:79-346 | so does a turn of the handshake |
| `BaseInvariant.VisitBase` | src/util.c:1182-1198 | one turn of the loop keeps the base invariant whatever the outside world does, with no hypothesis |
| `Relations.AbandonRelated` | src/util.c:1058-1065 | abandoning a stream keeps the relation graph and the pairs still in service safe: its partner goes with it |
| `Relations.RemoveRelated` | src/util.c:1106-1120 | removing an abandoned stream keeps the graph among the streams in service, so its slot can be reused |
| `Relations.EvictRelated` | src/util.c:1125-1150 | an eviction keeps the relation graph and the pairs in service, unless its victim is an abandoned stream whose `neighbour` is out of date and names one of a pair in service |
| `Relations.EvictSpares` | src/proxy.c:48-60 | no out-of-date `neighbour` names a stream with events to handle: the client an endpoint is sought for is left exactly as it was by the eviction |
| `Relations.JoinRelated` | src/proxy.c:63-69 | joining a new endpoint to a client in the request stage keeps the relation graph, with one more pair pointing at each other |
| `Relations.PromoteRelated` | src/proxy.c:395-403 | promotion keeps the graph: both sides forward from the same moment, with the accounts of forwarded octets and of the reply true from the start, drained or not |
| `Relations.SocketForwardCarries` | src/util.c:337-439 | whatever prefix send takes, the octets taken and those still at the source are the octets there were, in order; the octets taken, and no others, are added to what was sent and to what was forwarded |
| `Relations.DrainedReply` | src/util.c:491-509 | whatever part of a queued reply is sent, what was sent of it and what is left are together what they were, and the interleaving with forwarded octets goes on |
| `Relations.ForwardSafe` | src/util.c:947-971 | a forwarding turn on either side keeps, for every promoted pair, the account of octets in both directions; what a client is sent stays an interleaving of the forwarded octets and the part of the grant that has left its queue; and for a drained pair exactly one side of each direction stays armed |
| `Relations.HandleNewStreamRelated` | src/proxy.c:10-31 | accepting a connection keeps the graph and the pairs, unless it evicts a stale stream |
| `Relations.SetupEndpointRelated` | src/proxy.c:36-74 | so does dialling an endpoint |
| `Relations.HandleSocksRelated` | src/proxy.c:79-346 | so does a turn of the handshake |
| `Relations.StaleEvictionTears` | src/util.c:1129-1136 | evicting a stale stream leaves a stream in service whose partner is abandoned |
| `Relations.VisitGood` | src/util.c:1182-1198 | one turn, with any arrivals and any kernel answers, keeps the relation graph, the hand-off and the accounts of octets in both directions, the rest of the grant included, if and only if it does not evict a stale stream |
| `HandOffs.PairTurnIsHandler` | src/proxy.c:351-411 | what the event handler does to a forwarding pair is one turn of the pair, or the abandonment of both |
| `HandOffs.PromotionIsStart` | src/proxy.c:395-403 | promotion leaves both sides of the pair waiting to read, with nothing forwarded yet and every octet not read before it still to forward |
| `HandOffs.TurnArmed` | src/util.c:947-971 | a turn on a drained pair keeps exactly one side of each direction armed |
| `HandOffs.HandOffExactlyWhenDrained` | src/proxy.c:360-372 | for a pair just promoted: under every schedule of events and every partial send each direction has exactly one side armed, if and only if the client's reply had left the queue before promotion |
| `Steps.HandleNewStreamStep` | src/proxy.c:10-31 | accepting changes nobody's events or level; one stream comes, at most one goes, and its slot is the newcomer's |
| `Steps.SetupEndpointStep` | src/proxy.c:36-74 | the same for dialling, and an eviction there always comes with the advance of a handshake |
| `Steps.VisitStep` | src/util.c:1182-1198 | the same for every turn: levels only advance, abandonment is never undone, roles, descriptors and reported events of other streams stay |
| `Walks.ListenerLast` | src/proxy.c:444-457 | the listener, created first, has no successor for as long as it is listed |
| `Walks.WalkProgress` | src/util.c:1180-1199 | after every turn the saved successor is a listed stream and a measure has fallen, even when an eviction hit that successor and its slot was reused |
| `Walks.WalkBase` | src/util.c:1180-1199 | the base invariant holds before every turn of a walk and after it |
| `Walks.WalkVisitsEach` | src/util.c:1180-1199 | the turns of a walk are the streams listed at its start, in list order, each once, except those evicted before their turn, and nothing inserted meanwhile gets a turn (a severe error leaves a prefix of that), if and only if no eviction hits a saved successor |
| `Walks.WalkHandsReported` | src/util.c:1180-1199 | every stream given a turn is the one that was listed at the start (not a later tenant of its slot), with the events reported then |
| `Walks.WalkGood` | src/util.c:1180-1199 | pairs are related and safe before every turn of a walk and after it if and only if no eviction took a stale stream |
| `Walks.FewEvictionsFresh` | src/util.c:1180-1199 | a walk with at most one eviction since abandoned streams were removed takes no stale stream |
| `Handshakes.SentIsPrefix` | src/proxy.c:114-340 | before promotion a client in the script has been sent a prefix of 5,0 and the grant or of 5,2,5,0 and the grant; all of it once it awaits its endpoint |
| `Handshakes.SendsReply` | src/proxy.c:360-372 | what is sent to a client in the script is what is left of one of the replies to it, never octets it sent itself |
| `Handshakes.DrainInScript` | src/proxy.c:360-372 | whatever part of a reply send takes, the client stays in the script |
| `Handshakes.ReadListens` | src/proxy.c:97-111 | what is in the queue of a client that is read as it asked is exactly what it has sent since the last reply to it |
| `Handshakes.ReactionInScript` | src/proxy.c:114-340 | every reaction to a chunk hangs up or leads to a line of the script that may come next, even when the client is read with its last reply still queued; which one comes is said by `Turns.GreetingTurn`, `Turns.CredentialsTurn` and the turns of a request |
| `Handshakes.VisitShaken` | src/util.c:1182-1198 | one turn that does not stray keeps every client in the handshake in the script, whether its events were asked for or are left from before the walk was restarted; the other clients keep events they asked for |
| `Handshakes.TurnShakenExactlyWhen` | src/util.c:1182-1198 | a turn keeps every client in the handshake in the script if and only if it does not stray: it is not a forwarding turn that changes the events of a client in the handshake which has got the slot of a former partner |
| `Handshakes.RelatedNeverStrays` | src/util.c:947-971 | where every pair is related no turn strays |
| `Handshakes.WalkShaken` | src/util.c:1180-1199 | a walk keeps every client in the script at every turn and at its end, whatever it evicts and however often that restarts it, if and only if no turn of it strays |
| `Handshakes.WalkHeeded` | src/util.c:1180-1199 | unless an eviction hits a saved successor, each client given a turn in the handshake has asked for the events it is given, so no reply is parsed with what follows it |
| `Watching.CleanupFilters` | src/util.c:1106-1120 | cleanup_streams is exactly the order-preserving filter that drops the abandoned streams; the others are left as they were |
| `Watching.CleanupBase` | src/util.c:1106-1120 | it keeps the base invariant |
| `Watching.CleanupRelated` | src/util.c:1106-1120 | it leaves only complete pairs, and so restores the full relation graph |
| `Watching.RemoveAllEmpties` | src/util.c:1070-1083 | remove_all_streams leaves no stream, no registration and no open descriptor but epoll's, with every opening matched by one closing |
| `Watching.MarkPendingExact` | src/util.c:1088-1101 | the marking marks every client and endpoint that is not forwarding and nobody else; that a quiet cycle does it is said by `Cycles.QuietCycle` |
| `Watching.BuildPollRefers` | src/util.c:558-600 | after rebuilding the poll list each stream with events refers to the entry that carries its own descriptor and mask, and every other stream to none |
| `Watching.EpollOneAgrees` | src/util.c:730-766 | the step on one stream asks the kernel only for operations it can perform, keeps the agreement and leaves the stream registered as its events say |
| `Watching.BuildEpollAgrees` | src/util.c:724-769 | the whole incremental update keeps the agreement, even if it is cut short, and fails only when the kernel refuses for its own reasons |
| `Watching.EpollEqualsPoll` | src/util.c:724-769 | after the update the interest list holds exactly the descriptors and masks of a poll list built from scratch, and every pointer in it is the live stream that owns the descriptor |
| `Watching.EpollDeliversLikePoll` | src/util.c:774-800 | whatever is ready, events delivered through epoll leave each stream with what poll would have left it |
| `Runs.WatchAt` | src/util.c:839-847 | a wait changes only registrations, socket contents and reported events of a stream, and reports what was ready of what was asked |
| `Runs.ReportedWasRequested` | src/util.c:605-621 | no stream is handed POLLIN or POLLOUT it did not ask for |
| `Cycles.WaitReports` | src/util.c:605-621 | a wait hands a stream nothing if it asked for nothing or is not ready, else readable and writable as far as it asked, and POLLERR and POLLHUP in any case |
| `Cycles.BuildEpollFailsExactlyWhen` | src/util.c:724-769 | the update of the interest list fails if and only if a registration that must change is refused |
| `Cycles.WaitStatus` | src/util.c:626-659 | a wait fails if and only if poll or epoll_wait does or a registration is refused; else its status is zero if and only if nobody was handed events |
| `Cycles.QuietCycle` | src/util.c:1171-1176 | a wait that hands nobody events leaves of the list, in order and as they were, exactly the streams in service that listen or forward; the proxy goes on |
| `Cycles.BusyCycle` | src/util.c:1178-1202 | any other successful wait is followed by the walk over the streams in service, from the newest, and comes to what that comes to |
| `Cycles.CycleFailsExactlyWhen` | src/util.c:1155-1202 | a cycle ends the proxy if and only if its wait fails or one of its turns is a severe error |
| `Runs.CycleBase` | src/util.c:1155-1202 | an event cycle keeps the base invariant at every turn and at its end |
| `Runs.CycleGood` | src/util.c:1155-1202 | a cycle keeps the relation graph, the hand-off and the octet accounts at every turn and at its end, time-outs included, if and only if no eviction in it took a stale stream |
| `Runs.FewEvictionsCalm` | src/util.c:1155-1202 | a cycle that ends with at most one eviction took no stale stream |
| `Runs.CycleTurns` | src/util.c:1155-1202 | a cycle gives a turn to each stream listed after the wait, in order and once, except those evicted before, if and only if no eviction hits a saved successor; then each is the stream listed, with only events it had asked for |
| `Runs.CycleShaken` | src/util.c:1155-1202 | a cycle keeps every handshake in its script at every turn and at its end if and only if no turn of it strays; then, unless an eviction hits a saved successor, no reply is parsed |
| `Runs.RunBase` | src/proxy.c:461-462 | the base invariant holds at every turn of every run |
| `Runs.RunGood` | src/proxy.c:461-462 | over every run, if and only if no eviction takes a stale stream: partners are in service, of opposite roles and point at each other, are abandoned together and forward together; every promoted pair forwards the octets of both directions in order and once, and the client is sent nothing else but, among them and in order, what was left of the grant; drained pairs hand off without stalling |
| `Runs.RunShaken` | src/proxy.c:461-462 | in every run, whatever is evicted, every handshake follows its script at every turn and between cycles if and only if no turn strays; in cycles without a hit no reply is parsed then |
| `Runs.CalmRunNeverStrays` | src/proxy.c:461-462 | in a run in which no eviction takes a stale stream no turn strays |
| `Runs.BootGood` | src/proxy.c:416-457 | set-up establishes all these invariants |
| `Cycles.StartsExactlyWhen` | src/proxy.c:416-457 | the proxy starts if and only if there is a listening socket, with that as its only stream, and uses epoll if and only if that is to be had |
| `Cycles.RunsOnExactlyWhen` | src/proxy.c:461-462 | it runs on if and only if no cycle has failed |
| `Runs.NoDescriptorLeaks` | src/proxy.c:416-478 | over every life of the proxy, failing set-ups included: at each cycle boundary the open descriptors are the distinct descriptors of the live streams and epoll's, and on return none is open and each was closed as often as it was opened |
| `Runs.LifeIsGood` | src/proxy.c:416-478 | from set-up on: graph, hand-off and octet accounts hold throughout if and only if no eviction takes a stale stream; handshakes follow their scripts if and only if no turn strays; and in the former case none does |
| `Queues.LifeFits` | src/util.c:467-477 | in every life of the proxy, with no hypothesis, every queue fits its 384-octet buffer at every turn |
| `Queues.WalkFits` | src/util.c:1180-1199 | the same over one walk, whatever is evicted on the way |
| `Limits.EvictionSafeExactlyWhen` | src/util.c:1125-1150 | force_cleanup keeps the relation graph if and only if its victim is not stale: abandoned, with an out-of-date `neighbour` that names a slot now held by one of a pair in service |
| `Limits.StaleNamesNewcomer` | src/util.c:1058-1065 | the stream that an out-of-date `neighbour` of a stale stream names has no events to handle in this cycle |
| `Limits.TurnGoodExactlyWhen` | src/util.c:1182-1198 | a whole turn keeps the graph and the pairs if and only if it is not one that, in a full pool, accepts a connection or completes a request while the stream that must make room is stale |
| `Limits.WalkGoodExactlyWhen` | src/util.c:1180-1199 | a walk keeps them throughout if and only if no turn of it is such a turn |
| `Limits.HitExactlyWhen` | src/util.c:1182-1184 | a turn evicts the saved successor if and only if, in a full pool, a client completes its request and dials, and the stream that must make room is that successor |
| `Limits.WalkHitExactlyWhen` | src/util.c:1180-1199 | an eviction hits a saved successor in a walk if and only if some turn of it is such a turn |
| `Limits.HitRestartsWalk` | src/util.c:1182-1184 | then the newcomer takes the slot of the saved successor, so the walk goes on from the head and comes by every listed stream again |
| `Hits.HitLosesClient` | src/util.c:1180-1199 | the client whose request did that does not outlast the walk: if the walk ends without a severe error and evicts no stale stream, the client is abandoned at its end, or was itself evicted |
| `Hits.OnlyNeighbourStarts` | src/proxy.c:395-403 | a stream starts forwarding in the turn of another only as the neighbour of one in service with events to handle |
| `HitLives.HitHappens` | src/proxy.c:416-478 | a life of the proxy, from set-up on, with a cycle in which an eviction hits a saved successor and whose turns are not the listed streams once and in order |
| `TearLives.TearHappens` | src/proxy.c:416-478 | a life of the proxy, from set-up on, with a cycle in which an eviction takes a stale stream, so that the pairs do not stay related and safe |
| `StrayLives.StrayHappens` | src/proxy.c:416-478 | a life of the proxy, from set-up on, in which after such an eviction a turn strays and a handshake leaves its script |
| `Proxies.Proxy.InsertStream` | src/util.c:854-902 | in place: the lowest free slot is cleared and becomes the head, or nothing changes when the pool is full |
| `Proxies.Proxy.CloseStream` | src/util.c:1019-1029 | the descriptor is closed once and forgotten by epoll and by the stream |
| `Proxies.Proxy.UnlinkSlot` | src/util.c:1031-1049 | the in-place writes to head, tail, `next` and `prev` |
| `Proxies.Proxy.RemoveStream` | src/util.c:1017-1053 | in place: unregistered, closed, unlinked and free; nothing else changes |
| `Proxies.Proxy.RemoveRelation` | src/util.c:1058-1065 | in place: the stream and its partner are abandoned |
| `Proxies.Proxy.CleanupStreams` | src/util.c:1106-1120 | the pointer-walking loop, which frees nodes as it goes, computes the cleanup of the abstract state |
| `Proxies.Proxy.RemoveAllStreams` | src/util.c:1070-1083 | the loop computes the removal of everything |
| `Proxies.Proxy.RemovePendingStreams` | src/util.c:1088-1101 | the loop computes the time-out of pending streams |
| `Proxies.Proxy.LastCandidate` | src/util.c:1129-1147 | walking `prev` from the tail finds the last candidate of the list |
| `Proxies.Proxy.ForceCleanup` | src/util.c:1125-1150 | in place: exactly the eviction of the abstract state |
| `Proxies.Proxy.TakeSlot` | src/util.c:926-939 | insertion, eviction and insertion again always find a slot |
| `Proxies.Proxy.HandleNewStream` | src/proxy.c:10-31 | refines the abstract handler |
| `Proxies.Proxy.SetupEndpointStream` | src/proxy.c:36-74 | refines the abstract step, with the status the caller branches on; what that comes to is said by `Turns.NoSocketTurn`, `Turns.RefusedTurn` and `Turns.PendingTurn` |
| `Proxies.Proxy.HandleForwardData` | src/util.c:947-971 | refines the abstract forwarding turn on both streams; a failure changes nothing |
| `Proxies.Proxy.HandleStreamSocks` | src/proxy.c:79-346 | refines the abstract handshake turn; what that comes to is said case by case in `Turns` |
| `Proxies.Proxy.HandleStreamEvents` | src/proxy.c:351-411 | refines the abstract handler; what that comes to is said case by case in `Turns` |
| `Proxies.Proxy.BuildPollList` | src/util.c:558-600 | builds the abstract poll list in a fixed array, never beyond its end |
| `Proxies.Proxy.UpdateReventsPoll` | src/util.c:605-621 | gives each stream what poll reported for its entry |
| `Proxies.Proxy.WatchStreamsPoll` | src/util.c:626-659 | refines the abstract wait |
| `Proxies.Proxy.BuildEpollOne` | src/util.c:730-766 | refines the abstract step on one stream |
| `Proxies.Proxy.BuildEpollList` | src/util.c:724-769 | refines the abstract incremental update |
| `Proxies.Proxy.UpdateReventsEpoll` | src/util.c:774-800 | gives each stream what was delivered for it, and nothing to the others |
| `Proxies.Proxy.WatchStreamsEpoll` | src/util.c:805-834 | refines the same abstract wait as poll does |
| `Proxies.Proxy.VisitStream` | src/util.c:1186-1197 | refines the abstract turn |
| `Proxies.Proxy.WalkStreams` | src/util.c:1180-1199 | the loop with its saved successor refines the abstract walk and ends, whatever the turns do to the list |
| `Proxies.Proxy.HandleStreamsCycle` | src/util.c:1155-1202 | refines the abstract cycle; what that comes to is said by `Cycles.QuietCycle`, `Cycles.BusyCycle` and `Cycles.CycleFailsExactlyWhen` |
| `Proxies.Proxy.Start` | src/proxy.c:416-457 | refines the abstract set-up, failures included |
| `Proxies.Proxy.ProxyTask` | src/proxy.c:416-478 | reaches the state the abstract life reaches, so all of the above holds of it; when it has returned nothing is open |
| `DnsNames.JoinLabels` | lib/dns.c:16-52 | a name without a dot at its end is what its labels spell |
| `DnsNames.LabelsOfJoin` | lib/dns.c:16-52 | labels with dots between them are told apart again |
| `DnsNames.FinalDotIgnored` | lib/dns.c:16-52 | a dot at the end of a name makes no difference to its labels |
| `DnsNames.LengthGuessExact` | lib/dns.c:435 | the assumed length, two more than the name, is right if and only if the name is not empty and has no dot at its end |
| `DnsNames.WireReadsBack` | lib/dns.c:16-52 | reading labels off the wire form gives the labels that were encoded |
| `DnsNames.HostnameRoundTrip` | lib/dns.c:16-52 | encoding a host name and decoding it gives the name back |
| `DnsNames.DnsEncodeHostname` | lib/dns.c:16-52 | succeeds if and only if no label is empty or longer than 255 and the wire form fits, and then writes exactly the wire form and nothing after it |
| `DnsCompression.TargetExactlyWhen` | lib/dns.c:129 | a pointer is followed to the offset section 4.1.4 of RFC 1035 gives if and only if that offset is below 1024 |
| `DnsCompression.EndsSoon` | lib/dns.c:127-130 | a chain of pointers that ends at all ends within 1024 jumps, as all jumps lead below 1024 (pigeonhole) |
| `DnsCompression.ReturnsExactlyWhen` | lib/dns.c:111-141 | the decompressor returns, on any octets, if and only if every pointer it meets leads to something other than a pointer within 1024 jumps, that is, not into a circle |
| `DnsCompression.BackwardReturns` | lib/dns.c:111-141 | it returns whenever every pointer met leads strictly backward |
| `DnsCompression.SelfPointerSpins` | lib/dns.c:127-130 | on any packet, it does not return from a pointer that leads to itself |
| `DnsCompression.DnsDecompressName` | lib/dns.c:111-141 | the loop stays inside both buffers, ends by (room left, jumps left), and writes exactly the scanned name or reports that it does not fit |
| `DnsCompression.DecompressionExpands` | lib/dns.c:111-141 | for every well-formed name of labels and backward pointers the octet scan writes the labels that the recursive expansion of section 4.1.4 of RFC 1035 gives, whenever they fit, and reports so when they do not |
| `DnsCompression.PlainNameUnchanged` | lib/dns.c:111-141 | on an uncompressed name of octets below 0xC0 the decompressor is the identity |
| `DnsCompression.EncodedUnchanged` | lib/dns.c:16-52 | decompressing an encoded host name gives the encoding back |
| `DnsRecords.DnsNearbyAnswer` | lib/dns.c:57-106 | on any octets a success moves the cursor on by at least eleven octets and not past the limit, onto exactly the next record; a failure leaves it alone |
| `DnsRecords.WalkFindsRecords` | lib/dns.c:57-106 | walking any serialised list of well-formed records (section 4.1.3 of RFC 1035; names ending at the root or in a pointer) finds each header in order, with its type and its data, and ends exactly at the end |
| `DnsRecords.HeadersFound` | lib/dns.c:57-106 | the headers are found at the offsets the serialisation put them |
| `DnsResolve.Query` | lib/dns.c:152-398 | for any replies the recursion only ever adds to the queries made, and makes at most 48 over the whole tree |
| `DnsResolve.TryServers` | lib/dns.c:338-365 | the same bound for the loop that resolves name servers and asks them |
| `DnsResolve.ResolveRoot` | lib/dns.c:403-420 | the same bound for a resolution from a root server |
| `DnsResolve.QueryJustified` | lib/dns.c:152-398 | every step of a successful resolution (ADDITIONAL, NS, CNAME) is backed by a record, in the right section and with the right type octets, of a reply to a query that was made for that name to that server, and the addresses are the four data octets of address records; a resolution that never ends is backed by a circle of pointers in such a record |
| `DnsResolve.ResolutionSound` | lib/dns.c:403-420 | whatever the replies, a resolution makes at most 48 queries; one that succeeds reports the four data octets of an A record in the ANSWER section of a reply, reached by such a chain; one that does not end met a reply with a circle of pointers where, for the name asked, a server or an alias is named |
| `DnsAnswers.AnswerIsData` | lib/dns.c:285-301 | a query whose reply, as laid out octet by octet, has an A record in its ANSWER section finds exactly the data of the first such record, and makes no other query |
| `DnsAnswers.AdditionalIsAsked` | lib/dns.c:314-333 | when there is none, the next query is for the same name to the server whose address is the data of the first A record of the ADDITIONAL section |
| `DnsAnswers.QueryFollowsPlan` | lib/dns.c:285-398 | a query without an address in its reply fails at once if the ANSWER or AUTHORITY section is cut short; else everything there is to try is tried in order (addresses in ADDITIONAL, named servers in AUTHORITY, aliases in ANSWER, told from the octets) and it comes to what that comes to |
| `DnsAnswers.SearchSucceedsExactlyWhen` | lib/dns.c:314-398 | that search finds an address if and only if one of these things leads to it after all earlier ones were tried in vain |
| `DnsAnswers.UnansweredQuery` | lib/dns.c:245-262 | a query without a reply counts, and fails |
| `DnsAnswers.QueriesRunOut` | lib/dns.c:178-182 | after 48 queries none is made any more |
| `DnsAnswers.RootPicked` | lib/dns-root.h:11-14 | a resolution begins at 8.8.8.8 or 8.8.4.4, as the clock has it |
| `DnsResolve.PoisonSticks` | lib/dns.c:152-398 | for any name: if the first reply has one answer, an alias named by a circle of pointers, and nothing else, the resolution does not end |
| `DnsResolve.SelfAliasNeverEnds` | lib/dns.c:367-394 | a reply of 33 octets, well formed but for an alias that points at itself, on which resolving the name asked for does not end |
| `DnsClient.BackwardEnds` | lib/dns.c:111-141 | a resolution ends if, in the replies to the queries it makes and as parsed for the names it asks, servers and aliases are named with strictly backward pointers |
| `DnsClient.FindAddress` | lib/dns.c:285-301 | finds the first address record of the section, or reports whether the section is complete and where it ends |
| `DnsClient.SkipSection` | lib/dns.c:306-312 | passes over the section, or reports that it is cut short |
| `DnsClient.Resolver.DnsRecursiveQuery` | lib/dns.c:152-398 | the program's recursion with shared counter and out-parameter ends and does what the specification says whenever no decompression it makes is endless; the address is written exactly when success is reported |
| `DnsClient.Resolver.AskAdditional` | lib/dns.c:314-333 | the same for the loop over the ADDITIONAL section |
| `DnsClient.Resolver.AskServers` | lib/dns.c:335-365 | the same for the loop over name servers, in which a cut-short section cannot occur |
| `DnsClient.Resolver.AskAliases` | lib/dns.c:367-394 | the same for the loop over aliases |
| `DnsClient.Resolver.DnsResolveRoot` | lib/dns.c:403-420 | the same for a resolution from a root server |
| `DnsClient.Taken` | lib/dns.c:435 | the octets taken for the wire form are two more than the name has characters and begin with the wire form; they are the wire form if and only if the name is not empty and has no dot at its end |
| `DnsClient.OverreadExactlyWhen` | lib/dns.c:425-436 | they run past the end of the buffer if and only if the name has 255 characters and a dot at its end |
| `DnsClient.OverreadHappens` | lib/dns.c:425-436 | a host name that a well-formed CONNECT request can carry and for which they do |
| `DnsClient.Nsaddr` | lib/dns.c:425-436 | fails without a query when the name cannot be encoded; else success comes with the octets of an answered A record, at most 48 queries are made, and failure leaves the address alone |
| `DnsAnswers.ResolutionIsData` | lib/dns.c:425-436 | a host name whose first reply has an A record in its ANSWER section resolves to the data of the first such record |
| `NsCache.ViewLater` | src/nscache.c:63-75 | time passing on the array is time passing on the map it stands for |
| `NsCache.FullExactlyWhen` | src/nscache.c:84-98 | the map is full if and only if no record has expired |
| `NsCache.GivenUpOnlyWhenFull` | src/nscache.c:84-98 | an unexpired record is overwritten only when the map is full, and then it is one |
| `NsCache.StoringRefines` | src/nscache.c:84-102 | storing keeps unexpired names distinct, enters the name with its answer for 900 seconds, and takes out nothing but what is given up |
| `NsCache.LookupRefines` | src/nscache.c:39-105 | each call on the array is the same call, with the same outcome, on an expiring map |
| `NsCache.RunDistinct` | src/nscache.c:39-105 | after any calls, made in any order of clock readings, unexpired records have distinct names at every time not before the latest of those readings |
| `NsCache.RecordsSourced` | src/nscache.c:100-102 | every record in use holds what the resolver answered to a call for that very name |
| `NsCache.HitIsRecent` | src/nscache.c:63-75 | an answer given without asking the resolver is what the resolver answered to an earlier call for the same name, less than 900 seconds before; with no hypothesis on the clock, and that call is not in the future if the clock shows no less than before |
| `NsCache.ClockGoingBackBreaks` | src/nscache.c:84-102 | a concrete run after which, with the clock set back, two unexpired records have one name and the one that serves it comes from the future |
| `NsCache.CacheIsIdeal` | src/nscache.c:39-105 | as long as no more than 1024 different names are looked up, the array stands at every time for the map that never gives an entry up before it expires |
| `NsCache.OutcomesIdeal` | src/nscache.c:39-105 | and every call is answered, from the cache or by asking, as that map would answer it, whatever comes later |
| `NsCache.HitExactlyWhen` | src/nscache.c:39-75 | as long as no more than 1024 names are looked up, a name is answered without asking if and only if it spells an address, or has at most 31 characters and was resolved by an earlier call less than 900 seconds before; that answer is given again |
| `NsCache.LookupLeaves` | src/nscache.c:77-105 | a call leaves all records, or renews one for 900 seconds: the first expired one, or, when none is, the one the clock picks |
| `NsCache.LongNamesAsked` | src/nscache.c:55-58 | a name of 32 characters or more is resolved each time |
| `NsCache.Cache.FindServing` | src/nscache.c:63-75 | the loop finds the first unexpired record of the name |
| `NsCache.Cache.FindExpired` | src/nscache.c:84-93 | the loop finds the first expired record |
| `NsCache.Cache.Refresh` | src/nscache.c:77-102 | in place: after a successful resolution exactly one record changes, to that answer; after a failure none |
| `NsCache.Cache.NsaddrCached` | src/nscache.c:39-105 | in place: the new records and the report are those of the specification, with what resolving that host name gives as the answer of the resolver, which is asked only on a miss |

## Left out

- Logging, `show_stats`, socket options and `errno` have no bearing on the state.
- `ip_port_decode` and `format_ip_port` rest on library functions whose behaviour is not in the repository; `inet_pton` is a parameter of the cache.
- Command line, daemon mode and `startup.c` are not part of this model.
- DNS time-outs, query identifiers and the loop that waits for a matching packet (lib/dns.c:253-271): the model takes the buffer as that loop leaves it, with no claim that the packet matches the query.
- The list of 256 streams never exceeds the array of 256 entries, so the capacity error of `build_poll_list` (src/util.c:576-581) is proved out of the way rather than modelled as a branch.
- The failures after an eviction (src/util.c:934-939 and src/proxy.c:55-60) are proved unreachable, and so are not branches of the model.
- `proxy_task` never returns while all goes well; `Proxies.Proxy.ProxyTask` follows it for any finite number of cycles.
- Inside the pool a stream's queue is a sequence; that it always fits the buffer is proved in `Queues`, and that the in-place buffer then behaves like that sequence in `DataQueues`, but the two are not one data structure.
- The pool record is one value per slot, so writes to single fields of a record are not told apart from writing the record back.
- The proxy takes from the resolver only whether it succeeded; `NsCache` and `DnsClient` are not called from the handshake, since the octets of an address decide nothing in the proxy.
- Greeting fragments: the code decides on the first chunk, so independence of fragmentation is stated for the request stage only.
- Octets that follow a request in the same chunk are dropped by `queue_set`; the account of forwarded octets begins at promotion.
- The octets of a host name given to the client are taken as a C string: a name with NUL in it would be cut there before it reaches the resolver.
- DnsClient.Nsaddr: assumes that none of the decompressions made for the replies to its own queries is endless, because then the program does not return; the same goes for the methods of `DnsClient.Resolver`.
- NsCache.Cache.NsaddrCached: assumes the same, and only of calls that ask the resolver.
- NsCache.CacheIsIdeal: needs a clock that does not go back, and so do `NsCache.OutcomesIdeal` and `NsCache.HitExactlyWhen` of the calls before the one in question.
- Runs.RunShaken: speaks of a client until it is promoted. That promotion finds it at the stage where the grant was queued is part of `Runs.RunGood`, and so holds where no eviction takes a stale stream.
- Cycles.QuietCycle: speaks of states in which the pairs are related, as they are where no eviction took a stale stream; after a tear a time-out may drop the former partner of a pending stream with it.
- The octet past the end of the buffer in `nsaddr` is modelled as an octet of unknown value; that reading it is undefined in C is not.
