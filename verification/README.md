# A verified model of cpglockd

`cpglockd` is a distributed lock server. Each daemon keeps a lock table, a first-in-first-out
request queue, an age-ordered member list and a counter of lock ids, and reacts to LOCK, GRANT,
UNLOCK, NAK, PURGE and JOIN messages and to membership views, all of which Corosync CPG delivers
to every daemon in one agreed total order. The right to a resource is a token: the last owner of
a lock (or the oldest member, for a lock nobody has owned) decides who gets it next, from its own
copy of the queue and from local state no other daemon can see, while messages are on their way.

The project models that protocol, the client library that talks to it and the library's transfer
loop, and proves properties over all runs.

| file | what it holds |
|---|---|
| `Types`, `Protocol` | the state of a daemon and its handlers as functions |
| `Daemon` | the daemon as the program has it: mutable fields, loops, in-place deletion; every method is proved equal to its `Protocol` function on the whole state, messages sent and replies written |
| `Group`, `Cluster`, `Runs` | the agreed order and what it says about membership, age and responsibility; clusters of daemons with outboxes and delivery positions; steps, and the kinds of runs |
| `Slices`, `Frames`, `Membership`, `Structure*`, `Invariant`, `Token*`, `LockIds`, `PendingOwner` | invariants, handler by handler |
| `FreeRuns`, `Queues`, `Connections` | every run the environment can produce: unique leader, pending states, lock ids; where queued requests come from; who is connected |
| `Safety`, `Theorems` | the token invariant over every guarded run; single token, mutual exclusion, resolution of lock ids |
| `ViewGuard`, `Newcomers`, `CalmRuns` | when recovering a lock is safe: exactly, and by conditions that can be checked before a view is ordered |
| `Recovery`, `Claims`, `Survivors` | crashes: who recovers, how often, who inherits, and agreement among survivors |
| `Disconnect`, `Witness` | vanishing clients: exactly when they are safe, and a run that shows the condition is needed |
| `WitnessRejoin`, `WitnessHeir` | runs in which a grant to a node that is back breaks exclusion, and in which nobody recovers the locks of a node |
| `LocalState`, `Askers`, `Crash*` | a group that members leave and nobody joins: what pending locks and marks mean, and exactly who is stranded |
| `Stranded`, `WitnessStranded` | that being stranded is for good, and two runs that end in it |
| `Release`, `Replies` | in such a group releases take effect, and what daemons write to their clients |
| `Replica`, `Fixed*`, `Fifo` | a fixed group: replica agreement, first come first served, no stranded waiter |
| `Refusal`, `RefusalTheorems`, `WitnessTry` | a fixed group: exactly which try-requests are refused, and what can still happen to them |
| `Convergence`, `MemberLists`, `MemberRuns` | member count and member-list convergence |
| `Scenes`, `OneDaemon` | tools for concrete runs, and the common beginning of two of them |
| `Corners` | what handlers keep in cases no correct run produces |
| `Client`, `Verdicts` | the client library: threads sharing one connection; who wins which lock and how calls end |
| `IoLoop` | the transfer loop with its time budget |

## How runs are modelled

A cluster (`Cluster.Sys`) is a set of daemons, each with an outbox and a position in the agreed
order, and the order itself. A step connects a client, lets it ask for a lock or release one,
drops it, moves the head of an outbox into the order, delivers the next event to one daemon, or
inserts a membership view. Daemons may be at different positions. Walks over the lock table visit
it in an arbitrary order, which is a parameter of the step. Clocks, sockets and the group service
are parameters or steps. `Cluster.Enabled` is what the environment can do at all: node ids and
client pids are not zero, a process has one connection per daemon, a client releases a lock it was
told about at most once (`Client.ReleasedAtMostOnce` says exactly when the library sees to that), a
view removes a departed node together with what it had not yet ordered. Counters do not wrap. Runs start from a group that has formed, with all its members JOINed and an
agreed list; the group may be empty, so runs in which the first daemons start from nothing are
included.

`Runs.May` gives the kinds of runs by what they add to `Cluster.Enabled`:

- `Any`, also called free runs: nothing. Clients vanish and node ids come back at any time.
- `Guarded`: two conditions on the step at hand, both exact.
  - A client vanishes only when none of its locks has a handover on its way or another waiter
    (`Cluster.MayVanish`); `Disconnect.DisconnectExact` shows that this is exactly the condition, and
    `Witness.VanishingBreaksExclusion` what happens without it.
  - A view is delivered to a daemon only when no lock the daemon recovers in it has a grant on its way
    past the daemon (`Cluster.MayRecover`). `ViewGuard.ViewExact` shows that this is exactly the
    condition. It is on the delivery and not on the view itself, because a daemon that lags behind
    when the view is ordered does not show yet what it will recover.
- `Tidy`: conditions on other steps, which make every delivery of a view safe (`Safety.TidyReaches`).
  Clients vanish as above. A node id comes back only when no recovery message about it is on its way
  (`Cluster.RecoveredHere`): its departure and the grants and releases in its name have been delivered,
  and no daemon has a grant on its way of a lock its table records as that node's; tables, queues and
  member lists may go on naming it. And no grant is ordered to a node between the view in which it
  comes back and its JOIN (`Cluster.ToAnnounced`).
- `Hasty`: `Tidy` without that last condition. `WitnessRejoin.StaleGrantBreaksExclusion` is such a run,
  in which two clients end up with the same lock.
- `Calm`: `Hasty`, and when a node comes back no queue names it and no request for it or grant to it is on
  its way. Calm runs are tidy (`CalmRuns.CalmReaches`): the requests of the earlier life are all that
  can be granted too soon.
- `Regular`: free runs in which daemons join one at a time, into a view that lists the members that
  have JOINed in the order of their JOINs, and views carry the daemons' true addresses.
- `Crash`: members leave at any time, nobody joins, no client vanishes, and no client repeats a
  sequence number for the same resource.
- `Fixed`: `Crash` without views.

Crash runs can strand a waiter: a request then waits, everything is delivered, and nobody has the lock.
`CrashTheorems.StrandedExact` says exactly when, `Stranded.StrandedForGood` that no later step helps.
There are three ways into it. A grant to a node that is gone finds nobody waiting, so every daemon shows
the lock free and owned by that node (bin/cpglockd.c:1029-1040, `WitnessStranded.GrantToTheDeparted`). The
oldest node dies with the first grant of a lock unordered, so every daemon shows it free and nobody's
(`WitnessStranded.GrantLostWithTheOldest`). Or it dies when it has passed such a grant on and its
release is unordered, so every daemon shows the lock held by the node that is gone.

## Model

| member | source | states |
|---|---|---|
| `Theorems.MutualExclusionHolds` | bin/cpglockd.c:917-1132 | in every state of every guarded run (joins, crashes, node ids that come back, try-locks, any delivery interleaving; guarded by the exact conditions on disconnects and on delivered views) no two clients of members have been told they hold the same resource |
| `Theorems.SingleToken` | bin/cpglockd.c:917-1132 | in every guarded run a resource has at most one token among: told to a client, grant unordered, grant ordered and not yet seen by the node it makes responsible, release on its way, free at its owner, unclaimed at the oldest |
| `Safety.RunKeeps` | bin/cpglockd.c:544-1347 | the safety invariant is kept by every guarded run, and a stronger one by every tidy run |
| `Safety.StepKeeps` | bin/cpglockd.c:544-1347 | each invariant is kept by each kind of step |
| `ViewGuard.ViewExact` | bin/cpglockd.c:670-778 | in every reachable state of a guarded run and for every view about to be delivered: afterwards "a lock the daemon regards as its own and free has no grant on its way, and no grant it has sent has another one on its way" if and only if no lock the daemon recovers in the view had a grant on its way; then the whole invariant is kept |
| `Safety.TidyReaches` | bin/cpglockd.c:670-778 | every tidy run is a guarded run: if what is on its way about a departed node has arrived before it comes back, and nothing is granted to it before its JOIN, every view can be delivered |
| `CalmRuns.CalmReaches` | bin/cpglockd.c:1029-1040 | every calm run is a tidy run: if no queue and nothing on its way names a node when it comes back, no grant to it is ordered before its JOIN |
| `FreeRuns.UniqueLeader` | bin/cpglockd.c:99-101 | in every free run at most one joined daemon heads its own member list, whatever order first views listed members in and at whatever positions the daemons are |
| `FreeRuns.IdsDistinct` | bin/cpglockd.c:829-831 | in every free run the non-zero lock ids of a daemon are distinct and bounded by its counter |
| `Theorems.LockIdResolution` | bin/cpglockd.c:1134-1176 | in every guarded run a holder's id resolves, whatever the order of the walk, to its own lock, which is then granted on or released in its name |
| `FreeRuns.PendingIsOwn` | bin/cpglockd.c:932-961 | in every free run a pending lock is owned by the daemon itself or by nobody yet |
| `Queues.QueueIsHeard` | bin/cpglockd.c:917-926 | in every free run a daemon's queue is part of the LOCKs it was delivered since its own JOIN, in the agreed order and none of them twice; a daemon that has not announced itself queues nothing, and each queued request was ordered while the daemon was a joined member, in its present life |
| `Connections.ConnectionsExact` | bin/cpglockd.c:592-619 | in every free run a daemon's connections are exactly those made and not closed since it joined, in order, each with the process that asked on it; no two share a descriptor or a process; everybody the daemon has told about a lock is among them |
| `Connections.DelClientCloses` | bin/cpglockd.c:604-613 | for any list without repeated descriptors: the connection with the descriptor goes, all others stay unchanged and in order |
| `Connections.StrangerGoes` | bin/cpglockd.c:619-622 | a connection on which nobody has asked goes without any message or other effect |
| `Recovery.SingleRecovery` | bin/cpglockd.c:670-778 | for every view about to be delivered in a free run: only the oldest member left by the view sends anything, each leaver is purged at most once, and at most one grant or release is sent per resource |
| `Recovery.HeirExact` | bin/cpglockd.c:688-710 | for every view about to be delivered in a free run to a joined daemon that is not the oldest after it: each lock of a listed leaver ends up with the head of the list the view leaves, even if a leaver was made owner in passing, so with a leaver if and only if that head is one; no other lock is touched |
| `MemberRuns.NoStaleOwner` | bin/cpglockd.c:688-710 | in every regular run such a view leaves no lock whose owner the daemon had listed with a leaver |
| `WitnessHeir.NobodyRecovers` | bin/cpglockd.c:1291-1311 | a concrete run in which two daemons join together, so list the oldest member twice, and when it leaves both record it as the owner of its lock and as the oldest member |
| `Survivors.SurvivorsAgree` | bin/cpglockd.c:670-778 | take any state of a tidy run and two joined daemons at one position with the same claim on a lock and the same list, which names nobody twice and each of them by its true address, and with a count one above it; continue the run in any way that leaves both in the group: at every common position they have the same list and agree on owner node, owner process and held-or-not, unless one of them shows the lock as not held and its own grant or release of it is still on its way (recovery messages, grants passed on to any number of nodes that are gone, and releases of vanished clients included) |
| `Survivors.FoundersAgree` | bin/cpglockd.c:670-778 | so members of the group as it was formed agree on every resource, over every tidy run in which they stay, whatever crashes, joins and comes back around them |
| `Claims.LeaveAllFollows` | bin/cpglockd.c:1319-1341 | a whole list of leavers takes a daemon from one such relation to the agreed claim to the next |
| `Recovery.HeadRecovers` | bin/cpglockd.c:727-765 | for every walk, the oldest survivor grants a dead node's lock to the earliest waiter left after the purge; if there is none it takes the lock over, and sends a release exactly if the lock was held |
| `Disconnect.DelClientExact` | bin/cpglockd.c:592-666 | for any table, queue and walk: afterwards the process holds and requests nothing, each lock it held got exactly one message (a grant to the earliest surviving waiter, else a release), other locks and the order of other requests are unchanged |
| `Disconnect.ToldIsKept` | bin/cpglockd.c:1109-1128 | in every guarded run, whatever a daemon is delivered next (the release of a vanished process included), every client it has told keeps its lock under the same id |
| `Disconnect.VanishedGrant` | bin/cpglockd.c:1012-1027 | a grant to a vanished process is passed on by exactly one message, to the earliest other waiter or as a release; the lock stays held in its name until then |
| `Disconnect.DepartedGrant` | bin/cpglockd.c:1029-1040 | a grant to a node that is gone is passed on by the oldest member and by no other, by exactly one message, to the earliest other waiter or as a release; the oldest shows the lock free at once, the others held by that node |
| `Disconnect.DisconnectExact` | bin/cpglockd.c:592-666 | in every reachable state of a guarded run, a disconnect keeps "a lock free at its owner has no grant on its way" if and only if none of the client's locks has a handover on its way or another waiter; then the whole invariant is kept |
| `Witness.VanishingBreaksExclusion` | bin/cpglockd.c:651-655 | a concrete run in which a client vanishes while another waits and two clients end up holding the same lock |
| `WitnessRejoin.StaleGrantBreaksExclusion` | bin/cpglockd.c:1029-1040 | a concrete run in which a node comes back with nothing on its way, a grant to a request of its earlier life is ordered before its JOIN and passed on twice, and two clients end up holding the same lock; every other hypothesis holds of every step |
| `Replica.HandlerReplays` | bin/cpglockd.c:917-1132 | one handler does to a daemon's shared view (owners, held-or-not, queue without marks) what one step of a pure replay does |
| `FixedTheorems.ReplicaAgreement` | bin/cpglockd.c:893-1132 | in every fixed run a daemon's shared view equals the replay of the prefix delivered to it, so daemons at the same position agree whatever their pending states and marks |
| `FixedTheorems.FifoGrants` | bin/cpglockd.c:544-564 | in every fixed run every grant answers exactly one earlier request, and the grants of a resource are ordered like the requests they answer |
| `FixedTheorems.NoOvertaking` | bin/cpglockd.c:999-1009 | when a grant is ordered, no request for the resource still waiting was ordered before the one it answers |
| `CrashTheorems.LocalStateMeaning` | bin/cpglockd.c:551-559 | in every crash run a pending lock has the daemon's own grant of it on the way and is its own or nobody's; a marked request has its own grant on the way; at most one request per resource is marked |
| `CrashTheorems.StrandedExact` | bin/cpglockd.c:926-963 | in every crash run, once everything sent is delivered, all daemons have the waiting request and agree on the claim on its lock, and a client was told it has the lock and has not released it if and only if the recorded owner is still a member |
| `Stranded.StrandedForGood` | bin/cpglockd.c:1029-1040 | otherwise, however the run goes on, no grant of the lock is ever ordered, nobody is told to have it, and every daemon goes on recording that owner |
| `WitnessStranded.GrantToTheDeparted` | bin/cpglockd.c:1029-1040 | a concrete crash run: the view that removes a node is ordered before the grant to it, nobody waits, and a later request waits for a lock recorded as that node's |
| `WitnessStranded.GrantLostWithTheOldest` | bin/cpglockd.c:951-963 | a concrete crash run: the oldest node leaves with the first grant unordered, and the request waits for a lock recorded as nobody's |
| `FixedTheorems.NoStrandedWaiter` | bin/cpglockd.c:926-963 | in every fixed run, once everything sent is delivered everywhere, a waiting request implies that a client was told it has the lock and has not released it, and every daemon shows that client as holder |
| `Release.ReleaseTakesEffect` | bin/cpglockd.c:1109-1128 | in every crash run each ordered release, at whichever daemon it is delivered, finds the lock held by exactly the process it names and frees it, or the daemon has sent it itself and shows the lock as not held already |
| `Release.ReleaseFindsHolder` | bin/cpglockd.c:1109-1128 | in every fixed run it finds the lock held, at the sender too |
| `Replies.RepliesExact` | bin/cpglockd.c:812-890 | in every crash run the sequence of replies a daemon has written to its clients is exactly what the order up to its position says: for each grant to the node one reply with the next lock id, and for each refusal of one of its requests that is still waiting one refusal |
| `Replies.RefusalWritten` | bin/cpglockd.c:1057-1086 | in every crash run a daemon has written the refusal of a request once if a refusal that found the request waiting has been delivered to it, and otherwise never |
| `Replies.NakWrites` | bin/cpglockd.c:1057-1086 | for any state: a refusal for this node is written if and only if the daemon has joined, the request is queued and its process is connected |
| `Replies.NakOfVanished` | bin/cpglockd.c:1075-1078 | a refusal for a process that is gone takes exactly that process's requests off the queue and does nothing else |
| `RefusalTheorems.RefusedOnlyIf` | bin/cpglockd.c:939-943 | in every fixed run every refusal answers an earlier request with the try flag that met a lock with an owner and in use |
| `RefusalTheorems.RefusedExactly` | bin/cpglockd.c:926-943 | in every fixed run, once everything sent is delivered, a request has been refused if and only if it carries the try flag and the order before it leaves its lock owned and busy |
| `RefusalTheorems.RefusalFinal` | bin/cpglockd.c:1057-1086 | in every fixed run a request that is both refused and granted has its refusal ordered behind every earlier grant of the resource; so a refusal ordered before a grant to somebody else is final |
| `RefusalTheorems.GrantedUnseen` | bin/cpglockd.c:544-564 | in every fixed run a daemon that sends a grant has not been delivered a refusal of that request |
| `WitnessTry.RefusedAndGranted` | bin/cpglockd.c:939-943 | a concrete fixed run at the end of which one request has been refused and granted |
| `MemberRuns.MembersConverge` | bin/cpglockd.c:1184-1210 | in every regular run a daemon's list restricted to JOINed members is the JOIN order; once all members have JOINed it is exactly the members in JOIN order; the count exceeds it by one |
| `Convergence.MemberCount` | bin/cpglockd.c:1291-1347 | after a first view in which the daemon joins alone, the member count minus the list length is 1 after any sequence of events |
| `Convergence.ViewCount` | bin/cpglockd.c:1319-1347 | then the bootstrap branch is not taken again and the count never goes below zero |
| `Protocol.FirstWaiter` | bin/cpglockd.c:549-552 | the first request for the resource that has not been granted |
| `Protocol.FirstMatch` | bin/cpglockd.c:999-1004 | the first request with the given resource, node, process and sequence number |
| `Daemon.Daemon.GrantNext` | bin/cpglockd.c:544-564 | the search loop marks the first waiter and sends its grant, or does nothing |
| `Daemon.Daemon.PurgeRequests` | bin/cpglockd.c:567-590 | deleting while iterating leaves exactly the requests of others, in order |
| `Daemon.Daemon.TakeRequest` | bin/cpglockd.c:999-1009 | the first request with the key is deleted, or none |
| `Daemon.Daemon.FindClient` | bin/cpglockd.c:781-792 | whether some connection belongs to the process |
| `Daemon.Daemon.IsMember` | bin/cpglockd.c:229-240 | whether the node is listed |
| `Daemon.Daemon.FindLockById` | bin/cpglockd.c:1134-1176 | the first lock of the walk that carries the id |
| `Daemon.Daemon.ProcessLock` | bin/cpglockd.c:917-966 | the handler's whole effect |
| `Daemon.Daemon.GrantClient` | bin/cpglockd.c:812-854 | the lock gets the next id; the client is told if it is connected |
| `Daemon.Daemon.ProcessGrant` | bin/cpglockd.c:969-1054 | the handler's whole effect, with both paths for an owner that is gone |
| `Daemon.Daemon.TellOwner` | bin/cpglockd.c:1012-1027 | tells the client, or purges its requests and passes the lock on |
| `Daemon.Daemon.ProcessNak` | bin/cpglockd.c:1057-1086 | the handler's whole effect |
| `Daemon.Daemon.ProcessUnlock` | bin/cpglockd.c:1089-1132 | the walk over the whole table affects the one lock the message names |
| `Daemon.Daemon.ProcessJoin` | bin/cpglockd.c:1179-1214 | move to the tail, ignore, or append |
| `Daemon.Daemon.Deliver` | bin/cpglockd.c:1217-1255 | dispatch of a message |
| `Daemon.Daemon.SeedMembers` | bin/cpglockd.c:1291-1311 | the nested bootstrap loops add one entry per other member and joiner |
| `Daemon.Daemon.RelabelLocks` | bin/cpglockd.c:688-710 | the walk makes the heir owner of exactly the dead node's locks |
| `Daemon.Daemon.RecoverLock` | bin/cpglockd.c:727-765 | one turn of the recovery walk |
| `Daemon.Daemon.DelNode` | bin/cpglockd.c:670-778 | the whole effect of losing a node |
| `Daemon.Daemon.ConfigChange` | bin/cpglockd.c:1273-1347 | the whole effect of a view; when the daemon is told it has left, the effect of the leavers before that |
| `Daemon.Daemon.ClientLock` | bin/cpglockd.c:152-154 | the connection gets its process and the request is multicast |
| `Daemon.Daemon.ClientUnlock` | bin/cpglockd.c:155-164 | the lock found by id is granted on or released |
| `Daemon.Daemon.DelClient` | bin/cpglockd.c:592-666 | the whole effect of losing a client |
| `Corners.HeldStaysOwned` | bin/cpglockd.c:980-990 | whatever message arrives, a lock somebody holds is never recorded as held by nobody |
| `Corners.JoinKeeps` | bin/cpglockd.c:1184-1210 | for any list: a JOIN loses no address, adds one exactly if the node was not listed, is ignored if the node is listed by another address, and keeps the count in step |
| `Corners.StaleUnlock` | bin/cpglockd.c:155-164 | letting go of an id no lock carries does nothing |
| `Corners.CountAfterView` | bin/cpglockd.c:1343-1347 | for any list and count: a view takes as much off the count as off the list, but not below zero |
| `Client.Demultiplexing` | lib/libcpglock.c:127-184 | for every interleaving of threads: replies read are replies returned plus replies kept, as multisets; a reply is returned only to the call with its resource and sequence number; no sequence number is shared and no call returns twice |
| `Client.ReplyFound` | lib/libcpglock.c:152-166 | a waiting call whose reply any thread has read returns it at its next turn without reading |
| `Client.ReleasedAtMostOnce` | lib/libcpglock.c:224-249 | for every interleaving of threads, cpg_unlock being guard and store without the mutex: if no id was won twice, no id is released more often than it was won if and only if no call finds, past its guards, that another call has released the structure meanwhile |
| `Client.ApartIsClean` | lib/libcpglock.c:224-249 | that is the case whenever calls of cpg_unlock on one structure do not overlap |
| `Client.DoubleRelease` | lib/libcpglock.c:224-249 | a concrete history in which two threads release one lock twice |
| `Client.ReleasedIsGone` | lib/libcpglock.c:230-247 | then a released id that was won once is held by no lock structure |
| `Client.HistorySound` | lib/libcpglock.c:112-252 | over every history: conservation and routing of replies, and a call past the guards of cpg_unlock finds the lock held or its id already released |
| `Verdicts.VerdictsExact` | lib/libcpglock.c:187-204 | over every history: the ids won are those of the returned replies that are grants from a node, in that order, and a held lock structure has node and id of the last such reply for it |
| `Verdicts.StructsChange` | lib/libcpglock.c:187-204 | a lock structure becomes held or changes owner or id only when such a reply is returned to the call that fills it, and always then; it is let go of only past the guards of cpg_unlock |
| `Verdicts.FirstReplyWins` | lib/libcpglock.c:154-184 | over every history and interleaving a call returns the first reply to it that any thread has read |
| `Verdicts.CallsEnd` | lib/libcpglock.c:154-184 | over every history a call in progress is still waiting, has returned a reply, or met a broken connection |
| `Verdicts.EmptyTurns` | lib/libcpglock.c:158-166 | a turn with nothing kept that times out changes nothing; with a broken connection it ends the call and changes nothing else |
| `Verdicts.HeldNamesLock` | lib/libcpglock.c:137-202 | over every history in which no structure is passed to cpg_lock while it is held or being filled, a held structure names the resource of the grant that filled it |
| `Verdicts.CallBegins` | lib/libcpglock.c:127-150 | a call begins as the method says, waits if its request could be written, and names the resource in the structure |
| `Verdicts.StrangersBarred` | lib/libcpglock.c:129-132 | calls by a process that did not open the handle change nothing |
| `Verdicts.UnlockedOnce` | lib/libcpglock.c:230-247 | of two calls of cpg_unlock one after the other on a structure, at most the first releases, whoever makes them |
| `Verdicts.UnlockInTwo` | lib/libcpglock.c:224-249 | guard and store with nothing in between do to structure and releases what the whole call does |
| `Client.Handle.CheckPending` | lib/libcpglock.c:46-70 | the first kept reply for the call is taken out, or none |
| `Client.Handle.TakeTurn` | lib/libcpglock.c:154-183 | one turn of the retry loop |
| `Client.UserLock.Fill` | lib/libcpglock.c:187-204 | the end of cpg_lock: a grant from a node fills the structure, any other reply fails and leaves it alone |
| `Client.Handle.Begin` | lib/libcpglock.c:127-147 | guards, and the next sequence number |
| `Client.UserLock.Unlock` | lib/libcpglock.c:212-252 | an id is released if and only if the opener of the handle calls with a structure that is held and has an id; it is that id and the structure is free afterwards, and otherwise unchanged |
| `IoLoop.ReadTimeout` | lib/cpglock_util.c:30-117 | for any sequence of short transfers the buffer is the next bytes of the stream followed by its old contents, success means all of it; every poll of a timed call gets a positive wait; the result says why the call ended |
| `IoLoop.WriteTimeout` | lib/cpglock_util.c:30-130 | the peer gets a prefix of the buffer, success means all of it; the same about polls and results |
| `IoLoop.LoopTurn` | lib/cpglock_util.c:40-105 | one turn ends the call for a reason the system gave, or adds exactly the bytes moved and charges the time |
| `IoLoop.CountsAll` | lib/cpglock_util.c:77-112 | while the system moves no more than is wanted and there, the bytes counted are the sum of what it moved |
| `IoLoop.ResultMeans` | lib/cpglock_util.c:60-115 | then a call succeeds if and only if that sum is the whole buffer, and fails if and only if its last turn met an error or the end of the stream; no earlier turn did, or waited in vain |
| `IoLoop.ServedIsDone` | lib/cpglock_util.c:40-115 | a call without a timeout that the system serves piece by piece, with temporary errors in between, succeeds |
| `IoLoop.ChargeTruncates` | lib/cpglock_util.c:85-86 | within one second a charge is the difference of the nanoseconds rounded toward zero |
| `IoLoop.ChargeIsFair` | lib/cpglock_util.c:85-86 | with a monotonic clock a charge is not negative and within a millisecond of the time that passed |
| `IoLoop.ChargeExact` | lib/cpglock_util.c:87-87 | the 32-bit subtraction is exact if and only if the charge exceeds what is left by at most 2^31 ms |
| `IoLoop.ChargeWraps` | lib/cpglock_util.c:87-87 | beyond that bound the budget can be wrong: a first turn of 2^32 ms leaves all of it |
| `IoLoop.WaitIsBounded` | lib/cpglock_util.c:47-88 | the time passed plus the wait the next poll is given exceeds the budget by at most one millisecond per completed turn |

Where the code and its comments differ the model follows the code. The comment above the LOCK
branch for a new lock says that failing to grant "should not happen"; the model keeps the branch.

## Left out

- Daemon.Daemon.IsOldest: an empty member list, on which the program would read past the list, counts as "not the oldest".
- IoLoop.ReadTimeout: repeated `poll` calls after EINTR and repeated clock reads are one result each; bytes already read when a call times out are lost to the caller, as in the program.
- Release.ReleaseTakesEffect: stated for groups nobody joins and whose clients stay; a daemon that joined later may not know the lock and then ignores the release, and one that joined together with another may record an owner the others do not.
- Client.ReleasedAtMostOnce: the end of cpg_lock writes the fields of the lock structure in one action; a cpg_unlock that reads between two of those writes is not described.
- Liveness in runs with joins or vanishing clients: a joiner starts with an empty queue, so a request made before it came is not in its copy. First come first served is stated for fixed groups, for the requests of which no purge takes any away.
- MSG_HALT, MSG_DUMP, the message history, logging, timestamps and the dump tool: display only or no invariant.
- Byte swapping and fixed-size strings: messages are values and resource names are numbers, of which only equality matters.
- Wrap-around of the lock-id counter, sequence numbers and the member count.
- Failed or partial writes from a daemon to its clients, whose results the program ignores.
- Sleeping in the client library: each turn of cpg_lock under the mutex is one atomic action, and turns of different threads interleave freely; replies are read whole.
- Several handles in one process, copied lock structures, shutdown, signal handling, connecting, daemonising.
- Corosync CPG itself: agreed order, per-sender order and views at a position of that order are assumed.
