/**
 * Runs of a cluster: sequences of steps, under various hypotheses on the environment.
 */
module Runs {
  import opened Types
  import opened Group
  import opened Cluster
  import opened Slices
  import opened MemberLists

  datatype Kind =
    | Any       // whatever the environment can do at all
    | Guarded   // clients vanish and locks are recovered only while no grant of the lock is on its way
    | Hasty     // clients vanish as above, and what is on its way about a departed node arrives before it is back
    | Tidy      // and nothing is granted to it before it has announced itself
    | Calm      // or no queue and nothing that is on its way names it when it comes back
    | Regular   // daemons join one at a time into a view that lists the joined members by age
    | Crash     // nobody joins, no client vanishes, no client repeats a sequence number
    | Fixed     // and nobody leaves

  // ---------- what the kinds ask for ----------

  predicate IsAsk(e: Event, k: Key) {
    e.Message? && e.m.Lock? && MsgKey(e.m) == k
  }

  /** A request with this key has been made before. */
  ghost predicate AskedBefore(s: Sys, n: NodeId, k: Key)
    requires n in s.hosts
  {
    || (exists p :: 0 <= p < |s.log| && IsAsk(s.log[p], k))
    || (exists i :: 0 <= i < |s.hosts[n].outbox| && s.hosts[n].outbox[i].Lock? && MsgKey(s.hosts[n].outbox[i]) == k)
  }

  ghost predicate IsHost(s: Sys, a: Addr) {
    a.id in s.hosts && a == Self(s.hosts[a.id])
  }

  /** Views carry the members' addresses; a joiner comes alone and sees the joined members in JOIN order. */
  ghost predicate RegularView(s: Sys, members: seq<Addr>, left: seq<Addr>, joins: seq<Addr>) {
    && |joins| <= 1
    && (forall i :: 0 <= i < |left| ==> IsHost(s, left[i]))
    && (forall i :: 0 <= i < |members| ==> members[i] in joins || IsHost(s, members[i]))
    && (joins != [] ==> var age := Without(Now(s).age, Ids(left)); Among(IdSeq(members), age) == age)
  }

  /** The client's locks may be passed on. */
  ghost predicate MayDrop(s: Sys, n: NodeId, fd: nat)
    requires n in s.hosts
  {
    ClientPid(s.hosts[n].node, fd) != 0 ==> MayVanish(s.log, s.hosts[n], ClientPid(s.hosts[n].node, fd))
  }

  /** The steps of a kind of run. */
  ghost predicate May(kind: Kind, s: Sys, t: Step) {
    && Enabled(s, t)
    && match kind
       case Any => true
       case Guarded => MayGuarded(s, t)
       case Hasty => MayHasty(s, t)
       case Tidy => MayHasty(s, t) && (t.Sequence? ==> ToAnnounced(Now(s), s.hosts[t.n].outbox[0]))
       case Calm =>
         && MayHasty(s, t)
         && (t.ChangeView? ==> forall z, n :: z in Ids(t.joins) && n in s.hosts ==> Unheard(s.log, s.hosts[n], z))
       case Regular => t.ChangeView? ==> RegularView(s, t.members, t.left, t.joins)
       case Crash => MayCrash(s, t)
       case Fixed => MayCrash(s, t) && !t.ChangeView?
  }

  ghost predicate MayGuarded(s: Sys, t: Step)
    requires Enabled(s, t)
  {
    match t
    case Disconnect(n, fd, _) => MayDrop(s, n, fd)
    case Deliver(n, _) => MayRecover(s.log, s.hosts[n], s.log[s.hosts[n].idx])
    case _ => true
  }

  ghost predicate MayHasty(s: Sys, t: Step)
    requires Enabled(s, t)
  {
    match t
    case Disconnect(n, fd, _) => MayDrop(s, n, fd)
    case ChangeView(_, _, joins) =>
      forall z, n :: z in Ids(joins) && n in s.hosts ==> RecoveredHere(s.log, s.hosts[n], z)
    case _ => true
  }

  ghost predicate MayCrash(s: Sys, t: Step)
    requires Enabled(s, t)
  {
    match t
    case Disconnect(_, _, _) => false
    case ChangeView(_, _, joins) => joins == []
    case AskLock(n, _, res, pid, tid, _) => !AskedBefore(s, n, Key(res, n, pid, tid))
    case _ => true
  }

  // ---------- runs ----------

  ghost predicate IsRun(kind: Kind, s: Sys, run: seq<Step>)
    decreases |run|
  {
    run == [] || (May(kind, s, run[0]) && IsRun(kind, Apply(s, run[0]), run[1..]))
  }

  ghost function Exec(kind: Kind, s: Sys, run: seq<Step>): Sys
    requires IsRun(kind, s, run)
    decreases |run|
  {
    if run == [] then s else Exec(kind, Apply(s, run[0]), run[1..])
  }

  /** A state that a group formed at the beginning comes to by a run. */
  ghost predicate Reaches(kind: Kind, base: seq<Addr>, run: seq<Step>, s: Sys) {
    Distinct(IdSeq(base)) && 0 !in Ids(base) && IsRun(kind, Formed(base), run) && s == Exec(kind, Formed(base), run)
  }

  lemma {:induction false} RunIsAny(kind: Kind, s: Sys, run: seq<Step>)
    requires IsRun(kind, s, run)
    ensures IsRun(Any, s, run) && Exec(Any, s, run) == Exec(kind, s, run)
    decreases |run|
  {
    if run != [] { RunIsAny(kind, Apply(s, run[0]), run[1..]); }
  }

  lemma {:induction false} RunSnoc(kind: Kind, s: Sys, run: seq<Step>, t: Step)
    requires IsRun(kind, s, run) && May(kind, Exec(kind, s, run), t)
    ensures IsRun(kind, s, run + [t]) && Exec(kind, s, run + [t]) == Apply(Exec(kind, s, run), t)
    decreases |run|
  {
    var all := run + [t];
    if run == [] {
      assert all[1..] == [];
    } else {
      assert all[1..] == run[1..] + [t];
      RunSnoc(kind, Apply(s, run[0]), run[1..], t);
    }
  }
}
