/**
 * The connections of a daemon, in every run the environment can produce: exactly those made and
 * not closed, in order, each with the process that has asked on it; and whoever has been told it
 * has a lock is still connected.
 */
module Connections {
  import opened Types
  import opened Protocol
  import opened Group
  import opened Cluster
  import opened Membership
  import opened Structure
  import opened Runs
  import opened FreeRuns

  // ---------- what a history of steps leaves connected ----------

  function Closed(cs: seq<Client>, fd: nat): seq<Client> {
    if cs == [] then []
    else if cs[0].fd == fd then Closed(cs[1..], fd)
    else [cs[0]] + Closed(cs[1..], fd)
  }

  function Named(cs: seq<Client>, fd: nat, pid: Pid): seq<Client> {
    seq(|cs|, i requires 0 <= i < |cs| => if cs[i].fd == fd then Client(fd, pid) else cs[i])
  }

  /** The connections at n after a step; a daemon that joins has none. */
  function ConnectedAfter(cs: seq<Client>, t: Step, n: NodeId): seq<Client> {
    match t
    case Connect(m, fd) => if m == n then cs + [Client(fd, 0)] else cs
    case AskLock(m, fd, _, pid, _, _) => if m == n then Named(cs, fd, pid) else cs
    case Disconnect(m, fd, _) => if m == n then Closed(cs, fd) else cs
    case ChangeView(_, left, joins) => if n in Ids(left) + Ids(joins) then [] else cs
    case _ => cs
  }

  function Remaining(cs: seq<Client>, run: seq<Step>, n: NodeId): seq<Client>
    decreases |run|
  {
    if run == [] then cs else Remaining(ConnectedAfter(cs, run[0], n), run[1..], n)
  }

  // ---------- one daemon ----------

  /** Connections have different descriptors, and those that have asked belong to different processes. */
  ghost predicate Separate(cs: seq<Client>) {
    && (forall i, j :: 0 <= i < j < |cs| ==> cs[i].fd != cs[j].fd)
    && (forall i, j :: 0 <= i < j < |cs| && cs[i].pid != 0 ==> cs[i].pid != cs[j].pid)
  }

  lemma {:induction false} ClosedIsOthers(cs: seq<Client>, fd: nat)
    requires forall j :: 0 <= j < |cs| ==> cs[j].fd != fd
    ensures Closed(cs, fd) == cs
  {
    if cs != [] { ClosedIsOthers(cs[1..], fd); }
  }

  /** The first connection with the descriptor is the only one. */
  lemma {:induction false} ClosesOne(cs: seq<Client>, fd: nat)
    requires forall i, j :: 0 <= i < j < |cs| ==> cs[i].fd != cs[j].fd
    ensures DropAt(cs, FirstFd(cs, fd)) == Closed(cs, fd)
  {
    if cs != [] {
      if cs[0].fd == fd {
        ClosedIsOthers(cs[1..], fd);
      } else {
        ClosesOne(cs[1..], fd);
        DropLater(cs, FirstFd(cs[1..], fd));
      }
    }
  }

  lemma DropLater(cs: seq<Client>, i: nat)
    requires cs != []
    ensures DropAt(cs, i + 1) == [cs[0]] + DropAt(cs[1..], i)
  {
  }

  lemma {:induction false} ReleaseFrame(n: Node, pid: Pid, order: seq<Resource>)
    ensures ReleaseLocks(n, pid, order).node.clients == n.clients
  {
    if order != [] { ReleaseFrame(n, pid, order[..|order| - 1]); }
  }

  /**
   * Whatever the list of connections, as long as no two share a descriptor: afterwards none has this
   * descriptor, and the others are there, unchanged and in order.
   */
  lemma DelClientCloses(n: Node, fd: nat, order: seq<Resource>)
    requires forall i, j :: 0 <= i < j < |n.clients| ==> n.clients[i].fd != n.clients[j].fd
    ensures var cs := DelClient(n, fd, order).node.clients;
      cs == Closed(n.clients, fd) && forall c :: c in cs <==> c in n.clients && c.fd != fd
  {
    var i := FirstFd(n.clients, fd);
    ClosesOne(n.clients, fd);
    ClosedContents(n.clients, fd);
    if i < |n.clients| {
      var pid := n.clients[i].pid;
      ReleaseFrame(PurgeAll(n.(clients := DropAt(n.clients, i)), n.id, pid), pid, order);
    }
  }

  /** A connection on which nobody has asked goes without a word. */
  lemma StrangerGoes(n: Node, fd: nat, order: seq<Resource>)
    requires ClientPid(n, fd) == 0
    ensures var o := DelClient(n, fd, order); o.sent == [] && o.node == n.(clients := o.node.clients)
  {
  }

  lemma {:induction false} ClosedContents(cs: seq<Client>, fd: nat)
    ensures forall c :: c in Closed(cs, fd) <==> c in cs && c.fd != fd
  {
    if cs != [] { ClosedContents(cs[1..], fd); }
  }

  lemma AsksOnOne(cs: seq<Client>, fd: nat, pid: Pid)
    requires Separate(cs) && MayUsePid(cs, fd, pid)
    ensures cs[FirstFd(cs, fd) := Client(fd, pid)] == Named(cs, fd, pid) && Separate(Named(cs, fd, pid))
  {
    var i := FirstFd(cs, fd);
    var c := cs[i := Client(fd, pid)];
    forall j | 0 <= j < |cs| ensures c[j] == Named(cs, fd, pid)[j] {
      assert j != i ==> cs[j].fd != cs[i].fd by { if j < i { } else if j > i { } }
    }
  }

  lemma {:induction false} ClosedSeparate(cs: seq<Client>, fd: nat)
    requires Separate(cs)
    ensures Separate(Closed(cs, fd))
  {
    if cs != [] {
      var rest := cs[1..];
      SeparateTail(cs);
      ClosedSeparate(rest, fd);
      ClosedContents(rest, fd);
      if cs[0].fd != fd { SeparateCons(cs[0], Closed(rest, fd)); }
    }
  }

  ghost predicate Apart(a: Client, b: Client) {
    a.fd != b.fd && (a.pid != 0 ==> b.pid != a.pid)
  }

  lemma SeparateTail(cs: seq<Client>)
    requires Separate(cs) && cs != []
    ensures Separate(cs[1..]) && forall c :: c in cs[1..] ==> Apart(cs[0], c)
  {
    forall c | c in cs[1..] ensures Apart(cs[0], c) {
      var j :| 0 <= j < |cs[1..]| && cs[1..][j] == c;
      assert cs[j + 1] == c;
    }
  }

  lemma SeparateCons(a: Client, cs: seq<Client>)
    requires Separate(cs) && forall c :: c in cs ==> Apart(a, c)
    ensures Separate([a] + cs)
  {
    var all := [a] + cs;
    forall j | 1 <= j < |all| ensures Apart(all[0], all[j]) { assert all[j] == cs[j - 1]; }
    forall i, j | 1 <= i < j < |all| ensures all[i].fd != all[j].fd && (all[i].pid != 0 ==> all[i].pid != all[j].pid) {
      assert all[i] == cs[i - 1] && all[j] == cs[j - 1];
    }
  }

  // ---------- who has been told ----------

  /** Everybody who has been told it has a lock is a process with a connection. */
  ghost predicate AllReachable(h: Host) {
    forall x :: x in h.holds ==> Reachable(h.node.clients, x.pid)
  }

  ghost predicate Reachable(cs: seq<Client>, pid: Pid) {
    pid != 0 && exists i :: 0 <= i < |cs| && cs[i].pid == pid
  }

  /** A handler writes only to processes that are connected, in answer to a grant or refusal for them. */
  lemma TellsConnected(n: Node, e: Event, order: seq<Resource>)
    requires e.Message? && e.m.Grant? ==> e.m.pid != 0
    ensures var o := Handle(n, e, order);
      && o.node.clients == n.clients
      && forall x :: x in Told(o.replies) ==> Reachable(n.clients, x.pid)
  {
    match e
    case Message(from, m) =>
      if !m.Join? { MessageFrame(n, from, m); }
    case View(members, left, joins) => LeaveAllFrame(SeedView(n, members, joins), left, order);
  }

  // ---------- runs ----------

  ghost predicate LinkedHost(h: Host) {
    Separate(h.node.clients) && AllReachable(h)
  }

  ghost predicate LinkedInv(s: Sys) {
    FreeInv(s) && forall n :: n in s.hosts ==> LinkedHost(s.hosts[n])
  }

  /** The daemon, if it is there, has exactly these connections. */
  ghost predicate Has(s: Sys, n: NodeId, cs: seq<Client>) {
    n in s.hosts ==> s.hosts[n].node.clients == cs
  }

  lemma AskLockLinked(h: Host, t: Step, k: Host)
    requires t.AskLock? && LinkedHost(h) && MayUsePid(h.node.clients, t.fd, t.pid)
    requires k == HostAskLock(h, t.fd, t.res, t.pid, t.tid, t.isTry)
    ensures LinkedHost(k) && k.node.clients == Named(h.node.clients, t.fd, t.pid)
  {
    var cs := h.node.clients;
    AsksOnOne(cs, t.fd, t.pid);
    forall x | x in k.holds ensures Reachable(k.node.clients, x.pid) {
      var i :| 0 <= i < |cs| && cs[i].pid == x.pid;
      assert k.node.clients[i].pid == x.pid;
    }
  }

  lemma ConnectLinked(h: Host, fd: nat)
    requires LinkedHost(h) && forall i :: 0 <= i < |h.node.clients| ==> h.node.clients[i].fd != fd
    ensures LinkedHost(HostConnect(h, fd))
  {
    var cs, k := h.node.clients, HostConnect(h, fd);
    forall x | x in k.holds ensures Reachable(k.node.clients, x.pid) {
      var i :| 0 <= i < |cs| && cs[i].pid == x.pid;
      assert k.node.clients[i].pid == x.pid;
    }
  }

  lemma AskUnlockLinked(h: Host, hold: Hold, order: seq<Resource>)
    requires LinkedHost(h)
    ensures LinkedHost(HostAskUnlock(h, hold, order))
    ensures HostAskUnlock(h, hold, order).node.clients == h.node.clients
  {
  }

  lemma StillReachable(cs: seq<Client>, fd: nat, pid: Pid)
    requires Reachable(cs, pid) && Separate(cs)
    requires var i := FirstFd(cs, fd); i < |cs| ==> cs[i].pid != pid
    ensures Reachable(Closed(cs, fd), pid)
  {
    var i :| 0 <= i < |cs| && cs[i].pid == pid;
    ClosedContents(cs, fd);
    assert cs[i].fd == fd ==> i == FirstFd(cs, fd);
    assert cs[i] in Closed(cs, fd);
    var j :| 0 <= j < |Closed(cs, fd)| && Closed(cs, fd)[j] == cs[i];
  }

  lemma DisconnectLinked(h: Host, fd: nat, order: seq<Resource>)
    requires LinkedHost(h)
    ensures LinkedHost(HostDisconnect(h, fd, order))
    ensures HostDisconnect(h, fd, order).node.clients == Closed(h.node.clients, fd)
  {
    var cs, k := h.node.clients, HostDisconnect(h, fd, order);
    DelClientCloses(h.node, fd, order);
    DelClientTells(h.node, fd, order);
    ClosedSeparate(cs, fd);
    assert forall x :: x in k.holds ==> x in h.holds && x.pid != ClientPid(h.node, fd);
    forall x | x in k.holds ensures Reachable(k.node.clients, x.pid) {
      StillReachable(cs, fd, x.pid);
    }
  }

  lemma {:induction false} ReleaseTells(n: Node, pid: Pid, order: seq<Resource>)
    ensures ReleaseLocks(n, pid, order).replies == []
  {
  }

  lemma DelClientTells(n: Node, fd: nat, order: seq<Resource>)
    ensures DelClient(n, fd, order).replies == []
  {
    var i := FirstFd(n.clients, fd);
    if i < |n.clients| {
      var pid := n.clients[i].pid;
      ReleaseTells(PurgeAll(n.(clients := DropAt(n.clients, i)), n.id, pid), pid, order);
    }
  }

  lemma DeliverLinked(h: Host, e: Event, order: seq<Resource>)
    requires LinkedHost(h) && (e.Message? && e.m.Grant? ==> e.m.pid != 0)
    ensures LinkedHost(HostDeliver(h, e, order)) && HostDeliver(h, e, order).node.clients == h.node.clients
  {
    TellsConnected(h.node, e, order);
  }

  lemma LocalLinked(s: Sys, m: NodeId, k: Host, u: Sys, n: NodeId, cs: seq<Client>, now: seq<Client>)
    requires LinkedInv(s) && Has(s, n, cs) && m in s.hosts && u == s.(hosts := s.hosts[m := k]) && FreeInv(u)
    requires LinkedHost(k) && (if n == m then k.node.clients == now else now == cs)
    ensures LinkedInv(u) && Has(u, n, now)
  {
  }

  /** What one client's step does to the daemon's host. */
  function ClientStep(h: Host, t: Step): Host {
    match t
    case Connect(_, fd) => HostConnect(h, fd)
    case AskLock(_, fd, res, pid, tid, isTry) => HostAskLock(h, fd, res, pid, tid, isTry)
    case AskUnlock(_, hold, order) => HostAskUnlock(h, hold, order)
    case Disconnect(_, fd, order) => HostDisconnect(h, fd, order)
    case _ => h
  }

  lemma ClientStepLinked(h: Host, t: Step, n: NodeId)
    requires LinkedHost(h)
    requires t.Connect? ==> forall i :: 0 <= i < |h.node.clients| ==> h.node.clients[i].fd != t.fd
    requires t.AskLock? ==> MayUsePid(h.node.clients, t.fd, t.pid)
    requires (t.Connect? || t.AskLock? || t.AskUnlock? || t.Disconnect?) && t.n == n
    ensures LinkedHost(ClientStep(h, t)) && ClientStep(h, t).node.clients == ConnectedAfter(h.node.clients, t, n)
  {
    match t
    case Connect(_, fd) => ConnectLinked(h, fd);
    case AskLock(_, fd, res, pid, tid, isTry) => AskLockLinked(h, t, HostAskLock(h, fd, res, pid, tid, isTry));
    case AskUnlock(_, hold, order) => AskUnlockLinked(h, hold, order);
    case Disconnect(_, fd, order) => DisconnectLinked(h, fd, order);
  }

  lemma ClientLinked(s: Sys, t: Step, u: Sys, n: NodeId, cs: seq<Client>)
    requires LinkedInv(s) && Has(s, n, cs) && Enabled(s, t) && u == Apply(s, t) && FreeInv(u)
    requires t.Connect? || t.AskLock? || t.AskUnlock? || t.Disconnect?
    ensures LinkedInv(u) && Has(u, n, ConnectedAfter(cs, t, n))
  {
    ClientStepLinked(s.hosts[t.n], t, t.n);
    LocalLinked(s, t.n, ClientStep(s.hosts[t.n], t), u, n, cs, ConnectedAfter(cs, t, n));
  }

  lemma SequenceLinked(s: Sys, m: NodeId, k: Host, log: seq<Event>, u: Sys, n: NodeId, cs: seq<Client>)
    requires LinkedInv(s) && Has(s, n, cs) && m in s.hosts && u == Sys(s.base, s.hosts[m := k], log) && FreeInv(u)
    requires k.node == s.hosts[m].node && k.holds == s.hosts[m].holds
    ensures LinkedInv(u) && Has(u, n, cs)
  {
    assert LinkedHost(s.hosts[m]);
  }

  lemma ViewLinked(s: Sys, t: Step, u: Sys, n: NodeId, cs: seq<Client>)
    requires LinkedInv(s) && Has(s, n, cs) && t.ChangeView? && FreeInv(u)
    requires u.hosts == HostsAfter(s.hosts, t.left, t.joins, |s.log|)
    ensures LinkedInv(u) && Has(u, n, ConnectedAfter(cs, t, n))
  {
    forall x | x in u.hosts ensures LinkedHost(u.hosts[x]) {
      assert x !in Ids(t.joins) ==> LinkedHost(s.hosts[x]);
    }
  }

  lemma StepLinked(s: Sys, t: Step, n: NodeId, cs: seq<Client>)
    requires LinkedInv(s) && Enabled(s, t) && Has(s, n, cs)
    ensures LinkedInv(Apply(s, t)) && Has(Apply(s, t), n, ConnectedAfter(cs, t, n))
  {
    StepFree(s, t);
    if t.Deliver? {
      var h := s.hosts[t.n];
      assert FlightItem(s.log[h.idx]);
      DeliverLinked(h, s.log[h.idx], t.order);
      LocalLinked(s, t.n, HostDeliver(h, s.log[h.idx], t.order), Apply(s, t), n, cs, cs);
    } else if t.Sequence? {
      var u := Apply(s, t);
      SequenceLinked(s, t.n, s.hosts[t.n].(outbox := s.hosts[t.n].outbox[1..]), u.log, u, n, cs);
    } else if t.ChangeView? {
      ViewLinked(s, t, Apply(s, t), n, cs);
    } else {
      ClientLinked(s, t, Apply(s, t), n, cs);
    }
  }

  lemma {:induction false} RunLinked(s: Sys, run: seq<Step>, n: NodeId, cs: seq<Client>)
    requires LinkedInv(s) && IsRun(Any, s, run) && Has(s, n, cs)
    ensures LinkedInv(Exec(Any, s, run)) && Has(Exec(Any, s, run), n, Remaining(cs, run, n))
    decreases |run|
  {
    if run != [] {
      StepLinked(s, run[0], n, cs);
      RunLinked(Apply(s, run[0]), run[1..], n, ConnectedAfter(cs, run[0], n));
    }
  }

  lemma FormedLinked(base: seq<Addr>, n: NodeId)
    requires Distinct(IdSeq(base)) && 0 !in Ids(base)
    ensures LinkedInv(Formed(base)) && Has(Formed(base), n, [])
  {
    FormedFree(base);
    forall m | m in Ids(base) ensures LinkedHost(Formed(base).hosts[m]) && Has(Formed(base), m, []) {
      FormedAlone(base, m);
    }
  }

  lemma FormedAlone(base: seq<Addr>, m: NodeId)
    requires m in Ids(base)
    ensures Formed(base).hosts[m].node.clients == [] && Formed(base).hosts[m].holds == {}
  {
  }

  /**
   * In every state of every run a daemon's connections are exactly those its clients have made and
   * not closed since it joined, in order, each with the process that last asked on it; no two share a
   * descriptor or a process; and everybody it has told about a lock is among them.
   */
  lemma ConnectionsExact(base: seq<Addr>, run: seq<Step>, s: Sys, n: NodeId)
    requires Reaches(Any, base, run, s) && n in s.hosts
    ensures var h := s.hosts[n];
      && h.node.clients == Remaining([], run, n)
      && Separate(h.node.clients)
      && forall x :: x in h.holds ==> Reachable(h.node.clients, x.pid)
  {
    FormedLinked(base, n);
    RunLinked(Formed(base), run, n, []);
    assert LinkedHost(s.hosts[n]);
  }
}
