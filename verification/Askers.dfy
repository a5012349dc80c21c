/**
 * Where requests come from: every request is made once, by a process with an open connection
 * while its node is there, and grants and refusals answer ordered requests.
 */
module Askers {
  import opened Types
  import opened Protocol
  import opened Group
  import opened Cluster
  import opened Slices
  import opened Structure
  import opened StructureSteps
  import opened Runs
  import opened FreeRuns

  // ---------- the invariant ----------

  ghost predicate Ordered(log: seq<Event>, k: Key) {
    exists p :: 0 <= p < |log| && IsAsk(log[p], k)
  }

  ghost predicate UniqueAsks(log: seq<Event>) {
    forall p, q, k :: 0 <= p < |log| && 0 <= q < |log| && IsAsk(log[p], k) && IsAsk(log[q], k) ==> p == q
  }

  /** Grants answer an earlier request. */
  ghost predicate GrantsAnswer(log: seq<Event>) {
    forall q :: 0 <= q < |log| && log[q].Message? && log[q].m.Grant? ==> GrantAnswers(log, q)
  }

  ghost predicate GrantAnswers(log: seq<Event>, q: nat)
    requires q < |log| && log[q].Message? && log[q].m.Grant?
  {
    exists p :: 0 <= p < q && IsAsk(log[p], MsgKey(log[q].m))
  }

  /** Requests are made by the node they name. */
  ghost predicate OwnAsks(log: seq<Event>) {
    forall p :: 0 <= p < |log| && log[p].Message? && log[p].m.Lock? ==> log[p].m.node == log[p].from.id
  }

  /** A process whose connection is open if its node is still there. */
  ghost predicate Served(hosts: map<NodeId, Host>, node: NodeId, pid: Pid) {
    pid != 0 && (node in hosts ==> HasClient(hosts[node].node.clients, pid))
  }

  ghost predicate ServedMsg(hosts: map<NodeId, Host>, m: Msg) {
    m.Lock? || m.Grant? || m.Nak? ==> Served(hosts, m.node, m.pid)
  }

  ghost predicate AskersInv(log: seq<Event>, hosts: map<NodeId, Host>) {
    && (forall p :: 0 <= p < |log| && log[p].Message? ==> ServedMsg(hosts, log[p].m))
    && (forall n, i :: n in hosts && 0 <= i < |hosts[n].outbox| ==> ServedMsg(hosts, hosts[n].outbox[i]))
  }

  /** Requests in an outbox are new, and grants there answer an ordered request. */
  ghost predicate OutAsks(log: seq<Event>, h: Host) {
    && (forall i, p :: 0 <= i < |h.outbox| && h.outbox[i].Lock? && 0 <= p < |log| ==>
          !IsAsk(log[p], MsgKey(h.outbox[i])))
    && (forall i, j :: 0 <= i < j < |h.outbox| && h.outbox[i].Lock? && h.outbox[j].Lock? ==>
          MsgKey(h.outbox[i]) != MsgKey(h.outbox[j]))
    && (forall i :: 0 <= i < |h.outbox| && h.outbox[i].Grant? ==> Ordered(log, MsgKey(h.outbox[i])))
  }

  ghost predicate AllOutAsks(log: seq<Event>, hosts: map<NodeId, Host>) {
    forall n :: n in hosts ==> OutAsks(log, hosts[n])
  }

  ghost predicate AskLog(log: seq<Event>) {
    UniqueAsks(log) && GrantsAnswer(log) && OwnAsks(log)
  }

  ghost predicate AskInv(s: Sys) {
    AskLog(s.log) && AskersInv(s.log, s.hosts) && AllOutAsks(s.log, s.hosts)
  }

  // ---------- one host changes ----------

  /** New messages answer ordered requests. */
  ghost predicate Answering(log: seq<Event>, sent: seq<Msg>) {
    forall i :: 0 <= i < |sent| ==>
      !sent[i].Lock? && (sent[i].Grant? || sent[i].Nak? ==> Ordered(log, MsgKey(sent[i])))
  }

  ghost predicate KeepsClients(a: seq<Client>, b: seq<Client>) {
    forall pid :: pid != 0 && HasClient(a, pid) ==> HasClient(b, pid)
  }

  ghost predicate AllServed(hosts: map<NodeId, Host>, sent: seq<Msg>) {
    forall i :: 0 <= i < |sent| ==> ServedMsg(hosts, sent[i])
  }

  lemma OrderedIsServed(s: Sys, k: Key)
    requires AskersInv(s.log, s.hosts) && Ordered(s.log, k)
    ensures Served(s.hosts, k.node, k.pid)
  {
    var p :| 0 <= p < |s.log| && IsAsk(s.log[p], k);
    assert ServedMsg(s.hosts, s.log[p].m);
  }

  lemma ServedStays(hosts: map<NodeId, Host>, n: NodeId, k: Host, m: Msg)
    requires ServedMsg(hosts, m) && n in hosts && KeepsClients(hosts[n].node.clients, k.node.clients)
    ensures ServedMsg(hosts[n := k], m)
  {
  }

  lemma HostAskers(log: seq<Event>, hosts: map<NodeId, Host>, n: NodeId, k: Host, sent: seq<Msg>)
    requires AskersInv(log, hosts) && n in hosts && KeepsClients(hosts[n].node.clients, k.node.clients)
    requires k.outbox == hosts[n].outbox + sent && AllServed(hosts[n := k], sent)
    ensures AskersInv(log, hosts[n := k])
  {
    forall p | 0 <= p < |log| && log[p].Message? ensures ServedMsg(hosts[n := k], log[p].m) {
      ServedStays(hosts, n, k, log[p].m);
    }
    var next := hosts[n := k];
    forall x, i | x in next && 0 <= i < |next[x].outbox| ensures ServedMsg(next, next[x].outbox[i]) {
      if x != n || i < |hosts[n].outbox| {
        ServedStays(hosts, n, k, hosts[x].outbox[i]);
      } else {
        assert k.outbox[i] == sent[i - |hosts[n].outbox|];
      }
    }
  }

  lemma UpdateOut(log: seq<Event>, hosts: map<NodeId, Host>, n: NodeId, k: Host)
    requires AllOutAsks(log, hosts) && OutAsks(log, k)
    ensures AllOutAsks(log, hosts[n := k])
  {
  }

  lemma HostAsk(s: Sys, n: NodeId, k: Host, sent: seq<Msg>, u: Sys)
    requires AskInv(s) && n in s.hosts && u == s.(hosts := s.hosts[n := k]) && OutAsks(s.log, k)
    requires KeepsClients(s.hosts[n].node.clients, k.node.clients) && k.outbox == s.hosts[n].outbox + sent
    requires AllServed(s.hosts[n := k], sent)
    ensures AskInv(u)
  {
    HostAskers(s.log, s.hosts, n, k, sent);
    UpdateOut(s.log, s.hosts, n, k);
  }

  lemma AnsweringOut(log: seq<Event>, h: Host, k: Host, sent: seq<Msg>)
    requires OutAsks(log, h) && k.outbox == h.outbox + sent && Answering(log, sent)
    ensures OutAsks(log, k)
  {
    assert forall i :: |h.outbox| <= i < |k.outbox| ==> k.outbox[i] == sent[i - |h.outbox|];
    assert forall i :: 0 <= i < |h.outbox| ==> k.outbox[i] == h.outbox[i];
  }

  /** A host that answers requests. */
  lemma AnsweringAsk(s: Sys, n: NodeId, k: Host, sent: seq<Msg>, u: Sys)
    requires AskInv(s) && n in s.hosts && u == s.(hosts := s.hosts[n := k])
    requires k.node.clients == s.hosts[n].node.clients
    requires k.outbox == s.hosts[n].outbox + sent && Answering(s.log, sent)
    ensures AskInv(u)
  {
    AnsweringOut(s.log, s.hosts[n], k, sent);
    forall i | 0 <= i < |sent| ensures ServedMsg(s.hosts[n := k], sent[i]) {
      if sent[i].Grant? || sent[i].Nak? {
        OrderedIsServed(s, MsgKey(sent[i]));
        ServedStays(s.hosts, n, k, sent[i]);
      }
    }
    HostAsk(s, n, k, sent, u);
  }

  lemma ConnectAsk(s: Sys, n: NodeId, fd: nat, u: Sys)
    requires AskInv(s) && n in s.hosts && u == s.(hosts := s.hosts[n := HostConnect(s.hosts[n], fd)])
    ensures AskInv(u)
  {
    var h, k := s.hosts[n], HostConnect(s.hosts[n], fd);
    assert k.outbox == h.outbox + [];
    forall pid | HasClient(h.node.clients, pid) ensures HasClient(k.node.clients, pid) {
      var i :| 0 <= i < |h.node.clients| && h.node.clients[i].pid == pid;
      assert k.node.clients[i].pid == pid;
    }
    HostAsk(s, n, k, [], u);
  }

  lemma AskLockClients(h: Host, fd: nat, pid: Pid, k: Host, r: Resource, tid: Tid, isTry: bool)
    requires MayUsePid(h.node.clients, fd, pid) && k == HostAskLock(h, fd, r, pid, tid, isTry)
    ensures KeepsClients(h.node.clients, k.node.clients) && HasClient(k.node.clients, pid)
    ensures k.outbox == h.outbox + [Lock(r, h.node.id, pid, tid, isTry)]
    ensures k == h.(node := h.node.(clients := k.node.clients), outbox := k.outbox)
  {
    var i := FirstFd(h.node.clients, fd);
    assert i < |h.node.clients|;
    assert k.node.clients[i] == Client(fd, pid);
    forall p | p != 0 && HasClient(h.node.clients, p) ensures HasClient(k.node.clients, p) {
      var j :| 0 <= j < |h.node.clients| && h.node.clients[j].pid == p;
      assert k.node.clients[j].pid == p;
    }
  }

  lemma FreshAsk(s: Sys, n: NodeId, k: Host, m: Msg, u: Sys)
    requires AskInv(s) && n in s.hosts && k.outbox == s.hosts[n].outbox + [m] && u == s.(hosts := s.hosts[n := k])
    requires m.Lock? && m.node == n && m.pid != 0 && !AskedBefore(s, n, MsgKey(m))
    requires KeepsClients(s.hosts[n].node.clients, k.node.clients) && HasClient(k.node.clients, m.pid)
    ensures AskInv(u)
  {
    var h := s.hosts[n];
    assert forall i :: 0 <= i < |h.outbox| ==> k.outbox[i] == h.outbox[i];
    assert ServedMsg(s.hosts[n := k], m);
    HostAsk(s, n, k, [m], u);
  }

  lemma AskLockAsk(s: Sys, t: Step)
    requires AskInv(s) && FreeInv(s) && t.AskLock? && May(Crash, s, t)
    ensures AskInv(Apply(s, t))
  {
    var h := s.hosts[t.n];
    var k := HostAskLock(h, t.fd, t.res, t.pid, t.tid, t.isTry);
    AskLockClients(h, t.fd, t.pid, k, t.res, t.tid, t.isTry);
    FreshAsk(s, t.n, k, Lock(t.res, t.n, t.pid, t.tid, t.isTry), Apply(s, t));
  }

  // ---------- delivery ----------

  ghost predicate QueueOrdered(log: seq<Event>, q: seq<Request>) {
    forall k :: HasKey(q, k) ==> Ordered(log, k)
  }

  /** What a handler answers was in the queue or has just been ordered. */
  lemma HandleAnswers(log: seq<Event>, h: Host, order: seq<Resource>)
    requires h.idx < |log| && QueueOrdered(log, h.node.requests)
    ensures Answering(log, Handle(h.node, log[h.idx], order).sent)
  {
    var e := log[h.idx];
    var sent, w := Handle(h.node, e, order).sent, Arrived(h.node, e).requests;
    HandleSpeaks(h.node, e, order);
    forall k | HasKey(w, k) ensures Ordered(log, k) {
      var i :| 0 <= i < |w| && KeyOf(w[i]) == k;
      if i < |h.node.requests| {
        assert KeyOf(h.node.requests[i]) == k;
      } else {
        assert IsAsk(log[h.idx], k);
      }
    }
    forall i | 0 <= i < |sent|
      ensures !sent[i].Lock? && (sent[i].Grant? || sent[i].Nak? ==> Ordered(log, MsgKey(sent[i])))
    {
      assert Spoken(h.node, e, sent[i]);
    }
  }

  // ---------- the agreed order grows ----------

  lemma OrderedGrows(log: seq<Event>, e: Event, k: Key)
    ensures Ordered(log, k) ==> Ordered(log + [e], k)
  {
    if p :| 0 <= p < |log| && IsAsk(log[p], k) { assert IsAsk((log + [e])[p], k); }
  }

  lemma AppendAskLog(log: seq<Event>, e: Event)
    requires AskLog(log)
    requires e.Message? && e.m.Lock? ==> e.m.node == e.from.id && !Ordered(log, MsgKey(e.m))
    requires e.Message? && e.m.Grant? ==> Ordered(log, MsgKey(e.m))
    ensures AskLog(log + [e])
  {
    var log' := log + [e];
    assert forall p :: 0 <= p < |log| ==> log'[p] == log[p];
    forall q | 0 <= q < |log'| && log'[q].Message? && log'[q].m.Grant? ensures GrantAnswers(log', q) {
      if q < |log| { assert GrantAnswers(log, q); }
      var p :| 0 <= p < q && IsAsk(log[p], MsgKey(log'[q].m));
      assert IsAsk(log'[p], MsgKey(log'[q].m));
    }
  }

  lemma AppendOutAsks(log: seq<Event>, e: Event, k: Host)
    requires OutAsks(log, k)
    requires e.Message? && e.m.Lock? ==>
      forall i :: 0 <= i < |k.outbox| && k.outbox[i].Lock? ==> MsgKey(k.outbox[i]) != MsgKey(e.m)
    ensures OutAsks(log + [e], k)
  {
    assert forall p :: 0 <= p < |log| ==> (log + [e])[p] == log[p];
    forall i | 0 <= i < |k.outbox| && k.outbox[i].Grant? ensures Ordered(log + [e], MsgKey(k.outbox[i])) {
      OrderedGrows(log, e, MsgKey(k.outbox[i]));
    }
  }

  lemma SenderOutAsks(log: seq<Event>, h: Host)
    requires h.outbox != [] && OutAsks(log, h)
    ensures OutAsks(log + [Message(Self(h), h.outbox[0])], h.(outbox := h.outbox[1..]))
  {
    var k := h.(outbox := h.outbox[1..]);
    assert forall i :: 0 <= i < |k.outbox| ==> k.outbox[i] == h.outbox[i + 1];
    AppendOutAsks(log, Message(Self(h), h.outbox[0]), k);
  }

  lemma SequenceAskers(s: Sys, n: NodeId, k: Host, e: Event, u: Sys)
    requires AskersInv(s.log, s.hosts) && n in s.hosts && s.hosts[n].outbox != []
    requires k == s.hosts[n].(outbox := s.hosts[n].outbox[1..]) && e == Message(Self(s.hosts[n]), s.hosts[n].outbox[0])
    requires u == Sys(s.base, s.hosts[n := k], s.log + [e])
    ensures AskersInv(u.log, u.hosts)
  {
    forall node, pid | Served(s.hosts, node, pid) ensures Served(u.hosts, node, pid) { }
    assert ServedMsg(s.hosts, s.hosts[n].outbox[0]);
    forall x, i | x in u.hosts && 0 <= i < |u.hosts[x].outbox| ensures ServedMsg(u.hosts, u.hosts[x].outbox[i]) {
      assert ServedMsg(s.hosts, s.hosts[x].outbox[if x == n then i + 1 else i]);
    }
    forall p | 0 <= p < |u.log| && u.log[p].Message? ensures ServedMsg(u.hosts, u.log[p].m) {
      if p < |s.log| { assert ServedMsg(s.hosts, s.log[p].m); }
    }
  }

  /** Requests of different nodes differ. */
  lemma OwnLocks(s: Sys, n: NodeId)
    requires FreeInv(s) && n in s.hosts
    ensures forall i :: 0 <= i < |s.hosts[n].outbox| && s.hosts[n].outbox[i].Lock? ==> s.hosts[n].outbox[i].node == n
  {
    var h := s.hosts[n];
    assert FreeHost(s.base, s.log, h);
    forall i | 0 <= i < |h.outbox| && h.outbox[i].Lock? ensures h.outbox[i].node == n {
      assert OutboxItem(s.base, s.log, h, i);
    }
  }

  lemma SequenceAsk(s: Sys, n: NodeId, k: Host, e: Event, u: Sys)
    requires AskInv(s) && FreeInv(s) && n in s.hosts && s.hosts[n].outbox != []
    requires k == s.hosts[n].(outbox := s.hosts[n].outbox[1..]) && e == Message(Self(s.hosts[n]), s.hosts[n].outbox[0])
    requires u == Sys(s.base, s.hosts[n := k], s.log + [e])
    ensures AskInv(u)
  {
    OwnLocks(s, n);
    assert OutAsks(s.log, s.hosts[n]);
    AppendAskLog(s.log, e);
    SequenceAskers(s, n, k, e, u);
    SenderOutAsks(s.log, s.hosts[n]);
    forall x | x in s.hosts && x != n ensures OutAsks(s.log + [e], s.hosts[x]) {
      OwnLocks(s, x);
      AppendOutAsks(s.log, e, s.hosts[x]);
    }
  }

  /** Daemons leave. */
  lemma ViewAsk(s: Sys, e: Event, u: Sys)
    requires AskInv(s) && e.View? && e.joins == []
    requires u == Sys(s.base, HostsAfter(s.hosts, e.left, e.joins, |s.log|), s.log + [e])
    ensures AskInv(u)
  {
    assert Ids(e.joins) == {};
    AppendAskLog(s.log, e);
    forall m | ServedMsg(s.hosts, m) ensures ServedMsg(u.hosts, m) { }
    forall p | 0 <= p < |u.log| && u.log[p].Message? ensures ServedMsg(u.hosts, u.log[p].m) {
      assert ServedMsg(s.hosts, s.log[p].m);
    }
    forall x | x in u.hosts ensures OutAsks(u.log, u.hosts[x]) { AppendOutAsks(s.log, e, s.hosts[x]); }
  }
}
