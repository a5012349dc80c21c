/**
 * A request can be both refused and granted: the holder releases the lock while the refusal of
 * a try-request is still on its way.
 */
module WitnessTry {
  import opened Types
  import opened Protocol
  import opened Cluster
  import opened Slices
  import opened Refusal
  import opened Runs
  import opened Scenes
  import opened OneDaemon

  function Try(pid: Pid): Msg { Lock(R, 1, pid, 1, true) }
  function No(pid: Pid): Msg { Nak(R, 1, pid, 1) }

  const T3: seq<Event> := [Said(Ask(1, 11)), Said(Give(1, 11)), Said(Try(12))]

  /** The lock is held, so the daemon sends a refusal; the request stays queued. */
  lemma IsRefused(h: Host)
    requires h == Host(One(Table(Held, 1, 11, 1), [], C2, 1), 2, [], {H(11, 1)})
    ensures HostDeliver(h, Said(Try(12)), [R]) ==
      Host(One(Table(Held, 1, 11, 1), [Req(1, 12, false)], C2, 1), 3, [No(12)], {H(11, 1)})
  {
    assert [] + [Req(1, 12, false)] == [Req(1, 12, false)] && [] + [No(12)] == [No(12)];
    Handled(h, Said(Try(12)), [R], One(Table(Held, 1, 11, 1), [Req(1, 12, false)], C2, 1), [No(12)], [No(12)]);
  }

  /** The second client tries. */
  lemma Tries(run: seq<Step>, s: Sys) returns (run': seq<Step>, u: Sys)
    requires Reaches(Fixed, BASE, run, s) && Is(s, Host(One(Table(Held, 1, 11, 1), [], C1, 1), 2, [], {H(11, 1)}), L2)
    ensures Reaches(Fixed, BASE, run', u)
    ensures Is(u, Host(One(Table(Held, 1, 11, 1), [], C2, 1), 2, [], {H(11, 1)}), T3)
  {
    assert C1[1].fd == 2 && C1[FirstFd(C1, 2) := Client(2, 12)] == C2;
    run', u := Asks(Fixed, BASE, run, s, 1, 2, 12, true, C2);
    run', u := Orders(Fixed, BASE, run', u, 1, Try(12), []);
  }

  lemma Refuses(run: seq<Step>, s: Sys) returns (run': seq<Step>, u: Sys)
    requires Reaches(Fixed, BASE, run, s) && Is(s, Host(One(Table(Held, 1, 11, 1), [], C2, 1), 2, [], {H(11, 1)}), T3)
    ensures Reaches(Fixed, BASE, run', u)
    ensures Is(u, Host(One(Table(Held, 1, 11, 1), [Req(1, 12, false)], C2, 1), 3, [No(12)], {H(11, 1)}), T3)
  {
    IsRefused(s.hosts[1]);
    run', u := Delivers(Fixed, BASE, run, s, 1, [R],
                        Host(One(Table(Held, 1, 11, 1), [Req(1, 12, false)], C2, 1), 3, [No(12)], {H(11, 1)}));
  }

  lemma HandsOver(h: Host)
    requires h == Host(One(Table(Held, 1, 11, 1), [Req(1, 12, false)], C2, 1), 3, [No(12)], {H(11, 1)})
    ensures HostAskUnlock(h, H(11, 1), [R]) ==
      Host(One(Table(Held, 1, 11, 1), [Req(1, 12, true)], C2, 1), 3, [No(12), Give(1, 12)], {})
  {
    var q := [Req(1, 12, false)];
    assert FirstWaiter(q, R) == 0 && q[0 := Req(1, 12, true)] == [Req(1, 12, true)];
    assert FirstLockId(Table(Held, 1, 11, 1), 1, [R]) == 0;
    NoneTold({});
    assert [No(12)] + [Give(1, 12)] == [No(12), Give(1, 12)];
    assert {H(11, 1)} - {H(11, 1)} == {};
  }

  /** The first client releases the lock before the refusal is delivered. */
  lemma FirstReleases(run: seq<Step>, s: Sys) returns (run': seq<Step>, u: Sys)
    requires Reaches(Fixed, BASE, run, s)
    requires Is(s, Host(One(Table(Held, 1, 11, 1), [Req(1, 12, false)], C2, 1), 3, [No(12)], {H(11, 1)}), T3)
    ensures Reaches(Fixed, BASE, run', u)
    ensures u.log == T3 + [Said(No(12))] + [Said(Give(1, 12))]
  {
    HandsOver(s.hosts[1]);
    run', u := LetsGo(Fixed, BASE, run, s, 1, H(11, 1), [R],
                        Host(One(Table(Held, 1, 11, 1), [Req(1, 12, true)], C2, 1), 3, [No(12), Give(1, 12)], {}));
    run', u := Orders(Fixed, BASE, run', u, 1, No(12), [Give(1, 12)]);
    run', u := Orders(Fixed, BASE, run', u, 1, Give(1, 12), []);
  }

  /** A fixed run at the end of which the same request has been refused and granted. */
  lemma RefusedAndGranted() returns (run: seq<Step>, s: Sys, p: nat, q: nat)
    ensures Reaches(Fixed, BASE, run, s)
    ensures p < |s.log| && q < |s.log| && IsNak(s.log[p], Key(R, 1, 12, 1))
    ensures s.log[q].Message? && s.log[q].m.Grant? && MsgKey(s.log[q].m) == Key(R, 1, 12, 1)
  {
    run, s := Beginning(Fixed);
    run, s := Tries(run, s);
    run, s := Refuses(run, s);
    run, s := FirstReleases(run, s);
    p, q := 3, 4;
  }
}
