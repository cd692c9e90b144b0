/** Sweeps, ticks and whole runs: the invariant holds in every state that is ever reached. */
module LoopRuns {
  import opened Bytes
  import opened Kernel
  import opened Loop
  import opened LoopInvariants
  import opened LoopHandlers
  import opened LoopEvents

  // ------------------------------------------------------------------- instances

  /** Every connection instance has a number of its own. */
  predicate Numbered(conns: map<Fd, Conn>, serials: nat) {
    && (forall id :: id in conns ==> conns[id].log.serial < serials)
    && (forall a, b :: a in conns && b in conns && a != b ==> conns[a].log.serial != conns[b].log.serial)
  }

  /** What holds between any two handlers. */
  ghost predicate Good(s: Loop, w: World) {
    Sound(s, w) && Numbered(s.conns, s.serials) && |s.conns| <= w.maxConnections
  }

  /** Instances go on under their descriptor or are gone for good. */
  ghost predicate Instances(s: Loop, s': Loop) {
    && s.serials <= s'.serials
    && (forall x :: x in s'.conns ==>
          (x in s.conns && Continues(s.conns[x].log, s'.conns[x].log)) || s'.conns[x].log.serial >= s.serials)
  }

  lemma InstancesTrans(a: Loop, b: Loop, c: Loop)
    requires Instances(a, b) && Instances(b, c)
    ensures Instances(a, c)
  {}

  /** What any sequence of handlers keeps. */
  ghost predicate Passes(s: Loop, s': Loop, w: World) {
    Ages(s, s', w) && Instances(s, s')
  }

  lemma PassesAges(s: Loop, s': Loop, w: World)
    requires Passes(s, s', w)
    ensures Ages(s, s', w) && Instances(s, s')
  {}

  lemma FewerConns(a: map<Fd, Conn>, b: map<Fd, Conn>)
    requires b.Keys <= a.Keys
    ensures |b| <= |a|
  {
    assert b.Keys + (a.Keys - b.Keys) == a.Keys;
  }

  lemma EvolvedGood(s: Loop, s': Loop, w: World)
    requires Good(s, w) && Sound(s', w) && Evolves(s, s', w)
    ensures Good(s', w) && Passes(s, s', w) && s'.lastSweep == s.lastSweep
  {
    hide Sound, Ages;
    FewerConns(s.conns, s'.conns);
  }

  lemma AcceptedGood(s: Loop, s': Loop, w: World)
    requires Good(s, w) && Sound(s', w) && Accepted(s, s') && |s'.conns| <= w.maxConnections
    ensures Good(s', w) && Passes(s, s', w) && s'.lastSweep == s.lastSweep
  {
    hide Sound, Tidy;
  }

  lemma PassesTrans(a: Loop, b: Loop, c: Loop, w: World)
    requires Passes(a, b, w) && Passes(b, c, w)
    ensures Passes(a, c, w)
  {
    hide Tidy;
    InstancesTrans(a, b, c);
    hide Instances;
  }

  lemma PassesSelf(s: Loop, w: World)
    ensures Passes(s, s, w)
  {
    hide Tidy;
  }

  // ---------------------------------------------------------------------- events

  /** One event, however stale. */
  lemma HandleGood(s: Loop, w: World, e: Event)
    requires Good(s, w)
    ensures Good(Handle(s, w, e), w) && Passes(s, Handle(s, w, e), w) && Handle(s, w, e).lastSweep == s.lastSweep
  {
    hide Sound, Numbered, Evolves, Passes, Accepted, ListenerEvent, CgiStdoutReadable, CgiStdinWritable,
      RemoveConnection, ClientWritable, ClientReadable;
    PassesSelf(s, w);
    if e.fd in s.listeners {
      ListenerGood(s, w);
      AcceptedGood(s, ListenerEvent(s, w), w);
    } else {
      StdoutGood(s, w, e.fd);
      StdinGood(s, w, e.fd);
      RemoveSound(s, w, e.fd);
      WritableGood(s, w, e.fd);
      ReadableGood(s, w, e.fd);
      if Handle(s, w, e) != s {
        EvolvedGood(s, Handle(s, w, e), w);
      }
    }
  }

  lemma {:induction false} HandleAllGood(s: Loop, w: World, events: seq<Event>)
    requires Good(s, w)
    ensures var s' := HandleAll(s, w, events); Good(s', w) && Passes(s, s', w) && s'.lastSweep == s.lastSweep
    decreases |events|
  {
    hide Good, Passes, Handle;
    if events == [] {
      PassesSelf(s, w);
    } else {
      var s1 := Handle(s, w, events[0]);
      HandleGood(s, w, events[0]);
      HandleAllGood(s1, w, events[1..]);
      PassesTrans(s, s1, HandleAll(s1, w, events[1..]), w);
    }
  }

  // ---------------------------------------------------------------- CGI deadlines

  /** No process is older than `limit`. */
  predicate Within(s: Loop, limit: nat) {
    forall o :: o in s.cgis ==> s.clock - s.cgis[o].startedAt <= limit
  }

  /** All these processes are past their time. */
  predicate AllLate(s: Loop, os: seq<Fd>) { Different(os) && forall o :: o in os ==> o in TimedOut(s) }

  lemma ListedLate(s: Loop, w: World)
    ensures AllLate(s, Listing(TimedOut(s), w, s.k.calls))
  {
    hide Listing, TimedOut;
    var os := Listing(TimedOut(s), w, s.k.calls);
    assert Different(os);
    assert Elems(os) == TimedOut(s);
    forall o | o in os ensures o in TimedOut(s) {
      assert o in Elems(os);
    }
  }

  lemma LateMayFinish(s: Loop, w: World, os: seq<Fd>)
    requires AllLate(s, os) && os != []
    ensures os[0] in s.cgis && MayFinish(s, w, os[0], TookTooLong)
  {
    var o := os[0];
    assert o in os;
    assert o in TimedOut(s);
  }

  /** When the first has ended, the others are still late. */
  lemma StillLate(s: Loop, s': Loop, os: seq<Fd>)
    requires os != [] && AllLate(s, os) && s'.clock == s.clock
    requires forall p :: p in s.cgis && p != os[0] ==> p in s'.cgis && s'.cgis[p] == s.cgis[p]
    ensures AllLate(s', os[1..])
  {
    var rest := os[1..];
    assert Different(rest);
    forall o | o in rest ensures o in TimedOut(s') {
      var i :| 0 <= i < |rest| && rest[i] == o;
      assert os[i + 1] == o && o in os && o in TimedOut(s) && o in s.cgis && o != os[0];
      assert o in s'.cgis && s'.cgis[o] == s.cgis[o];
    }
  }

  /** Ending the late processes `os` leaves no process past its time, if no other was. */
  lemma {:induction false} FinishAllGood(s: Loop, w: World, os: seq<Fd>)
    requires Sound(s, w) && TimedOut(s) <= Elems(os) && AllLate(s, os)
    ensures var s' := FinishAll(s, w, os); Sound(s', w) && Evolves(s, s', w) && Within(s', CGI_TIMEOUT)
    decreases |os|
  {
    hide Sound, Evolves, FinishCgi, AllLate, MayFinish;
    if os == [] {
      CalledEvolves(s, w);
      assert forall o :: o in s.cgis ==> o !in TimedOut(s);
    } else {
      hide TimedOut;
      var s1 := FinishCgi(s, w, os[0], TookTooLong);
      LateMayFinish(s, w, os);
      FinishGood(s, w, os[0], TookTooLong);
      SameClock(s, s1, w);
      StillLate(s, s1, os);
      NoneNewlyLate(s, s1, w, os[0]);
      assert Elems(os) == {os[0]} + Elems(os[1..]);
      FinishAllGood(s1, w, os[1..]);
      EvolvesTrans(s, s1, FinishAll(s1, w, os[1..]), w);
    }
  }

  lemma SameClock(s: Loop, s': Loop, w: World)
    requires Evolves(s, s', w)
    ensures s'.clock == s.clock
  {}

  lemma NoneNewlyLate(s: Loop, s': Loop, w: World, o: Fd)
    requires Evolves(s, s', w) && (o in s'.cgis ==> s'.cgis[o].startedAt == s.clock)
    ensures TimedOut(s') <= TimedOut(s) - {o}
  {
    hide Tidy;
    forall p | p in TimedOut(s') ensures p in TimedOut(s) && p != o {
      assert p in s'.cgis && s'.cgis[p].startedAt != s.clock;
    }
  }

  lemma AgedWithin(s: Loop, s': Loop, w: World, limit: nat)
    requires Ages(s, s', w) && Within(s, limit)
    ensures Within(s', limit)
  {
    hide Tidy;
  }

  // --------------------------------------------------------------------- children

  /** One list without repetitions is another without the element `i`. */
  lemma Without(all: seq<Pid>, i: nat)
    requires i < |all| && (forall a, b :: 0 <= a < b < |all| ==> all[a] != all[b])
    ensures var rest := all[..i] + all[i + 1..];
            && (forall a, b :: 0 <= a < b < |rest| ==> rest[a] != rest[b])
            && (forall pid :: pid in rest <==> pid in all && pid != all[i])
  {
    var rest := all[..i] + all[i + 1..];
    assert forall a :: 0 <= a < |rest| ==> rest[a] == all[if a < i then a else a + 1];
    forall pid | pid in all && pid != all[i] ensures pid in rest {
      var a :| 0 <= a < |all| && all[a] == pid;
      assert rest[if a < i then a else a - 1] == pid;
    }
  }

  lemma ReapedFamilies(cgis: map<Fd, Cgi>, all: seq<Pid>, i: nat, lost: set<Pid>, children: set<Pid>)
    requires i < |all| && Families(cgis, all, lost, children)
    ensures Families(cgis, all[..i] + all[i + 1..], lost, children - {all[i]})
  {
    Without(all, i);
    hide RunsChild;
    assert all[i] in all;
    assert !RunsChild(cgis, all[i]) by { NotRun(cgis, all[i]); }
  }

  lemma NotRun(cgis: map<Fd, Cgi>, pid: Pid)
    requires forall o :: o in cgis ==> cgis[o].pid != pid
    ensures !RunsChild(cgis, pid)
  {}

  /** Waiting for the next child on the list. */
  lemma WaitedFamilies(k: Kernel, w: World, cgis: map<Fd, Cgi>, kept: seq<Pid>, pids: seq<Pid>, lost: set<Pid>)
    requires pids != [] && Families(cgis, kept + pids, lost, k.children)
    ensures var (k', answer) := Wait(k, w, pids[0]);
            && k'.open == k.open && k'.interest == k.interest && k'.faults == k.faults
            && Families(cgis, (if answer.Running? then kept + [pids[0]] else kept) + pids[1..], lost, k'.children)
  {
    var all := kept + pids;
    assert all[|kept|] == pids[0] && all[..|kept|] == kept && all[|kept| + 1..] == pids[1..];
    assert kept + [pids[0]] + pids[1..] == all;
    ListedChild(cgis, all, |kept|, lost, k.children);
    ReapedFamilies(cgis, all, |kept|, lost, k.children);
    hide Families;
  }

  lemma ListedChild(cgis: map<Fd, Cgi>, all: seq<Pid>, i: nat, lost: set<Pid>, children: set<Pid>)
    requires i < |all| && Families(cgis, all, lost, children)
    ensures all[i] in children
  {
    assert all[i] in all;
  }

  /** Every child on the list is waited for once; those still running stay on it. */
  lemma {:induction false} ReapFamilies(
    k: Kernel, w: World, cgis: map<Fd, Cgi>, kept: seq<Pid>, pids: seq<Pid>, lost: set<Pid>)
    requires Families(cgis, kept + pids, lost, k.children)
    ensures var (k', rest) := Reap(k, w, pids);
            && k'.open == k.open && k'.interest == k.interest && k'.faults == k.faults
            && Families(cgis, kept + rest, lost, k'.children)
    decreases |pids|
  {
    hide Families, Wait;
    if pids != [] {
      WaitedFamilies(k, w, cgis, kept, pids, lost);
      var (k1, answer) := Wait(k, w, pids[0]);
      var kept1 := if answer.Running? then kept + [pids[0]] else kept;
      ReapFamilies(k1, w, cgis, kept1, pids[1..], lost);
      var rest := Reap(k1, w, pids[1..]).1;
      assert kept + ([pids[0]] + rest) == kept + [pids[0]] + rest;
    }
  }

  lemma {:induction false} ReapKilled(k: Kernel, w: World, pids: seq<Pid>)
    ensures var (k', rest) := Reap(k, w, pids); k'.killed == k.killed && forall pid :: pid in rest ==> pid in pids
    decreases |pids|
  {
    if pids != [] {
      var k1 := Wait(k, w, pids[0]).0;
      assert k1.killed == k.killed;
      hide Wait;
      ReapKilled(k1, w, pids[1..]);
    }
  }

  lemma FewerStops(cgis: map<Fd, Cgi>, reap: seq<Pid>, killed: set<Pid>, ended: set<Pid>, rest: seq<Pid>)
    requires Stops(cgis, reap, killed, ended) && forall pid :: pid in rest ==> pid in reap
    ensures Stops(cgis, rest, killed, ended)
  {}

  lemma ReapedInv(s: Loop, w: World, k: Kernel, pids: seq<Pid>)
    requires Inv(s, w, None) && k.open == s.k.open && k.interest == s.k.interest && k.faults == s.k.faults
    requires Families(s.cgis, pids, s.lost.pids, k.children) && Stops(s.cgis, pids, k.killed, s.ended)
    ensures Inv(s.(k := k, pendingReap := pids), w, None)
  {
    hide Owned, Watched, Piped, Families, Stops, Linked, ConnsOk, CgisOk, LostOk;
  }

  lemma FamiliesOf(s: Loop, w: World)
    requires Inv(s, w, None)
    ensures Families(s.cgis, s.pendingReap, s.lost.pids, s.k.children)
    ensures Stops(s.cgis, s.pendingReap, s.k.killed, s.ended)
  {}

  lemma ReapsGood(s: Loop, w: World)
    requires Sound(s, w)
    ensures var s' := SweepPendingReaps(s, w);
            Sound(s', w) && Evolves(s, s', w) && s'.cgis == s.cgis && s'.clock == s.clock
  {
    FamiliesOf(s, w);
    var (k, pids) := Reap(s.k, w, s.pendingReap);
    assert [] + s.pendingReap == s.pendingReap && [] + pids == pids;
    ReapedEvolves(s, w, k, pids);
    hide Inv, Settled, Families, Stops, Reap, Evolves;
    ReapFamilies(s.k, w, s.cgis, [], s.pendingReap, s.lost.pids);
    ReapKilled(s.k, w, s.pendingReap);
    FewerStops(s.cgis, s.pendingReap, s.k.killed, s.ended, pids);
    ReapedInv(s, w, k, pids);
    ReapedSettled(s, w, k, pids);
  }

  lemma ReapedEvolves(s: Loop, w: World, k: Kernel, pids: seq<Pid>)
    ensures Evolves(s, s.(k := k, pendingReap := pids), w)
  {
    hide Tidy;
  }

  lemma ReapedSettled(s: Loop, w: World, k: Kernel, pids: seq<Pid>)
    requires Settled(s, w, None) && k.interest == s.k.interest
    ensures Settled(s.(k := k, pendingReap := pids), w, None)
  {
    hide Moving, Calm, Alert, Reliable;
  }

  // ------------------------------------------------------------- idle connections

  lemma ExpireGood(s: Loop, w: World, id: Fd)
    requires Sound(s, w)
    ensures Sound(ExpireConnection(s, w, id), w) && Evolves(s, ExpireConnection(s, w, id), w)
  {
    hide Sound, Evolves, RemoveConnection, ArmWrite, QueueWriteAndClose;
    if id in s.conns && s.conns[id].readBuf != [] {
      assert IsPage(w, TimeoutPage, w.page(TimeoutPage, s.k.calls));
      NoticeGood(s, w, id, TimeoutPage, w.page(TimeoutPage, s.k.calls));
    } else {
      RemoveSound(s, w, id);
    }
  }

  lemma {:induction false} ExpireAllGood(s: Loop, w: World, ids: seq<Fd>)
    requires Sound(s, w)
    ensures Sound(ExpireAll(s, w, ids), w) && Evolves(s, ExpireAll(s, w, ids), w)
    decreases |ids|
  {
    hide Sound, Evolves, ExpireConnection;
    if ids == [] {
      CalledEvolves(s, w);
    } else {
      var s1 := ExpireConnection(s, w, ids[0]);
      ExpireGood(s, w, ids[0]);
      ExpireAllGood(s1, w, ids[1..]);
      EvolvesTrans(s, s1, ExpireAll(s1, w, ids[1..]), w);
    }
  }

  // ------------------------------------------------------------------------ ticks

  /** Nothing in the tables depends on what time it is. */
  lemma TimeGood(s: Loop, w: World, clock: nat, lastSweep: nat)
    requires Good(s, w)
    ensures Good(s.(clock := clock, lastSweep := lastSweep), w)
  {
    hide Owned, Watched, Piped, Families, Stops, Linked, ConnsOk, CgisOk, LostOk, Numbered;
    hide Moving, Calm, Alert, Reliable;
  }

  lemma SweepAgedGood(s: Loop, w: World)
    requires Sound(s, w)
    ensures var s' := SweepPendingReaps(SweepCgiTimeouts(s, w), w);
            Sound(s', w) && Evolves(s, s', w) && Within(s', CGI_TIMEOUT)
  {
    hide Sound, Evolves, SweepPendingReaps, FinishAll, Listing, TimedOut;
    var late := Listing(TimedOut(s), w, s.k.calls);
    assert Elems(late) == TimedOut(s) && AllLate(s, late);
    FinishAllGood(s, w, late);
    var s1 := SweepCgiTimeouts(s, w);
    ReapsGood(s1, w);
    EvolvesTrans(s, s1, SweepPendingReaps(s1, w), w);
  }

  lemma IdleGood(s: Loop, w: World)
    requires Good(s, w)
    ensures var s' := SweepIdleConnections(s, w).(lastSweep := s.clock); Good(s', w) && Passes(s, s', w)
  {
    assert Sound(s, w);
    hide Sound, Evolves, Passes, Numbered, Listing, ExpireAll, IdleConnections;
    ExpireAllGood(s, w, Listing(IdleConnections(s), w, s.k.calls));
    var s' := SweepIdleConnections(s, w);
    EvolvedGood(s, s', w);
    hide SweepIdleConnections, Good;
    TimeGood(s', w, s'.clock, s.clock);
    SweptPasses(s, s', w, s.clock);
  }

  lemma AgedGood(s: Loop, w: World)
    requires Good(s, w)
    ensures var s' := SweepPendingReaps(SweepCgiTimeouts(s, w), w);
            Good(s', w) && Passes(s, s', w) && Within(s', CGI_TIMEOUT)
  {
    hide Sound, Evolves, Passes, Numbered, SweepPendingReaps, SweepCgiTimeouts, Within;
    SweepAgedGood(s, w);
    EvolvedGood(s, SweepPendingReaps(SweepCgiTimeouts(s, w), w), w);
  }

  /** After the sweeps no CGI process is past its time. */
  lemma SweepGood(s: Loop, w: World)
    requires Good(s, w)
    ensures Good(Sweep(s, w), w) && Passes(s, Sweep(s, w), w) && Within(Sweep(s, w), CGI_TIMEOUT)
  {
    hide Good, Passes, SweepPendingReaps, SweepCgiTimeouts, Within, SweepIdleConnections;
    AgedGood(s, w);
    var s1 := SweepPendingReaps(SweepCgiTimeouts(s, w), w);
    if s1.clock - s1.lastSweep >= IDLE_SWEEP_INTERVAL {
      IdleGood(s1, w);
      var s2 := SweepIdleConnections(s1, w).(lastSweep := s1.clock);
      PassesAges(s1, s2, w);
      AgedWithin(s1, s2, w, CGI_TIMEOUT);
      PassesTrans(s, s1, s2, w);
    }
  }

  lemma SweptPasses(s: Loop, s': Loop, w: World, lastSweep: nat)
    requires Passes(s, s', w)
    ensures Passes(s, s'.(lastSweep := lastSweep), w)
  {
    hide Tidy;
  }

  /** The kernel returns from the wait no later than it was told to. */
  predicate OnTime(s: Loop, w: World, t: Tick) {
    var limit := WaitLimit(Sweep(s, w), t.timeout);
    limit >= 0 ==> t.waited <= limit
  }

  /** The clock moves on, and then processes start or end. */
  lemma WaitedWithin(s: Loop, w: World, t: Tick, s': Loop)
    requires Within(s, CGI_TIMEOUT) && Ages(s.(clock := s.clock + t.waited), s', w)
    requires s.cgis != map[] ==> t.waited <= WAIT_CAP
    ensures Within(s', CGI_TIMEOUT + WAIT_CAP)
  {
    hide Tidy;
    assert forall o :: o in s.cgis ==> s.cgis != map[];
  }

  lemma TickGood(s: Loop, w: World, t: Tick)
    requires Good(s, w)
    ensures Good(RunTick(s, w, t), w) && Instances(s, RunTick(s, w, t))
    ensures Tidy(w) ==> RunTick(s, w, t).lost == s.lost
    ensures OnTime(s, w, t) ==> Within(RunTick(s, w, t), CGI_TIMEOUT + WAIT_CAP)
  {
    hide Good, Sweep, HandleAll, Tidy, Within, Ages, Instances, Passes;
    var s1 := Sweep(s, w);
    SweepGood(s, w);
    var s2 := s1.(clock := s1.clock + t.waited);
    TimeGood(s1, w, s2.clock, s1.lastSweep);
    assert s2 == s1.(clock := s2.clock, lastSweep := s1.lastSweep);
    var s3 := HandleAll(s2, w, t.Events());
    HandleAllGood(s2, w, t.Events());
    PassesAges(s, s1, w);
    PassesAges(s2, s3, w);
    TimeInstances(s, s1, s2);
    InstancesTrans(s, s2, s3);
    KeptLost(s, s1, w);
    KeptLost(s2, s3, w);
    if OnTime(s, w, t) {
      WaitedWithin(s1, w, t, s3);
    }
  }

  lemma TimeInstances(s: Loop, s1: Loop, s2: Loop)
    requires Instances(s, s1) && s2.conns == s1.conns && s2.serials == s1.serials
    ensures Instances(s, s2)
  {}

  lemma KeptLost(s: Loop, s': Loop, w: World)
    requires Ages(s, s', w)
    ensures Tidy(w) ==> s'.lost == s.lost
  {}

  // ------------------------------------------------------------------------- runs

  lemma StartTables(listeners: set<Fd>, now: nat)
    ensures Tables(Start(listeners, now))
  {
    var interest := map l | l in listeners :: Readable;
    assert interest.Keys == listeners;
  }

  lemma StartInv(listeners: set<Fd>, now: nat, w: World)
    ensures Inv(Start(listeners, now), w, None)
  {
    hide Tables, ConnOk, CgiOk, WorksFor, IsServed, RunsChild;
    StartTables(listeners, now);
  }

  lemma StartGood(listeners: set<Fd>, now: nat, w: World)
    ensures Good(Start(listeners, now), w)
  {
    hide Inv, Reliable, Moving, Calm, Alert;
    StartInv(listeners, now, w);
  }

  predicate AllOnTime(s: Loop, w: World, ticks: seq<Tick>)
    decreases |ticks|
  {
    ticks != [] ==> OnTime(s, w, ticks[0]) && AllOnTime(RunTick(s, w, ticks[0]), w, ticks[1..])
  }

  lemma {:induction false} RunGood(s: Loop, w: World, ticks: seq<Tick>)
    requires Good(s, w)
    ensures Good(Run(s, w, ticks), w) && Instances(s, Run(s, w, ticks))
    ensures Tidy(w) ==> Run(s, w, ticks).lost == s.lost
    ensures AllOnTime(s, w, ticks) && Within(s, CGI_TIMEOUT + WAIT_CAP) ==>
              Within(Run(s, w, ticks), CGI_TIMEOUT + WAIT_CAP)
    decreases |ticks|
  {
    hide Good, RunTick, OnTime, Within, Tidy, Instances;
    if ticks == [] {
      SameInstance(s);
    } else {
      TickGood(s, w, ticks[0]);
      RunGood(RunTick(s, w, ticks[0]), w, ticks[1..]);
      InstancesTrans(s, RunTick(s, w, ticks[0]), Run(s, w, ticks));
    }
  }

  lemma SameInstance(s: Loop)
    ensures Instances(s, s)
  {}
}
