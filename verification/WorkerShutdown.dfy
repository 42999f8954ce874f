/**
 Counting workers, and shutting them down: workersCount is exact in every interleaving,
 and once Stop has run the pool winds down to no worker at all.
 */
module WorkerShutdown {
  import opened Options
  import opened WorkerPool
  import opened WorkerOwnership
  import opened WorkerDelivery

  function Total<T>(w: T -> nat, s: seq<T>): nat {
    if s == [] then 0 else Total(w, s[..|s| - 1]) + w(s[|s| - 1])
  }

  lemma {:induction false} TotalUpdate<T>(w: T -> nat, s: seq<T>, i: nat, x: T)
    requires i < |s|
    ensures Total(w, s[i := x]) == Total(w, s) - w(s[i]) + w(x)
    ensures w(s[i]) <= Total(w, s)
  {
    var init := s[..|s| - 1];
    if i == |s| - 1 {
      assert s[i := x][..|s| - 1] == init;
    } else {
      TotalUpdate(w, init, i, x);
      assert s[i := x][..|s| - 1] == init[i := x];
    }
  }

  lemma TotalAppend<T>(w: T -> nat, s: seq<T>, x: T)
    ensures Total(w, s + [x]) == Total(w, s) + w(x)
  {
    assert (s + [x])[..|s|] == s;
  }

  lemma {:induction false} TotalZero<T>(w: T -> nat, s: seq<T>)
    requires forall i :: 0 <= i < |s| ==> w(s[i]) == 0
    ensures Total(w, s) == 0
  {
    if s != [] { TotalZero(w, s[..|s| - 1]); }
  }

  // ------------------------------------------------------------- accounting

  /** 1 for a channel whose worker runs and has not yet been uncounted. */
  function Live(x: Chan): nat {
    if x.pc == NoWorker || x.pc == Retiring then 0 else 1
  }

  /** 1 for a caller about to start a worker. */
  function Starting(k: Caller): nat {
    if k.Creating? || k.Spawning? then 1 else 0
  }

  /** workersCount is the number of live and about-to-start workers, and within its limit. */
  ghost predicate Counted(c: Config, s: State) {
    && s.workersCount == Total(Live, s.chans) + Total(Starting, s.callers)
    && s.workersCount <= c.maxWorkers
  }

  lemma EnteringCounted(c: Config, s: State, a: Action)
    requires Counted(c, s) && Enabled(s, a) && (a.Serve? || a.GetCh?)
    ensures Counted(c, Next(c, s, a))
  {
    TotalUpdate(Starting, s.callers, a.p, Next(c, s, a).callers[a.p]);
  }

  lemma PoolGetCounted(c: Config, s: State, p: nat, recycled: Option<nat>)
    requires Counted(c, s) && Enabled(s, PoolGet(p, recycled))
    ensures Counted(c, Next(c, s, PoolGet(p, recycled)))
  {
    TotalUpdate(Starting, s.callers, p, Next(c, s, PoolGet(p, recycled)).callers[p]);
    TotalAppend(Live, s.chans, Chan([], NoWorker, 0, []));
  }

  lemma HandOverCounted(c: Config, s: State, a: Action)
    requires Owned(s) && Counted(c, s) && Enabled(s, a) && (a.Go? || a.Send?)
    ensures Counted(c, Next(c, s, a))
  {
    var s', ch := Next(c, s, a), s.callers[a.p].ch;
    HolderOf(s, ch, HeldBy(a.p));
    TotalUpdate(Starting, s.callers, a.p, s'.callers[a.p]);
    TotalUpdate(Live, s.chans, ch, s'.chans[ch]);
  }

  lemma WorkerCounted(c: Config, s: State, a: Action)
    requires Counted(c, s) && Enabled(s, a)
    requires OfWorker(a)
    ensures Counted(c, Next(c, s, a))
  {
    TotalUpdate(Live, s.chans, a.ch, Next(c, s, a).chans[a.ch]);
  }

  lemma QuitCounted(c: Config, s: State, a: Action, ch: nat)
    requires Counted(c, s) && Enabled(s, a)
    requires (a == Notify && ch == s.cleaner.scratch[s.cleaner.next]) || (a == StopSend && ch == s.ready[s.stopper.next])
    ensures Counted(c, Next(c, s, a))
  {
    TotalUpdate(Live, s.chans, ch, Next(c, s, a).chans[ch]);
  }

  lemma NextCounted(c: Config, s: State, a: Action)
    requires Owned(s) && Counted(c, s) && Enabled(s, a)
    ensures Counted(c, Next(c, s, a))
  {
    if a.Serve? || a.GetCh? { EnteringCounted(c, s, a); }
    else if a.PoolGet? { PoolGetCounted(c, s, a.p, a.recycled); }
    else if a.Go? || a.Send? { HandOverCounted(c, s, a); }
    else if a.Notify? { QuitCounted(c, s, a, s.cleaner.scratch[s.cleaner.next]); }
    else if a.StopSend? { QuitCounted(c, s, a, s.ready[s.stopper.next]); }
    else if OfWorker(a) { WorkerCounted(c, s, a); }
  }

  lemma {:induction false} RunCounted(c: Config, s: State, run: seq<Action>)
    requires Owned(s) && Counted(c, s) && Legal(c, s, run)
    ensures Counted(c, End(c, s, run))
    decreases |run|
  {
    if run != [] {
      NextOwned(c, s, run[0]);
      NextCounted(c, s, run[0]);
      RunCounted(c, Next(c, s, run[0]), run[1..]);
    }
  }

  /** In every interleaving workersCount counts exactly the workers, never more than allowed. */
  lemma ReachableCounted(c: Config, s: State)
    requires Reachable(c, s)
    ensures Counted(c, s) && s.workersCount >= 0
  {
    var s0, run :| Initial(s0) && Legal(c, s0, run) && End(c, s0, run) == s;
    assert Owned(s0);
    TotalZero(Starting, s0.callers);
    RunCounted(c, s0, run);
  }

  // --------------------------------------------------------------- shutdown

  /** After Stop: the ready list is empty. */
  ghost predicate Drained(s: State) {
    s.stopper == Stopped && s.ready == []
  }

  lemma NextDrained(c: Config, s: State, a: Action)
    requires Enabled(s, a)
    ensures Drained(s) ==> Drained(Next(c, s, a))
    ensures s.stopper != Stopped && Next(c, s, a).stopper == Stopped ==> Drained(Next(c, s, a))
  {
  }

  /** Once mustStop is set the ready list is empty, and stays so in every continuation. */
  lemma {:induction false} StaysDrained(c: Config, s: State, run: seq<Action>)
    requires (s.stopper == Stopped ==> s.ready == []) && Legal(c, s, run)
    ensures End(c, s, run).stopper == Stopped ==> End(c, s, run).ready == []
    ensures s.stopper == Stopped ==> Drained(End(c, s, run))
    decreases |run|
  {
    if run != [] {
      NextDrained(c, s, run[0]);
      StaysDrained(c, Next(c, s, run[0]), run[1..]);
    }
  }

  /** Actions of a shutdown: everything but new Serve calls and the passing of time. */
  predicate Winding(a: Action) { !a.Serve? && !a.Tick? }

  function PcWork(pc: Pc): nat {
    match pc
    case NoWorker => 0
    case Waiting => 0
    case Retiring => 1
    case Exiting => 2
    case Stamped => 3
    case Unstamped => 4
    case Served(_) => 5
    case Busy(_) => 6
  }

  function ChanWork(x: Chan): nat { PcWork(x.pc) + 7 * |x.queue| }

  function CallerWork(k: Caller): nat {
    match k
    case Outside => 0
    case Sending(_, _) => 8
    case Spawning(_, _) => 9
    case Creating(_) => 10
    case Calling(_) => 11
  }

  function CleanerWork(k: Cleaner): nat {
    match k
    case Finished => 0
    case AtSelect => 1
    case Notifying(scratch, next) => 2 + 8 * (if next <= |scratch| then |scratch| - next else 0)
    case Timed(_) => 3
    case AtClean => 4
  }

  /** An upper bound on the actions left. */
  function WorkLeft(s: State): nat {
    Total(ChanWork, s.chans) + Total(CallerWork, s.callers) + CleanerWork(s.cleaner)
  }

  lemma EnteringWinds(c: Config, s: State, a: Action)
    requires Drained(s) && Enabled(s, a) && (a.GetCh? || a.PoolGet?)
    ensures WorkLeft(Next(c, s, a)) < WorkLeft(s)
  {
    TotalUpdate(CallerWork, s.callers, a.p, Next(c, s, a).callers[a.p]);
    TotalAppend(ChanWork, s.chans, Chan([], NoWorker, 0, []));
  }

  lemma HandOverWinds(c: Config, s: State, a: Action)
    requires Owned(s) && Enabled(s, a) && (a.Go? || a.Send?)
    ensures WorkLeft(Next(c, s, a)) < WorkLeft(s)
  {
    var s', ch := Next(c, s, a), s.callers[a.p].ch;
    HolderOf(s, ch, HeldBy(a.p));
    TotalUpdate(CallerWork, s.callers, a.p, s'.callers[a.p]);
    TotalUpdate(ChanWork, s.chans, ch, s'.chans[ch]);
  }

  lemma WorkerWinds(c: Config, s: State, a: Action)
    requires Drained(s) && Enabled(s, a)
    requires OfWorker(a)
    ensures WorkLeft(Next(c, s, a)) < WorkLeft(s)
  {
    TotalUpdate(ChanWork, s.chans, a.ch, Next(c, s, a).chans[a.ch]);
  }

  lemma CleanerWinds(c: Config, s: State, a: Action)
    requires Drained(s) && Enabled(s, a)
    requires a.ReadClock? || a.CleanLock? || a.Notify? || a.CleanDone? || a.SelectSleep? || a.SelectStop?
    ensures WorkLeft(Next(c, s, a)) < WorkLeft(s)
  {
    if a.Notify? {
      var ch := s.cleaner.scratch[s.cleaner.next];
      TotalUpdate(ChanWork, s.chans, ch, Next(c, s, a).chans[ch]);
    }
  }

  /** After Stop, every action but a new call or a tick leaves less to do. */
  lemma NextWinds(c: Config, s: State, a: Action)
    requires Owned(s) && Drained(s) && Enabled(s, a) && Winding(a)
    ensures WorkLeft(Next(c, s, a)) < WorkLeft(s)
  {
    if a.GetCh? || a.PoolGet? { EnteringWinds(c, s, a); }
    else if a.Go? || a.Send? { HandOverWinds(c, s, a); }
    else if OfWorker(a) { WorkerWinds(c, s, a); }
    else { CleanerWinds(c, s, a); }
  }

  /** How many actions of a run are the pool's own. */
  function Windings(run: seq<Action>): nat {
    if run == [] then 0 else (if Winding(run[0]) then 1 else 0) + Windings(run[1..])
  }

  /** How many new Serve calls a run makes. */
  function Calls(run: seq<Action>): nat {
    if run == [] then 0 else (if run[0].Serve? then 1 else 0) + Calls(run[1..])
  }

  /** A new call adds a bounded amount of work, a tick none. */
  lemma OutsideAdds(c: Config, s: State, a: Action)
    requires Enabled(s, a) && !Winding(a)
    ensures WorkLeft(Next(c, s, a)) == WorkLeft(s) + 11 * Calls([a])
  {
    if a.Serve? {
      TotalUpdate(CallerWork, s.callers, a.p, Calling(a.job));
    }
  }

  /**
   So shutdown is finite whatever else happens: in every run after Stop the pool's own actions
   and the work left at the end are bounded by the work at the start and that of late calls.
   */
  lemma {:induction false} ShutdownFinite(c: Config, s: State, run: seq<Action>)
    requires Owned(s) && Drained(s) && Legal(c, s, run)
    ensures Windings(run) + WorkLeft(End(c, s, run)) <= WorkLeft(s) + 11 * Calls(run)
    decreases |run|
  {
    if run != [] {
      NextOwned(c, s, run[0]);
      NextDrained(c, s, run[0]);
      if Winding(run[0]) {
        NextWinds(c, s, run[0]);
      } else {
        OutsideAdds(c, s, run[0]);
        assert Calls([run[0]]) == if run[0].Serve? then 1 else 0;
      }
      ShutdownFinite(c, Next(c, s, run[0]), run[1..]);
    }
  }

  /** Nothing but new calls and ticks can happen. */
  ghost predicate Stuck(s: State) {
    forall a :: Enabled(s, a) ==> !Winding(a)
  }

  /** A worker that still waits is about to be sent something, or has been. */
  lemma WaiterMoves(s: State, ch: nat)
    requires Owned(s) && Drained(s) && ch < |s.chans| && s.chans[ch].pc == Waiting
    ensures !Stuck(s)
  {
    assert HasSole(s, ch);
    var h :| Sole(s, ch, h);
    match h
    case HeldBy(p) =>
      EmptyUnlessQueued(s, ch, h);
      assert Enabled(s, Send(p)) && Winding(Send(p));
    case InScratch(i) =>
      var k := s.cleaner.next;
      EmptyUnlessQueued(s, s.cleaner.scratch[k], InScratch(k));
      assert Enabled(s, Notify) && Winding(Notify);
    case InQueue(i) => assert Enabled(s, Receive(ch)) && Winding(Receive(ch));
    case _ =>
  }

  lemma WorkerMoves(s: State, ch: nat)
    requires Owned(s) && Drained(s) && ch < |s.chans| && s.chans[ch].pc != NoWorker
    ensures !Stuck(s)
  {
    match s.chans[ch].pc
    case Waiting => WaiterMoves(s, ch);
    case Busy(_) => assert Enabled(s, Process(ch)) && Winding(Process(ch));
    case Served(_) => assert Enabled(s, PutContext(ch)) && Winding(PutContext(ch));
    case Unstamped => assert Enabled(s, Stamp(ch)) && Winding(Stamp(ch));
    case Stamped => assert Enabled(s, Release(ch)) && Winding(Release(ch));
    case Exiting => assert Enabled(s, Decrement(ch)) && Winding(Decrement(ch));
    case Retiring => assert Enabled(s, PoolPut(ch)) && Winding(PoolPut(ch));
  }

  lemma CallerMoves(s: State, p: nat)
    requires Owned(s) && Drained(s) && p < |s.callers| && s.callers[p] != Outside
    ensures !Stuck(s)
  {
    match s.callers[p]
    case Calling(_) => assert Enabled(s, GetCh(p)) && Winding(GetCh(p));
    case Creating(_) => assert Enabled(s, PoolGet(p, None)) && Winding(PoolGet(p, None));
    case Spawning(_, ch) =>
      HolderOf(s, ch, HeldBy(p));
      assert Enabled(s, Go(p)) && Winding(Go(p));
    case Sending(_, ch) =>
      EmptyUnlessQueued(s, ch, HeldBy(p));
      assert Enabled(s, Send(p)) && Winding(Send(p));
  }

  /**
   Shutdown completes: when a stopped pool can do nothing more by itself, no worker is
   left, no caller is inside Serve, and every context Serve took has been processed and
   given back.
   */
  lemma ShutdownComplete(c: Config, s: State)
    requires Reachable(c, s) && Drained(s) && Stuck(s)
    ensures s.workersCount == 0
    ensures forall ch :: 0 <= ch < |s.chans| ==> s.chans[ch].pc == NoWorker && s.chans[ch].queue == []
    ensures forall p :: 0 <= p < |s.callers| ==> s.callers[p] == Outside
    ensures forall j: Job :: j in s.accepted ==> j in s.processed && j in s.returned
  {
    ReachableOwned(c, s);
    ReachableTracked(c, s);
    ReachableCounted(c, s);
    forall ch | 0 <= ch < |s.chans| ensures s.chans[ch].pc == NoWorker && s.chans[ch].queue == [] {
      if s.chans[ch].pc != NoWorker { WorkerMoves(s, ch); }
      OneMessage(s, ch);
    }
    forall p | 0 <= p < |s.callers| ensures s.callers[p] == Outside {
      if s.callers[p] != Outside { CallerMoves(s, p); }
    }
    TotalZero(Live, s.chans);
    TotalZero(Starting, s.callers);
    forall j: Job | j in s.accepted ensures j in s.processed && j in s.returned {
      assert Placed(s, j);
      var at :| OnlyAt(s, j, at);
    }
  }

  lemma {:induction false} LegalAppend(c: Config, s: State, run: seq<Action>, a: Action)
    requires Legal(c, s, run) && Enabled(End(c, s, run), a)
    ensures Legal(c, s, run + [a]) && End(c, s, run + [a]) == Next(c, End(c, s, run), a)
    decreases |run|
  {
    if run != [] {
      LegalAppend(c, Next(c, s, run[0]), run[1..], a);
      assert (run + [a])[1..] == run[1..] + [a];
    }
  }

  lemma ReachableNext(c: Config, s: State, a: Action)
    requires Reachable(c, s) && Enabled(s, a)
    ensures Reachable(c, Next(c, s, a))
  {
    var s0, run :| Initial(s0) && Legal(c, s0, run) && End(c, s0, run) == s;
    LegalAppend(c, s0, run, a);
  }

  /** From every stopped state some run of its own actions ends with no worker left. */
  lemma {:induction false} ShutdownTerminates(c: Config, s: State) returns (run: seq<Action>)
    requires Reachable(c, s) && Drained(s)
    ensures Legal(c, s, run) && forall a :: a in run ==> Winding(a)
    ensures Stuck(End(c, s, run)) && End(c, s, run).workersCount == 0
    decreases WorkLeft(s)
  {
    if Stuck(s) {
      ShutdownComplete(c, s);
      run := [];
    } else {
      var a :| Enabled(s, a) && Winding(a);
      ReachableOwned(c, s);
      NextDrained(c, s, a);
      NextWinds(c, s, a);
      ReachableNext(c, s, a);
      var rest := ShutdownTerminates(c, Next(c, s, a));
      run := [a] + rest;
      assert run[1..] == rest;
    }
  }
}
