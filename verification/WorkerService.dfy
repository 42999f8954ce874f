/**
 What the pool does for its callers: whom Serve refuses, which worker it picks, and that a
 picked worker serves the job, is ready again, or leaves; and that Stop and the cleaner get
 through. Each is the whole effect of a short run from any reachable state.
 */
module WorkerService {
  import opened Options
  import opened WorkerPool
  import opened WorkerOwnership
  import opened WorkerDelivery
  import opened WorkerShutdown
  import opened WorkerCleaning

  // ---------------------------------------------------------------- refusal

  /** A caller with job `j` reaches getCh while no worker is ready and no more may be created. */
  predicate NoWorkerFor(c: Config, s: State, a: Action, j: Job) {
    && a.GetCh? && a.p < |s.callers| && s.callers[a.p] == Calling(j)
    && s.ready == [] && s.workersCount >= c.maxWorkers
  }

  /** Only getCh refuses, and only then. */
  lemma RefusesOnly(c: Config, s: State, a: Action)
    requires Enabled(s, a)
    ensures Next(c, s, a).rejected == s.rejected
         || (a.GetCh? && s.ready == [] && s.workersCount >= c.maxWorkers && Next(c, s, a).rejected == s.rejected + {s.callers[a.p].job})
    ensures a.GetCh? && s.ready == [] && s.workersCount >= c.maxWorkers ==> s.callers[a.p].job in Next(c, s, a).rejected
  {
  }

  /** Serve refuses a job exactly if there is no ready worker and the maximum is reached. */
  lemma RefusedIff(c: Config, s: State, a: Action, j: Job)
    requires Reachable(c, s) && Enabled(s, a)
    ensures j in Next(c, s, a).rejected && j !in s.rejected <==> NoWorkerFor(c, s, a, j)
    ensures j in s.rejected ==> j in Next(c, s, a).rejected
  {
    RefusesOnly(c, s, a);
    if NoWorkerFor(c, s, a, j) { CallingNotRefused(c, s, a.p); }
  }

  lemma CallingNotRefused(c: Config, s: State, p: nat)
    requires Reachable(c, s) && p < |s.callers| && s.callers[p].Calling?
    ensures s.callers[p].job !in s.rejected
  {
    ReachableTracked(c, s);
    PlaceOf(s, s.callers[p].job, WithCaller(p));
    assert !JobAt(s, s.callers[p].job, Refused);
  }

  ghost predicate RefusedIn(c: Config, s: State, run: seq<Action>, j: Job)
    requires Legal(c, s, run)
    decreases |run|
  {
    run != [] && (NoWorkerFor(c, s, run[0], j) || RefusedIn(c, Next(c, s, run[0]), run[1..], j))
  }

  /** Over any run: the refused jobs are those whose callers found no worker. */
  lemma {:induction false} RunRefusedIff(c: Config, s: State, run: seq<Action>, j: Job)
    requires Reachable(c, s) && Legal(c, s, run)
    ensures j in End(c, s, run).rejected <==> j in s.rejected || RefusedIn(c, s, run, j)
    decreases |run|
  {
    if run != [] {
      RefusedIff(c, s, run[0], j);
      ReachableNext(c, s, run[0]);
      RunRefusedIff(c, Next(c, s, run[0]), run[1..], j);
    }
  }

  /** When a job is refused, exactly the maximum of workers is live or about to start, and none is ready. */
  lemma RefusedWhenFull(c: Config, s: State, a: Action, j: Job, ch: nat, i: nat)
    requires Reachable(c, s) && Enabled(s, a) && j in Next(c, s, a).rejected && j !in s.rejected
    ensures Total(Live, s.chans) + Total(Starting, s.callers) == c.maxWorkers
    ensures !Holds(s, ch, InReady(i))
  {
    RefusedIff(c, s, a, j);
    ReachableCounted(c, s);
  }

  // ----------------------------------------------------------------- service

  lemma First(c: Config, s: State, a: Action, rest: seq<Action>)
    requires Enabled(s, a) && Legal(c, Next(c, s, a), rest)
    ensures Legal(c, s, [a] + rest) && End(c, s, [a] + rest) == End(c, Next(c, s, a), rest)
  {
    assert ([a] + rest)[1..] == rest;
  }

  /** What a served job leaves: processed, given back, its caller gone, and its worker about to release. */
  ghost predicate ServedBy(s: State, s': State, p: nat, j: Job, ch: nat)
    requires p < |s.callers|
  {
    && s'.processed == s.processed + [j] && s'.returned == s.returned + [j]
    && s'.accepted == s.accepted + {j} && s'.rejected == s.rejected
    && s'.callers == s.callers[p := Outside]
    && ch < |s'.chans| && s'.chans[ch].pc == Unstamped && s'.chans[ch].queue == []
    && (forall k :: 0 <= k < |s.chans| && k != ch ==> k < |s'.chans| && s'.chans[k] == s.chans[k])
  }

  /** A job sent to a waiting worker is served by it. */
  lemma WorkerServes(c: Config, s: State, p: nat, j: Job, ch: nat)
    requires p < |s.callers| && s.callers[p] == Sending(j, ch)
    requires ch < |s.chans| && s.chans[ch].queue == [] && s.chans[ch].pc == Waiting
    ensures var run := [Send(p), Receive(ch), Process(ch), PutContext(ch)];
      && Legal(c, s, run) && ServedBy(s, End(c, s, run), p, j, ch)
      && var s' := End(c, s, run); s'.ready == s.ready && s'.workersCount == s.workersCount && |s'.chans| == |s.chans|
  {
    var s1 := Next(c, s, Send(p));
    assert [] + [Work(j)] == [Work(j)] && s1.chans[ch].queue == [Work(j)] && s1.chans[ch].pc == Waiting;
    var s2 := Next(c, s1, Receive(ch));
    assert s2.chans[ch].queue == [] && s2.chans[ch].pc == Busy(j);
    var s3 := Next(c, s2, Process(ch));
    var s4 := Next(c, s3, PutContext(ch));
    FourSteps(c, s, Send(p), Receive(ch), Process(ch), PutContext(ch));
    assert s4.chans[ch].pc == Unstamped && s4.chans[ch].queue == [];
  }

  lemma FourSteps(c: Config, s: State, a1: Action, a2: Action, a3: Action, a4: Action)
    requires Enabled(s, a1) && Enabled(Next(c, s, a1), a2) && Enabled(Next(c, Next(c, s, a1), a2), a3)
    requires Enabled(Next(c, Next(c, Next(c, s, a1), a2), a3), a4)
    ensures Legal(c, s, [a1, a2, a3, a4])
    ensures End(c, s, [a1, a2, a3, a4]) == Next(c, Next(c, Next(c, Next(c, s, a1), a2), a3), a4)
  {
    var s3 := Next(c, Next(c, Next(c, s, a1), a2), a3);
    First(c, s3, a4, []);
    ThreeThen(c, s, a1, a2, a3, [a4]);
    assert [a4] + [] == [a4] && [a1, a2, a3] + [a4] == [a1, a2, a3, a4];
  }

  /** Taking a worker from the ready list: the last, and only it; the count stays. */
  lemma TakesNewest(c: Config, s: State, p: nat, j: Job)
    requires Reachable(c, s) && p < |s.callers| && s.callers[p] == Calling(j) && LockFree(s) && s.ready != []
    ensures var s', ch := Next(c, s, GetCh(p)), s.ready[|s.ready| - 1];
      && Enabled(s, GetCh(p)) && s'.callers == s.callers[p := Sending(j, ch)] && s'.ready + [ch] == s.ready
      && s'.workersCount == s.workersCount && s'.chans == s.chans && s'.rejected == s.rejected
      && ch < |s.chans| && s.chans[ch].queue == [] && s.chans[ch].pc == Waiting
  {
    ReachableOwned(c, s);
    EmptyUnlessQueued(s, s.ready[|s.ready| - 1], InReady(|s.ready| - 1));
  }

  /** With a ready worker, Serve hands the job to the one released last, which serves it; no worker is created. */
  lemma IdleWorkerServes(c: Config, s: State, p: nat, j: Job)
    requires Reachable(c, s) && p < |s.callers| && s.callers[p] == Calling(j) && LockFree(s) && s.ready != []
    ensures var ch := s.ready[|s.ready| - 1];
      var run := [GetCh(p), Send(p), Receive(ch), Process(ch), PutContext(ch)];
      && Legal(c, s, run) && ServedBy(s, End(c, s, run), p, j, ch)
      && var s' := End(c, s, run); s'.ready + [ch] == s.ready && s'.workersCount == s.workersCount && |s'.chans| == |s.chans|
  {
    var ch, s1 := s.ready[|s.ready| - 1], Next(c, s, GetCh(p));
    TakesNewest(c, s, p, j);
    WorkerServes(c, s1, p, j, ch);
    var rest := [Send(p), Receive(ch), Process(ch), PutContext(ch)];
    First(c, s, GetCh(p), rest);
    assert [GetCh(p)] + rest == [GetCh(p), Send(p), Receive(ch), Process(ch), PutContext(ch)];
    assert s1.callers[p := Outside] == s.callers[p := Outside];
  }

  /** Creating a worker: counted, with a new channel, started. */
  lemma StartsNew(c: Config, s: State, p: nat, j: Job) returns (s': State)
    requires p < |s.callers| && s.callers[p] == Calling(j) && LockFree(s)
    requires s.ready == [] && s.workersCount < c.maxWorkers
    ensures Enabled(s, GetCh(p)) && Enabled(Next(c, s, GetCh(p)), PoolGet(p, None))
    ensures Enabled(Next(c, Next(c, s, GetCh(p)), PoolGet(p, None)), Go(p))
    ensures s' == Next(c, Next(c, Next(c, s, GetCh(p)), PoolGet(p, None)), Go(p))
    ensures s' == s.(chans := s.chans + [Chan([], Waiting, 0, [])], callers := s.callers[p := Sending(j, |s.chans|)],
                     workersCount := s.workersCount + 1)
  {
    var s1 := Next(c, s, GetCh(p));
    assert s1 == s.(callers := s.callers[p := Creating(j)], workersCount := s.workersCount + 1);
    var s2 := Next(c, s1, PoolGet(p, None));
    assert s2.callers == s.callers[p := Spawning(j, |s.chans|)] && s2.chans == s.chans + [Chan([], NoWorker, 0, [])];
    s' := Next(c, s2, Go(p));
    assert s'.chans == s.chans + [Chan([], Waiting, 0, [])];
  }

  /** Without a ready worker, but with room, Serve starts a worker, which serves the job. */
  lemma NewWorkerServes(c: Config, s: State, p: nat, j: Job)
    requires p < |s.callers| && s.callers[p] == Calling(j) && LockFree(s)
    requires s.ready == [] && s.workersCount < c.maxWorkers
    ensures var ch := |s.chans|;
      var run := [GetCh(p), PoolGet(p, None), Go(p)] + [Send(p), Receive(ch), Process(ch), PutContext(ch)];
      && Legal(c, s, run) && ServedBy(s, End(c, s, run), p, j, ch)
      && var s' := End(c, s, run); s'.ready == [] && s'.workersCount == s.workersCount + 1 && |s'.chans| == |s.chans| + 1
  {
    var ch := |s.chans|;
    var rest := [Send(p), Receive(ch), Process(ch), PutContext(ch)];
    var s3 := StartsNew(c, s, p, j);
    WorkerServes(c, s3, p, j, ch);
    ThreeThen(c, s, GetCh(p), PoolGet(p, None), Go(p), rest);
    assert s3.callers[p := Outside] == s.callers[p := Outside];
  }

  lemma ThreeThen(c: Config, s: State, a1: Action, a2: Action, a3: Action, rest: seq<Action>)
    requires Enabled(s, a1) && Enabled(Next(c, s, a1), a2) && Enabled(Next(c, Next(c, s, a1), a2), a3)
    requires Legal(c, Next(c, Next(c, Next(c, s, a1), a2), a3), rest)
    ensures Legal(c, s, [a1, a2, a3] + rest)
    ensures End(c, s, [a1, a2, a3] + rest) == End(c, Next(c, Next(c, Next(c, s, a1), a2), a3), rest)
  {
    First(c, Next(c, Next(c, s, a1), a2), a3, rest);
    First(c, Next(c, s, a1), a2, [a3] + rest);
    First(c, s, a1, [a2] + ([a3] + rest));
    assert [a1] + ([a2] + ([a3] + rest)) == [a1, a2, a3] + rest;
  }

  /** A worker that has served is ready again, last in the list and stamped now; after Stop it leaves the pool. */
  lemma ServedIsReadyAgain(c: Config, s: State, ch: nat)
    requires ch < |s.chans| && s.chans[ch].pc == Unstamped && LockFree(s)
    ensures Enabled(s, Stamp(ch)) && Enabled(Next(c, s, Stamp(ch)), Release(ch))
    ensures var s' := Next(c, Next(c, s, Stamp(ch)), Release(ch));
      && s'.chans == s.chans[ch := s.chans[ch].(pc := if s.stopper == Stopped then Exiting else Waiting, lastUse := s.clock)]
      && s'.ready == (if s.stopper == Stopped then s.ready else s.ready + [ch])
      && s'.workersCount == s.workersCount
  {
  }

  /** A worker that leaves is uncounted and its channel goes to the pool for reuse. */
  lemma LeaverIsRecycled(c: Config, s: State, ch: nat)
    requires ch < |s.chans| && s.chans[ch].pc == Exiting && LockFree(s)
    ensures Enabled(s, Decrement(ch)) && Enabled(Next(c, s, Decrement(ch)), PoolPut(ch))
    ensures var s' := Next(c, Next(c, s, Decrement(ch)), PoolPut(ch));
      && s'.workersCount == s.workersCount - 1 && s'.pool == s.pool + {ch} && s'.chans[ch].pc == NoWorker && s'.ready == s.ready
  {
  }

  // -------------------------------------------------------------------- Stop

  /** Stop holds the lock and has notified the first `next` ready workers. */
  ghost predicate Notified(s: State) {
    && s.stopper.Draining? && s.stopper.next <= |s.ready|
    && forall i :: 0 <= i < s.stopper.next ==> s.ready[i] < |s.chans| && s.chans[s.ready[i]].queue == [Quit]
  }

  lemma StopSends(c: Config, s: State)
    requires Reachable(c, s) && Notified(s) && s.stopper.next < |s.ready|
    ensures Enabled(s, StopSend) && Notified(Next(c, s, StopSend)) && Next(c, s, StopSend).ready == s.ready
  {
    SendsNeverBlock(c, s);
    var ch := s.ready[s.stopper.next];
    assert [] + [Quit] == [Quit];
    assert Next(c, s, StopSend).chans[ch].queue == [Quit];
  }

  /** The rest of Stop, from anywhere in its loop. */
  lemma {:induction false} DrainGetsThrough(c: Config, s: State) returns (run: seq<Action>)
    requires Reachable(c, s) && Notified(s)
    ensures Legal(c, s, run) && forall a :: a in run ==> a.StopSend? || a.StopUnlock?
    ensures Drained(End(c, s, run))
    ensures forall i :: 0 <= i < |s.ready| ==> s.ready[i] < |End(c, s, run).chans| && End(c, s, run).chans[s.ready[i]].queue == [Quit]
    decreases |s.ready| - s.stopper.next
  {
    if s.stopper.next == |s.ready| {
      run := [StopUnlock];
      assert run[1..] == [] && Enabled(s, StopUnlock);
      assert Legal(c, Next(c, s, StopUnlock), []);
    } else {
      StopSends(c, s);
      ReachableNext(c, s, StopSend);
      var rest := DrainGetsThrough(c, Next(c, s, StopSend));
      run := [StopSend] + rest;
      assert run[1..] == rest;
    }
  }

  /** From every reachable state Stop can get through alone: every ready worker is told to quit, and mustStop is set. */
  lemma StopGetsThrough(c: Config, s: State) returns (run: seq<Action>)
    requires Reachable(c, s) && s.stopper == NotStopped
    ensures Legal(c, s, run)
    ensures forall a :: a in run ==> a.CloseStop? || a.StopLock? || a.StopSend? || a.StopUnlock?
    ensures Drained(End(c, s, run))
    ensures forall i :: 0 <= i < |s.ready| ==> s.ready[i] < |End(c, s, run).chans| && End(c, s, run).chans[s.ready[i]].queue == [Quit]
  {
    var s1 := Next(c, s, CloseStop);
    ReachableNext(c, s, CloseStop);
    var s2 := Next(c, s1, StopLock);
    ReachableNext(c, s1, StopLock);
    var rest := DrainGetsThrough(c, s2);
    run := [CloseStop, StopLock] + rest;
    assert run[1..][1..] == rest && run[0] == CloseStop && run[1..][0] == StopLock;
    assert Legal(c, s1, run[1..]);
  }

  // ------------------------------------------------------------------- clean

  /** The idle prefix of an ordered list has exactly its idle workers. */
  lemma {:induction false} PrefixIsIdle(chans: seq<Chan>, ready: seq<nat>, now: int, maxIdle: int, ch: nat)
    requires Ordered(chans, ready)
    ensures ch in ready[..IdlePrefix(chans, ready, now, maxIdle)]
      <==> ch in ready && ch < |chans| && now - chans[ch].lastUse > maxIdle
  {
    OrderedHidesNone(chans, ready, now, maxIdle);
    SplitTakesAll(chans, ready, now, maxIdle);
    var i := IdlePrefix(chans, ready, now, maxIdle);
    if ch in ready && Idle(chans, ch, now, maxIdle) {
      var j :| 0 <= j < |ready| && ready[j] == ch;
      assert ready[..i][j] == ch;
    }
  }

  lemma {:induction false} Halves(ready: seq<nat>, i: nat)
    requires i <= |ready|
    ensures ready[..i] + ready[i..] == ready
  {
  }

  /** What a clean that reads the clock now does to the ready list. */
  ghost predicate CleansNow(c: Config, s: State, ch: nat) {
    && Enabled(s, ReadClock) && Enabled(Next(c, s, ReadClock), CleanLock)
    && var s' := Next(c, Next(c, s, ReadClock), CleanLock);
       && s'.cleaner.Notifying? && s'.cleaner.next == 0 && s'.cleaner.scratch + s'.ready == s.ready
       && (ch in s'.cleaner.scratch <==> ch in s.ready && ch < |s.chans| && s.clock - s.chans[ch].lastUse > c.maxIdle)
  }

  lemma {:induction false} CleanSplits(c: Config, s: State, ch: nat)
    requires s.cleaner == AtClean && LockFree(s) && Ordered(s.chans, s.ready)
    ensures CleansNow(c, s, ch)
  {
    var i := IdlePrefix(s.chans, s.ready, s.clock, c.maxIdle);
    PrefixIsIdle(s.chans, s.ready, s.clock, c.maxIdle, ch);
    Halves(s.ready, i);
    var s' := Next(c, Next(c, s, ReadClock), CleanLock);
    assert s'.cleaner == Notifying(s.ready[..i], 0) && s'.ready == s.ready[i..];
  }

  /**
   Where release is one step: a clean that reads the clock now stops exactly the ready workers
   whose last use is more than the limit ago, and leaves the others ready.
   */
  lemma {:induction false} CleanRound(c: Config, s0: State, run: seq<Action>, ch: nat)
    requires Initial(s0) && Legal(c, s0, run) && AtomicRun(c, s0, run)
    requires End(c, s0, run).cleaner == AtClean && LockFree(End(c, s0, run))
    ensures CleansNow(c, End(c, s0, run), ch)
  {
    assert Owned(s0) && TimeOrdered(s0);
    RunTimeOrdered(c, s0, run);
    CleanSplits(c, End(c, s0, run), ch);
  }

  /** The cleaner has told the first `next` workers of its scratch list to quit. */
  ghost predicate Told(s: State) {
    && s.cleaner.Notifying? && s.cleaner.next <= |s.cleaner.scratch|
    && forall i :: 0 <= i < s.cleaner.next ==> s.cleaner.scratch[i] < |s.chans| && s.chans[s.cleaner.scratch[i]].queue == [Quit]
  }

  lemma CleanerTells(c: Config, s: State)
    requires Reachable(c, s) && Told(s) && s.cleaner.next < |s.cleaner.scratch|
    ensures Enabled(s, Notify)
    ensures var s' := Next(c, s, Notify); Told(s') && s'.cleaner.scratch == s.cleaner.scratch && s'.stopper == s.stopper
  {
    SendsNeverBlock(c, s);
    var ch := s.cleaner.scratch[s.cleaner.next];
    assert [] + [Quit] == [Quit];
    assert Next(c, s, Notify).chans[ch].queue == [Quit];
  }

  /** The end of a round: back to the start, or out if the pool is being stopped. */
  lemma RoundEnds(c: Config, s: State)
    requires s.cleaner.Notifying? && s.cleaner.next == |s.cleaner.scratch|
    ensures var last := if s.stopper == NotStopped then SelectSleep else SelectStop;
      && Legal(c, s, [CleanDone, last])
      && End(c, s, [CleanDone, last]) == s.(cleaner := if s.stopper == NotStopped then AtClean else Finished)
  {
    var last := if s.stopper == NotStopped then SelectSleep else SelectStop;
    var s1 := Next(c, s, CleanDone);
    assert [last] + [] == [last] && [CleanDone] + [last] == [CleanDone, last];
    First(c, s1, last, []);
    First(c, s, CleanDone, [last]);
  }

  /**
   From every reachable state the cleaner gets through its round alone: every worker it took out is
   told to quit, and it starts again, or ends if the pool is being stopped.
   */
  lemma {:induction false} CleanerGetsThrough(c: Config, s: State) returns (run: seq<Action>)
    requires Reachable(c, s) && Told(s)
    ensures Legal(c, s, run)
    ensures forall a :: a in run ==> a.Notify? || a.CleanDone? || a.SelectSleep? || a.SelectStop?
    ensures End(c, s, run).cleaner == if s.stopper == NotStopped then AtClean else Finished
    ensures forall i :: 0 <= i < |s.cleaner.scratch| ==>
      s.cleaner.scratch[i] < |End(c, s, run).chans| && End(c, s, run).chans[s.cleaner.scratch[i]].queue == [Quit]
    decreases |s.cleaner.scratch| - s.cleaner.next
  {
    if s.cleaner.next == |s.cleaner.scratch| {
      RoundEnds(c, s);
      run := [CleanDone, if s.stopper == NotStopped then SelectSleep else SelectStop];
    } else {
      CleanerTells(c, s);
      ReachableNext(c, s, Notify);
      var rest := CleanerGetsThrough(c, Next(c, s, Notify));
      run := [Notify] + rest;
      First(c, s, Notify, rest);
    }
  }
}
