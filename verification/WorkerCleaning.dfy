/**
 The ready list in storage: taking from its end, appending, the cleaner's in-place split
 and Stop's drain; and when the cleaner stops exactly the workers that idled too long.
 */
module WorkerCleaning {
  import opened Options
  import opened WorkerPool
  import opened WorkerOwnership
  import opened WorkerShutdown

  /** The lock-protected fields of the pool. */
  class Pool {
    const maxWorkersCount: nat
    var workersCount: int
    var mustStop: bool
    /** Backing storage of the ready slice; None is nil. */
    var slots: array<Option<nat>>
    var len: nat

    /** The slice holds no nil, and nothing stale lies beyond its end. */
    ghost predicate Valid()
      reads this, slots
    {
      && len <= slots.Length
      && (forall i :: 0 <= i < len ==> slots[i].Some?)
      && (forall i :: len <= i < slots.Length ==> slots[i] == None)
    }

    ghost function Ready(): seq<nat>
      requires Valid()
      reads this, slots
    {
      seq(len, i requires 0 <= i < len reads this, slots requires Valid() => slots[i].value)
    }

    constructor (max: nat)
      ensures Valid() && Ready() == [] && workersCount == 0 && !mustStop && maxWorkersCount == max
      ensures fresh(slots)
    {
      maxWorkersCount, workersCount, mustStop, len := max, 0, false, 0;
      slots := new Option<nat>[0];
    }

    /** The lock hold of getCh: the most recently released worker, or leave to create one. */
    method GetCh() returns (ch: Option<nat>, createWorker: bool)
      requires Valid()
      modifies this, slots
      ensures Valid() && slots == old(slots) && mustStop == old(mustStop)
      ensures old(|Ready()|) > 0 ==>
        && ch == Some(old(Ready())[old(|Ready()|) - 1]) && !createWorker
        && Ready() == old(Ready())[..old(|Ready()|) - 1] && workersCount == old(workersCount)
      ensures old(|Ready()|) == 0 ==>
        && ch == None && Ready() == []
        && (createWorker <==> old(workersCount) < maxWorkersCount)
        && workersCount == old(workersCount) + (if createWorker then 1 else 0)
    {
      ch, createWorker := None, false;
      if len == 0 {
        if workersCount < maxWorkersCount {
          createWorker := true;
          workersCount := workersCount + 1;
        }
      } else {
        var n := len - 1;
        ch := slots[n];
        slots[n] := None;
        len := n;
      }
    }

    /** The lock hold of release. */
    method Release(ch: nat) returns (ok: bool)
      requires Valid()
      modifies this, slots
      ensures Valid() && mustStop == old(mustStop) && workersCount == old(workersCount)
      ensures ok <==> !mustStop
      ensures Ready() == if ok then old(Ready()) + [ch] else old(Ready())
      ensures slots == old(slots) || fresh(slots)
    {
      if mustStop {
        return false;
      }
      if len == slots.Length {
        var bigger := new Option<nat>[2 * len + 1](_ => None);
        forall i | 0 <= i < len {
          bigger[i] := slots[i];
        }
        slots := bigger;
      }
      slots[len] := Some(ch);
      len := len + 1;
      ok := true;
    }

    /** The length of the prefix of workers idle too long. */
    method CountIdle(chans: seq<Chan>, now: int, maxIdle: int) returns (i: nat)
      requires Valid()
      ensures i <= len && i == IdlePrefix(chans, Ready(), now, maxIdle)
    {
      i := 0;
      while i < len && Idle(chans, slots[i].value, now, maxIdle)
        invariant 0 <= i <= len
        invariant forall j :: 0 <= j < i ==> Idle(chans, Ready()[j], now, maxIdle)
      {
        i := i + 1;
      }
      IdlePrefixIs(chans, Ready(), now, maxIdle, i);
    }

    /** The lock hold of clean: the idle prefix moves to scratch, the rest shifts down, the tail is nilled. */
    method Clean(chans: seq<Chan>, now: int, maxIdle: int) returns (scratch: seq<nat>)
      requires Valid()
      modifies this, slots
      ensures Valid() && slots == old(slots) && mustStop == old(mustStop) && workersCount == old(workersCount)
      ensures scratch == old(Ready())[..IdlePrefix(chans, old(Ready()), now, maxIdle)]
      ensures Ready() == old(Ready())[IdlePrefix(chans, old(Ready()), now, maxIdle)..]
    {
      ghost var before := Ready();
      var n := len;
      var i := CountIdle(chans, now, maxIdle);
      scratch := seq(i, k requires 0 <= k < i && Valid() && i <= len reads this, slots => slots[k].value);
      if i > 0 {
        var m := n - i;
        ShiftDown(i, n);
        NilTail(m, n);
        len := m;
      }
      assert Ready() == before[i..];
    }

    /** Nils the slots from m to n. */
    method NilTail(m: nat, n: nat)
      requires m <= n <= slots.Length
      modifies slots
      ensures forall j :: 0 <= j < slots.Length ==> slots[j] == if m <= j < n then None else old(slots[j])
    {
      var k := m;
      while k < n
        modifies slots
        invariant m <= k <= n
        invariant forall j :: 0 <= j < slots.Length ==> slots[j] == if m <= j < k then None else old(slots[j])
      {
        slots[k] := None;
        k := k + 1;
      }
    }

    /** Go's copy(ready, ready[i:n]). */
    method ShiftDown(i: nat, n: nat)
      requires i <= n <= slots.Length
      modifies slots
      ensures forall j :: 0 <= j < n - i ==> slots[j] == old(slots[i + j])
      ensures forall j :: n - i <= j < slots.Length ==> slots[j] == old(slots[j])
    {
      forall j | 0 <= j < n - i {
        slots[j] := slots[i + j];
      }
    }

    /** The lock hold of Stop; returns the workers it sent nil to, in order. */
    method Stop() returns (notified: seq<nat>)
      requires Valid()
      modifies this, slots
      ensures Valid() && mustStop && Ready() == [] && notified == old(Ready())
      ensures slots == old(slots) && workersCount == old(workersCount)
    {
      ghost var before := Ready();
      notified := [];
      var i := 0;
      while i < len
        modifies slots
        invariant 0 <= i <= len == old(len) && slots == old(slots) && notified == before[..i]
        invariant forall j :: 0 <= j < i ==> slots[j] == None
        invariant forall j :: i <= j < len ==> slots[j] == Some(before[j])
        invariant forall j :: len <= j < slots.Length ==> slots[j] == None
      {
        notified := notified + [slots[i].value];
        slots[i] := None;
        i := i + 1;
      }
      len := 0;
      mustStop := true;
    }
  }

  lemma {:induction false} IdlePrefixIs(chans: seq<Chan>, ready: seq<nat>, now: int, maxIdle: int, i: nat)
    requires i <= |ready|
    requires forall j :: 0 <= j < i ==> Idle(chans, ready[j], now, maxIdle)
    requires i < |ready| ==> !Idle(chans, ready[i], now, maxIdle)
    ensures i == IdlePrefix(chans, ready, now, maxIdle)
  {
    if i > 0 {
      IdlePrefixIs(chans, ready[1..], now, maxIdle, i - 1);
    }
  }

  // --------------------------------------------------------- what clean stops

  /** Some worker idled too long but stands behind one that has not. */
  predicate Hidden(chans: seq<Chan>, ready: seq<nat>, now: int, maxIdle: int) {
    exists i, j :: 0 <= i < j < |ready| && !Idle(chans, ready[i], now, maxIdle) && Idle(chans, ready[j], now, maxIdle)
  }

  /** The split takes every over-idle worker, exactly if none is hidden behind a fresher one. */
  lemma SplitTakesAll(chans: seq<Chan>, ready: seq<nat>, now: int, maxIdle: int)
    ensures (forall j :: 0 <= j < |ready| && Idle(chans, ready[j], now, maxIdle) ==> j < IdlePrefix(chans, ready, now, maxIdle))
      <==> !Hidden(chans, ready, now, maxIdle)
  {
    var i := IdlePrefix(chans, ready, now, maxIdle);
    if j :| i <= j < |ready| && Idle(chans, ready[j], now, maxIdle) {
      assert i < j && !Idle(chans, ready[i], now, maxIdle);
    }
  }

  /** Oldest first. */
  ghost predicate Ordered(chans: seq<Chan>, ready: seq<nat>) {
    && (forall i :: 0 <= i < |ready| ==> ready[i] < |chans|)
    && (forall i, j :: 0 <= i < j < |ready| ==> chans[ready[i]].lastUse <= chans[ready[j]].lastUse)
  }

  lemma OrderedHidesNone(chans: seq<Chan>, ready: seq<nat>, now: int, maxIdle: int)
    requires Ordered(chans, ready)
    ensures !Hidden(chans, ready, now, maxIdle)
  {
  }

  /** The action respects a release whose clock read and append are one step. */
  ghost predicate AtomicRelease(s: State, a: Action) {
    forall ch: nat :: ch < |s.chans| && s.chans[ch].pc == Stamped ==> a == Release(ch)
  }

  ghost predicate AtomicRun(c: Config, s: State, run: seq<Action>)
    requires Legal(c, s, run)
    decreases |run|
  {
    run == [] || (AtomicRelease(s, run[0]) && AtomicRun(c, Next(c, s, run[0]), run[1..]))
  }

  ghost predicate TimeOrdered(s: State) {
    && (forall ch :: 0 <= ch < |s.chans| && s.chans[ch].pc == Stamped ==> s.chans[ch].lastUse == s.clock)
    && (!s.stopper.Draining? ==>
          && Ordered(s.chans, s.ready)
          && forall i :: 0 <= i < |s.ready| ==> s.chans[s.ready[i]].lastUse <= s.clock)
  }

  /** A stamp does not touch a ready worker's time. */
  lemma StampTimeOrdered(c: Config, s: State, ch: nat)
    requires Owned(s) && TimeOrdered(s) && Enabled(s, Stamp(ch))
    ensures TimeOrdered(Next(c, s, Stamp(ch)))
  {
    HolderOf(s, ch, HeldByWorker);
    if !s.stopper.Draining? {
      forall i | 0 <= i < |s.ready| ensures s.ready[i] != ch {
        assert !Holds(s, ch, InReady(i));
      }
    }
  }

  lemma ReleaseTimeOrdered(c: Config, s: State, ch: nat)
    requires TimeOrdered(s) && Enabled(s, Release(ch)) && AtomicRelease(s, Release(ch))
    ensures TimeOrdered(Next(c, s, Release(ch)))
  {
  }

  lemma CleanTimeOrdered(c: Config, s: State)
    requires TimeOrdered(s) && Enabled(s, CleanLock) && AtomicRelease(s, CleanLock)
    ensures TimeOrdered(Next(c, s, CleanLock))
  {
  }

  /** A step that neither stamps nor fills the ready list keeps it in order. */
  lemma OrderKept(s: State, s': State)
    requires TimeOrdered(s) && |s.chans| <= |s'.chans|
    requires forall ch :: 0 <= ch < |s.chans| ==> s'.chans[ch].lastUse == s.chans[ch].lastUse
    requires forall ch :: 0 <= ch < |s'.chans| ==> s'.chans[ch].pc != Stamped
    requires s'.ready <= s.ready && s.clock <= s'.clock
    requires s.stopper.Draining? ==> s'.stopper.Draining? || s'.ready == []
    ensures TimeOrdered(s')
  {
  }

  /** Actions of callers. */
  lemma CallerTimeOrdered(c: Config, s: State, a: Action)
    requires TimeOrdered(s) && Enabled(s, a) && AtomicRelease(s, a)
    requires OfCaller(a)
    ensures TimeOrdered(Next(c, s, a))
  {
    OrderKept(s, Next(c, s, a));
  }

  /** Actions of workers outside release. */
  lemma WorkerTimeOrdered(c: Config, s: State, a: Action)
    requires TimeOrdered(s) && Enabled(s, a) && AtomicRelease(s, a)
    requires OfWorker(a) && !a.Stamp? && !a.Release?
    ensures TimeOrdered(Next(c, s, a))
  {
    OrderKept(s, Next(c, s, a));
  }

  /** Actions of the cleaner outside the lock, of Stop, and of the clock. */
  lemma OtherTimeOrdered(c: Config, s: State, a: Action)
    requires TimeOrdered(s) && Enabled(s, a) && AtomicRelease(s, a)
    requires a.ReadClock? || a.Notify? || a.CleanDone? || a.SelectSleep? || a.SelectStop?
          || a.CloseStop? || a.StopLock? || a.StopSend? || a.StopUnlock? || a.Tick?
    ensures TimeOrdered(Next(c, s, a))
  {
    OrderKept(s, Next(c, s, a));
  }

  lemma NextTimeOrdered(c: Config, s: State, a: Action)
    requires Owned(s) && TimeOrdered(s) && Enabled(s, a) && AtomicRelease(s, a)
    ensures TimeOrdered(Next(c, s, a))
  {
    if a.Stamp? { StampTimeOrdered(c, s, a.ch); }
    else if a.Release? { ReleaseTimeOrdered(c, s, a.ch); }
    else if a.CleanLock? { CleanTimeOrdered(c, s); }
    else if OfCaller(a) { CallerTimeOrdered(c, s, a); }
    else if OfWorker(a) { WorkerTimeOrdered(c, s, a); }
    else { OtherTimeOrdered(c, s, a); }
  }

  lemma {:induction false} RunTimeOrdered(c: Config, s: State, run: seq<Action>)
    requires Owned(s) && TimeOrdered(s) && Legal(c, s, run) && AtomicRun(c, s, run)
    ensures TimeOrdered(End(c, s, run)) && Owned(End(c, s, run))
    decreases |run|
  {
    if run != [] {
      NextOwned(c, s, run[0]);
      NextTimeOrdered(c, s, run[0]);
      RunTimeOrdered(c, Next(c, s, run[0]), run[1..]);
    }
  }

  /** Where release is one step, a clean stops exactly the workers that idled too long. */
  lemma CleanStopsExactlyIdle(c: Config, s0: State, run: seq<Action>, ch: nat)
    requires Initial(s0) && Legal(c, s0, run) && AtomicRun(c, s0, run)
    requires Enabled(End(c, s0, run), CleanLock)
    ensures var s := End(c, s0, run); var s' := Next(c, s, CleanLock);
      ch in s'.cleaner.scratch <==> ch in s.ready && Idle(s.chans, ch, s.cleaner.now, c.maxIdle)
  {
    var s := End(c, s0, run);
    assert Owned(s0) && TimeOrdered(s0);
    RunTimeOrdered(c, s0, run);
    OrderedHidesNone(s.chans, s.ready, s.cleaner.now, c.maxIdle);
    SplitTakesAll(s.chans, s.ready, s.cleaner.now, c.maxIdle);
  }

  // Where release is two steps, the order can be reversed: the worker that stamps first is
  // overtaken before it reaches the lock. The rest of the module reaches such a state.

  lemma Take(c: Config, s: State, a: Action) returns (s': State)
    requires Reachable(c, s) && Enabled(s, a)
    ensures s' == Next(c, s, a) && Reachable(c, s')
  {
    s' := Next(c, s, a);
    ReachableNext(c, s, a);
  }

  /** The parts of a state that starting and running a worker leave alone. */
  predicate SameElsewhere(s: State, s': State) {
    s'.ready == s.ready && s'.stopper == s.stopper && s'.cleaner == s.cleaner && s'.clock == s.clock
  }

  /** A caller counts a new worker and gets a new channel for it. */
  lemma CreateWorker(c: Config, s: State, job: Job) returns (s': State)
    requires Reachable(c, s) && s.callers == [Outside] && job !in s.issued
    requires s.ready == [] && s.workersCount < c.maxWorkers && s.stopper == NotStopped
    ensures Reachable(c, s') && SameElsewhere(s, s')
    ensures s'.chans == s.chans + [Chan([], NoWorker, 0, [])] && s'.callers == [Spawning(job, |s.chans|)]
    ensures s'.workersCount == s.workersCount + 1 && s'.issued == s.issued + {job}
  {
    s' := Take(c, s, Serve(0, job));
    assert s'.callers == [Calling(job)];
    s' := Take(c, s', GetCh(0));
    assert s'.callers == [Creating(job)];
    s' := Take(c, s', PoolGet(0, None));
  }

  /** The worker is started and handed its job. */
  lemma StartWorker(c: Config, s: State, job: Job, ch: nat) returns (s': State)
    requires Reachable(c, s) && s.callers == [Spawning(job, ch)] && ch < |s.chans| && s.chans[ch].queue == []
    ensures Reachable(c, s') && SameElsewhere(s, s') && s'.callers == [Outside]
    ensures s'.chans == s.chans[ch := s.chans[ch].(queue := [Work(job)], pc := Waiting, inbox := [])]
    ensures s'.workersCount == s.workersCount && s'.issued == s.issued
  {
    s' := Take(c, s, Go(0));
    assert s'.callers == [Sending(job, ch)] && s'.chans == s.chans[ch := s.chans[ch].(pc := Waiting, inbox := [])];
    s' := Take(c, s', Send(0));
    assert [] + [Work(job)] == [Work(job)];
    assert s'.chans[ch].queue == [Work(job)];
  }

  /** A worker does its job and gives the context back. */
  lemma FinishJob(c: Config, s: State, ch: nat, job: Job) returns (s': State)
    requires Reachable(c, s) && ch < |s.chans| && s.chans[ch].pc == Waiting && s.chans[ch].queue == [Work(job)]
    ensures Reachable(c, s') && SameElsewhere(s, s') && s'.callers == s.callers
    ensures s'.chans == s.chans[ch := Chan([], Unstamped, s.chans[ch].lastUse, s.chans[ch].inbox + [Work(job)])]
    ensures s'.workersCount == s.workersCount && s'.issued == s.issued
  {
    assert [Work(job)][1..] == [];
    var x := Chan([], Busy(job), s.chans[ch].lastUse, s.chans[ch].inbox + [Work(job)]);
    s' := Take(c, s, Receive(ch));
    assert s'.chans == s.chans[ch := x];
    s' := Take(c, s', Process(ch));
    assert s'.chans == s.chans[ch := x.(pc := Served(job))];
    s' := Take(c, s', PutContext(ch));
    assert s'.chans == s.chans[ch := x.(pc := Unstamped)];
  }

  /** One worker through a whole job, up to its release. */
  lemma ServeOne(c: Config, s: State, job: Job) returns (s': State)
    requires Reachable(c, s) && s.callers == [Outside] && job !in s.issued
    requires s.ready == [] && s.workersCount < c.maxWorkers && s.stopper == NotStopped
    ensures Reachable(c, s') && SameElsewhere(s, s') && s'.callers == [Outside]
    ensures s'.chans == s.chans + [Chan([], Unstamped, 0, [Work(job)])]
    ensures s'.workersCount == s.workersCount + 1 && s'.issued == s.issued + {job}
  {
    var ch := |s.chans|;
    s' := CreateWorker(c, s, job);
    s' := StartWorker(c, s', job, ch);
    s' := FinishJob(c, s', ch, job);
    assert [] + [Work(job)] == [Work(job)];
    assert s'.chans == s.chans + [Chan([], Unstamped, 0, [Work(job)])];
  }

  /** Worker `a` stamps; time passes. */
  lemma StampThenWait(c: Config, s: State, a: nat, d: nat) returns (s': State)
    requires Reachable(c, s) && a < |s.chans| && s.chans[a].pc == Unstamped
    ensures Reachable(c, s') && s' == s.(chans := s.chans[a := s.chans[a].(pc := Stamped, lastUse := s.clock)], clock := s.clock + d)
  {
    s' := Take(c, s, Stamp(a));
    s' := Take(c, s', Tick(d));
  }

  /** A stamped worker enters the ready list. */
  lemma EnterReady(c: Config, s: State, a: nat) returns (s': State)
    requires Reachable(c, s) && a < |s.chans| && s.chans[a].pc == Stamped && s.stopper == NotStopped
    ensures Reachable(c, s') && s' == s.(chans := s.chans[a := s.chans[a].(pc := Waiting)], ready := s.ready + [a])
  {
    s' := Take(c, s, Release(a));
  }

  /** Two workers, both about to release. */
  lemma TwoServed(c: Config) returns (s: State)
    requires c.maxWorkers >= 2
    ensures Reachable(c, s) && |s.chans| == 2 && s.chans[0].pc == Unstamped && s.chans[1].pc == Unstamped
    ensures s.ready == [] && s.stopper == NotStopped && s.cleaner == AtClean
  {
    var s0 := State([], [], 0, {}, [Outside], AtClean, NotStopped, 0, {}, {}, {}, [], []);
    assert Initial(s0) && Legal(c, s0, []) && End(c, s0, []) == s0;
    s := ServeOne(c, s0, 1);
    s := ServeOne(c, s, 2);
  }

  /** The first to stamp is the last to enter. */
  lemma Overtaken(c: Config, s: State, d: nat) returns (s': State)
    requires Reachable(c, s) && |s.chans| == 2 && s.chans[0].pc == Unstamped && s.chans[1].pc == Unstamped
    requires s.ready == [] && s.stopper == NotStopped && s.cleaner == AtClean
    ensures Reachable(c, s') && |s'.chans| == 2 && s'.ready == [1, 0]
    ensures s'.stopper == NotStopped && s'.cleaner == AtClean && s'.clock == s.clock + d
    ensures s'.chans[0].lastUse == s.clock && s'.chans[1].lastUse == s.clock + d
  {
    s' := StampThenWait(c, s, 0, d);
    s' := StampThenWait(c, s', 1, 0);
    s' := EnterReady(c, s', 1);
    s' := EnterReady(c, s', 0);
    assert [] + [1] + [0] == [1, 0];
  }

  /** With two workers allowed, a clean can leave a worker that idled too long in the ready list. */
  lemma CleanCanMissIdle(c: Config) returns (s: State)
    requires c.maxWorkers >= 2 && c.maxIdle >= 0
    ensures Reachable(c, s) && Enabled(s, CleanLock)
    ensures Hidden(s.chans, s.ready, s.cleaner.now, c.maxIdle)
  {
    s := TwoServed(c);
    s := Overtaken(c, s, c.maxIdle + 1);
    s := Take(c, s, ReadClock);
    assert !Idle(s.chans, s.ready[0], s.cleaner.now, c.maxIdle);
    assert Idle(s.chans, s.ready[1], s.cleaner.now, c.maxIdle);
  }
}
