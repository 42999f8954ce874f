/**
 The worker pool as a concurrent protocol. Every lock-protected block, every channel send
 and receive, every clock read and every use of the channel pool is one action; a run is
 any interleaving of the actions of callers, workers, the cleaner and Stop.

 Channels have one slot, as they do with more than one processor.
 */
module WorkerPool {
  import opened Options

  /** One call of Serve: a context on its way through the pool. */
  type Job = nat

  /** What travels on a worker's channel: a context, or the nil that ends the worker. */
  datatype Message = Work(job: Job) | Quit

  /** Where a worker's goroutine stands. */
  datatype Pc =
    | NoWorker            // the channel has no goroutine
    | Waiting             // at the receive
    | Busy(job: Job)      // in WorkerFunc
    | Served(job: Job)    // before putContext
    | Unstamped           // before the clock read in release
    | Stamped             // before the lock in release
    | Exiting             // before the workersCount decrement
    | Retiring            // before the channel goes back to the pool

  /** A worker channel. `inbox` is everything the present worker has received. */
  datatype Chan = Chan(queue: seq<Message>, pc: Pc, lastUse: int, inbox: seq<Message>)

  /** Where a caller of Serve stands. */
  datatype Caller =
    | Outside
    | Calling(job: Job)            // before the lock in getCh
    | Creating(job: Job)           // counted a new worker, has no channel yet
    | Spawning(job: Job, ch: nat)  // has a channel, before the go statement
    | Sending(job: Job, ch: nat)   // before the send

  datatype Cleaner =
    | AtClean
    | Timed(now: int)
    | Notifying(scratch: seq<nat>, next: nat)
    | AtSelect
    | Finished

  datatype Stopper =
    | NotStopped
    | Closing                // stopCh closed, before the lock
    | Draining(next: nat)    // holds the lock
    | Stopped                // mustStop

  datatype State = State(
    chans: seq<Chan>,
    ready: seq<nat>,
    workersCount: int,
    pool: set<nat>,
    callers: seq<Caller>,
    cleaner: Cleaner,
    stopper: Stopper,
    clock: int,
    // history
    issued: set<Job>,
    rejected: set<Job>,
    accepted: set<Job>,
    processed: seq<Job>,
    returned: seq<Job>)

  datatype Config = Config(maxWorkers: nat, maxIdle: int)

  datatype Action =
    | Serve(p: nat, job: Job)
    | GetCh(p: nat)
    | PoolGet(p: nat, recycled: Option<nat>)
    | Go(p: nat)
    | Send(p: nat)
    | Receive(ch: nat)
    | Process(ch: nat)
    | PutContext(ch: nat)
    | Stamp(ch: nat)
    | Release(ch: nat)
    | Decrement(ch: nat)
    | PoolPut(ch: nat)
    | ReadClock
    | CleanLock
    | Notify
    | CleanDone
    | SelectSleep
    | SelectStop
    | CloseStop
    | StopLock
    | StopSend
    | StopUnlock
    | Tick(d: nat)

  /** Actions inside a call of Serve. */
  predicate OfCaller(a: Action) {
    a.Serve? || a.GetCh? || a.PoolGet? || a.Go? || a.Send?
  }

  /** Actions of one worker on its own channel. */
  predicate OfWorker(a: Action) {
    a.Receive? || a.Process? || a.PutContext? || a.Stamp? || a.Release? || a.Decrement? || a.PoolPut?
  }

  // ---------------------------------------------------------------- clean

  predicate Idle(chans: seq<Chan>, ch: nat, now: int, maxIdle: int) {
    ch < |chans| && now - chans[ch].lastUse > maxIdle
  }

  /** The length of the longest prefix of `ready` whose workers have been idle too long. */
  function IdlePrefix(chans: seq<Chan>, ready: seq<nat>, now: int, maxIdle: int): (i: nat)
    ensures i <= |ready|
    ensures forall j :: 0 <= j < i ==> Idle(chans, ready[j], now, maxIdle)
    ensures i < |ready| ==> !Idle(chans, ready[i], now, maxIdle)
  {
    if ready == [] || !Idle(chans, ready[0], now, maxIdle) then 0
    else 1 + IdlePrefix(chans, ready[1..], now, maxIdle)
  }

  // ---------------------------------------------------------------- actions

  predicate LockFree(s: State) { !s.stopper.Draining? }

  predicate Room(s: State, ch: nat) {
    ch < |s.chans| && s.chans[ch].queue == []
  }

  predicate Enabled(s: State, a: Action) {
    match a
    case Serve(p, job) => p < |s.callers| && s.callers[p] == Outside && job !in s.issued
    case GetCh(p) => p < |s.callers| && s.callers[p].Calling? && LockFree(s)
    case PoolGet(p, recycled) =>
      p < |s.callers| && s.callers[p].Creating? && (recycled.Some? ==> recycled.value in s.pool)
    case Go(p) => p < |s.callers| && s.callers[p].Spawning? && s.callers[p].ch < |s.chans|
    case Send(p) => p < |s.callers| && s.callers[p].Sending? && Room(s, s.callers[p].ch)
    case Receive(ch) => ch < |s.chans| && s.chans[ch].pc == Waiting && s.chans[ch].queue != []
    case Process(ch) => ch < |s.chans| && s.chans[ch].pc.Busy?
    case PutContext(ch) => ch < |s.chans| && s.chans[ch].pc.Served?
    case Stamp(ch) => ch < |s.chans| && s.chans[ch].pc == Unstamped
    case Release(ch) => ch < |s.chans| && s.chans[ch].pc == Stamped && LockFree(s)
    case Decrement(ch) => ch < |s.chans| && s.chans[ch].pc == Exiting && LockFree(s)
    case PoolPut(ch) => ch < |s.chans| && s.chans[ch].pc == Retiring
    case ReadClock => s.cleaner == AtClean
    case CleanLock => s.cleaner.Timed? && LockFree(s)
    case Notify =>
      s.cleaner.Notifying? && s.cleaner.next < |s.cleaner.scratch| && Room(s, s.cleaner.scratch[s.cleaner.next])
    case CleanDone => s.cleaner.Notifying? && s.cleaner.next == |s.cleaner.scratch|
    case SelectSleep => s.cleaner == AtSelect && s.stopper == NotStopped
    case SelectStop => s.cleaner == AtSelect && s.stopper != NotStopped
    case CloseStop => s.stopper == NotStopped
    case StopLock => s.stopper == Closing
    case StopSend => s.stopper.Draining? && s.stopper.next < |s.ready| && Room(s, s.ready[s.stopper.next])
    case StopUnlock => s.stopper.Draining? && s.stopper.next == |s.ready|
    case Tick(_) => true
  }

  function SetCaller(s: State, p: nat, c: Caller): State
    requires p < |s.callers|
  {
    s.(callers := s.callers[p := c])
  }

  function SetPc(s: State, ch: nat, pc: Pc): State
    requires ch < |s.chans|
  {
    s.(chans := s.chans[ch := s.chans[ch].(pc := pc)])
  }

  function Push(s: State, ch: nat, m: Message): State
    requires ch < |s.chans|
  {
    s.(chans := s.chans[ch := s.chans[ch].(queue := s.chans[ch].queue + [m])])
  }

  function Next(c: Config, s: State, a: Action): State
    requires Enabled(s, a)
  {
    match a
    case Serve(p, job) => SetCaller(s, p, Calling(job)).(issued := s.issued + {job})
    case GetCh(p) =>
      var job := s.callers[p].job;
      if |s.ready| > 0 then
        SetCaller(s, p, Sending(job, s.ready[|s.ready| - 1])).(ready := s.ready[..|s.ready| - 1])
      else if s.workersCount < c.maxWorkers then
        SetCaller(s, p, Creating(job)).(workersCount := s.workersCount + 1)
      else
        SetCaller(s, p, Outside).(rejected := s.rejected + {job})
    case PoolGet(p, recycled) =>
      var job := s.callers[p].job;
      (match recycled
       case Some(ch) => SetCaller(s, p, Spawning(job, ch)).(pool := s.pool - {ch})
       case None => SetCaller(s, p, Spawning(job, |s.chans|)).(chans := s.chans + [Chan([], NoWorker, 0, [])]))
    case Go(p) =>
      var ch := s.callers[p].ch;
      SetCaller(s, p, Sending(s.callers[p].job, ch)).(chans := s.chans[ch := s.chans[ch].(pc := Waiting, inbox := [])])
    case Send(p) =>
      var job := s.callers[p].job;
      SetCaller(Push(s, s.callers[p].ch, Work(job)), p, Outside).(accepted := s.accepted + {job})
    case Receive(ch) =>
      var m := s.chans[ch].queue[0];
      s.(chans := s.chans[ch := s.chans[ch].(queue := s.chans[ch].queue[1..], inbox := s.chans[ch].inbox + [m],
                                             pc := if m.Quit? then Exiting else Busy(m.job))])
    case Process(ch) => SetPc(s, ch, Served(s.chans[ch].pc.job)).(processed := s.processed + [s.chans[ch].pc.job])
    case PutContext(ch) => SetPc(s, ch, Unstamped).(returned := s.returned + [s.chans[ch].pc.job])
    case Stamp(ch) => s.(chans := s.chans[ch := s.chans[ch].(pc := Stamped, lastUse := s.clock)])
    case Release(ch) =>
      if s.stopper == Stopped then SetPc(s, ch, Exiting)
      else SetPc(s, ch, Waiting).(ready := s.ready + [ch])
    case Decrement(ch) => SetPc(s, ch, Retiring).(workersCount := s.workersCount - 1)
    case PoolPut(ch) => SetPc(s, ch, NoWorker).(pool := s.pool + {ch})
    case ReadClock => s.(cleaner := Timed(s.clock))
    case CleanLock =>
      var i := IdlePrefix(s.chans, s.ready, s.cleaner.now, c.maxIdle);
      s.(cleaner := Notifying(s.ready[..i], 0), ready := s.ready[i..])
    case Notify => Push(s, s.cleaner.scratch[s.cleaner.next], Quit).(cleaner := s.cleaner.(next := s.cleaner.next + 1))
    case CleanDone => s.(cleaner := AtSelect)
    case SelectSleep => s.(cleaner := AtClean)
    case SelectStop => s.(cleaner := Finished)
    case CloseStop => s.(stopper := Closing)
    case StopLock => s.(stopper := Draining(0))
    case StopSend => Push(s, s.ready[s.stopper.next], Quit).(stopper := Draining(s.stopper.next + 1))
    case StopUnlock => s.(stopper := Stopped, ready := [])
    case Tick(d) => s.(clock := s.clock + d)
  }

  predicate Initial(s: State) {
    && s.chans == [] && s.ready == [] && s.workersCount == 0 && s.pool == {}
    && (forall p :: 0 <= p < |s.callers| ==> s.callers[p] == Outside)
    && s.cleaner == AtClean && s.stopper == NotStopped
    && s.issued == {} && s.rejected == {} && s.accepted == {} && s.processed == [] && s.returned == []
  }

  /** Every action of the run is enabled where it happens. */
  predicate Legal(c: Config, s: State, run: seq<Action>)
    decreases |run|
  {
    run == [] || (Enabled(s, run[0]) && Legal(c, Next(c, s, run[0]), run[1..]))
  }

  function End(c: Config, s: State, run: seq<Action>): State
    requires Legal(c, s, run)
    decreases |run|
  {
    if run == [] then s else End(c, Next(c, s, run[0]), run[1..])
  }

  /** The states of all runs. */
  ghost predicate Reachable(c: Config, s: State) {
    exists s0, run :: Initial(s0) && Legal(c, s0, run) && End(c, s0, run) == s
  }
}
