/**
 Exactly-once delivery: in every interleaving, around Stop and the cleaner too, each job
 is in exactly one place, and a worker that was told to quit receives nothing more.
 */
module WorkerDelivery {
  import opened WorkerPool
  import opened WorkerOwnership

  /** Where a job can be. */
  datatype Place =
    | WithCaller(p: nat)
    | OnChannel(ch: nat, i: nat)
    | AtWorker(ch: nat)
    | GivenBack(i: nat)
    | Refused

  predicate JobAt(s: State, j: Job, at: Place) {
    match at
    case WithCaller(p) => p < |s.callers| && !s.callers[p].Outside? && s.callers[p].job == j
    case OnChannel(ch, i) => ch < |s.chans| && i < |s.chans[ch].queue| && s.chans[ch].queue[i] == Work(j)
    case AtWorker(ch) => ch < |s.chans| && (s.chans[ch].pc == Busy(j) || s.chans[ch].pc == Served(j))
    case GivenBack(i) => i < |s.returned| && s.returned[i] == j
    case Refused => j in s.rejected
  }

  /** Serve has returned true for a job in this place. */
  predicate Taken(at: Place) { at.OnChannel? || at.AtWorker? || at.GivenBack? }

  /** WorkerFunc has run for a job in this place. */
  predicate Through(s: State, at: Place) {
    at.GivenBack? || (at.AtWorker? && at.ch < |s.chans| && s.chans[at.ch].pc.Served?)
  }

  /** The job is here, its history says so, and it is nowhere else. */
  ghost predicate OnlyAt(s: State, j: Job, at: Place) {
    && JobAt(s, j, at)
    && (forall other :: JobAt(s, j, other) ==> other == at)
    && (j in s.accepted <==> Taken(at))
    && (j in s.processed <==> Through(s, at))
  }

  ghost predicate Placed(s: State, j: Job) {
    exists at :: OnlyAt(s, j, at)
  }

  ghost predicate NoDuplicates(js: seq<Job>) {
    forall i, k :: 0 <= i < k < |js| ==> js[i] != js[k]
  }

  ghost predicate Tracked(s: State) {
    && (forall j: Job, at :: JobAt(s, j, at) ==> j in s.issued)
    && (forall j: Job :: j in s.issued ==> Placed(s, j))
    && (forall j: Job :: j in s.accepted || j in s.processed ==> j in s.issued)
    && NoDuplicates(s.processed)
  }

  /** Nothing about job `j` differs between the two states. */
  ghost predicate SamePlaces(s: State, s': State, j: Job) {
    && (forall at :: JobAt(s', j, at) <==> JobAt(s, j, at))
    && (forall at :: JobAt(s, j, at) ==> (Through(s', at) <==> Through(s, at)))
    && (j in s'.accepted <==> j in s.accepted) && (j in s'.processed <==> j in s.processed)
    && (j in s'.issued <==> j in s.issued)
  }

  lemma PlaceOf(s: State, j: Job, at: Place)
    requires Tracked(s) && JobAt(s, j, at)
    ensures OnlyAt(s, j, at) && j in s.issued
  {
    assert Placed(s, j);
    var other :| OnlyAt(s, j, other);
  }

  /** Moving one job and no other keeps all jobs tracked. */
  lemma JobMoves(s: State, s': State, j: Job, to: Place)
    requires Tracked(s) && OnlyAt(s', j, to) && j in s'.issued && NoDuplicates(s'.processed)
    requires forall k: Job :: k != j ==> SamePlaces(s, s', k)
    ensures Tracked(s')
  {
    forall k: Job, at | JobAt(s', k, at) ensures k in s'.issued {
      if k != j { assert SamePlaces(s, s', k) && JobAt(s, k, at); }
    }
    forall k: Job | k in s'.issued ensures Placed(s', k) {
      if k != j { StaysPlaced(s, s', k); }
    }
    forall k: Job | k in s'.accepted || k in s'.processed ensures k in s'.issued {
      if k != j { assert SamePlaces(s, s', k); }
    }
  }

  lemma StaysPlaced(s: State, s': State, k: Job)
    requires Tracked(s) && SamePlaces(s, s', k) && k in s'.issued
    ensures Placed(s', k)
  {
    assert Placed(s, k);
    var at :| OnlyAt(s, k, at);
    assert OnlyAt(s', k, at);
  }

  lemma NoJobMoves(s: State, s': State)
    requires Tracked(s) && s'.processed == s.processed
    requires forall k: Job :: SamePlaces(s, s', k)
    ensures Tracked(s')
  {
    forall k: Job, at | JobAt(s', k, at) ensures k in s'.issued {
      assert SamePlaces(s, s', k) && JobAt(s, k, at);
    }
    forall k: Job | k in s'.issued ensures Placed(s', k) { StaysPlaced(s, s', k); }
    forall k: Job | k in s'.accepted || k in s'.processed ensures k in s'.issued {
      assert SamePlaces(s, s', k);
    }
  }

  // ------------------------------------------------------------ one action each

  lemma ServeTracked(c: Config, s: State, p: nat, job: Job)
    requires Tracked(s) && Enabled(s, Serve(p, job))
    ensures Tracked(Next(c, s, Serve(p, job)))
  {
    var s' := Next(c, s, Serve(p, job));
    forall at | JobAt(s', job, at) ensures at == WithCaller(p) {
      if at != WithCaller(p) { assert JobAt(s, job, at); }
    }
    assert OnlyAt(s', job, WithCaller(p));
    JobMoves(s, s', job, WithCaller(p));
  }

  /** A caller that moves on inside Serve keeps its job. */
  lemma CallerTracked(s: State, s': State, p: nat)
    requires Tracked(s)
    requires |s.callers| == |s'.callers| && p < |s.callers| && !s.callers[p].Outside? && !s'.callers[p].Outside?
    requires s'.callers == s.callers[p := s'.callers[p]] && s'.callers[p].job == s.callers[p].job
    requires |s.chans| <= |s'.chans|
    requires forall ch :: 0 <= ch < |s.chans| ==>
      s'.chans[ch].queue == s.chans[ch].queue
      && (s'.chans[ch].pc == s.chans[ch].pc || (s'.chans[ch].pc == Waiting && s.chans[ch].pc == NoWorker))
    requires forall ch :: |s.chans| <= ch < |s'.chans| ==> s'.chans[ch].queue == [] && s'.chans[ch].pc == NoWorker
    requires s'.issued == s.issued && s'.rejected == s.rejected && s'.accepted == s.accepted
    requires s'.processed == s.processed && s'.returned == s.returned
    ensures Tracked(s')
  {
    forall k: Job ensures SamePlaces(s, s', k) {
      forall at ensures JobAt(s', k, at) <==> JobAt(s, k, at) {}
      forall at | JobAt(s, k, at) ensures Through(s', at) <==> Through(s, at) {}
    }
    NoJobMoves(s, s');
  }

  lemma RefuseTracked(c: Config, s: State, p: nat)
    requires Tracked(s) && Enabled(s, GetCh(p)) && |s.ready| == 0 && s.workersCount >= c.maxWorkers
    ensures Tracked(Next(c, s, GetCh(p)))
  {
    var s', job := Next(c, s, GetCh(p)), s.callers[p].job;
    PlaceOf(s, job, WithCaller(p));
    forall at | JobAt(s', job, at) ensures at == Refused {
      if at != Refused { assert JobAt(s, job, at); }
    }
    assert OnlyAt(s', job, Refused);
    JobMoves(s, s', job, Refused);
  }

  lemma SendTracked(c: Config, s: State, p: nat)
    requires Tracked(s) && Enabled(s, Send(p))
    ensures Tracked(Next(c, s, Send(p)))
  {
    var s', job, ch := Next(c, s, Send(p)), s.callers[p].job, s.callers[p].ch;
    var to := OnChannel(ch, 0);
    PlaceOf(s, job, WithCaller(p));
    forall at | JobAt(s', job, at) ensures at == to {
      if at != to { assert JobAt(s, job, at); }
    }
    assert OnlyAt(s', job, to);
    JobMoves(s, s', job, to);
  }

  lemma ReceiveTracked(c: Config, s: State, ch: nat)
    requires Owned(s) && Tracked(s) && Enabled(s, Receive(ch))
    ensures Tracked(Next(c, s, Receive(ch)))
  {
    var s', m := Next(c, s, Receive(ch)), s.chans[ch].queue[0];
    OneMessage(s, ch);
    if m.Work? {
      PlaceOf(s, m.job, OnChannel(ch, 0));
      forall at | JobAt(s', m.job, at) ensures at == AtWorker(ch) {
        if at != AtWorker(ch) { assert JobAt(s, m.job, at); }
      }
      assert OnlyAt(s', m.job, AtWorker(ch));
      JobMoves(s, s', m.job, AtWorker(ch));
    } else {
      NoJobMoves(s, s');
    }
  }

  lemma ProcessTracked(c: Config, s: State, ch: nat)
    requires Tracked(s) && Enabled(s, Process(ch))
    ensures Tracked(Next(c, s, Process(ch)))
  {
    var s', job := Next(c, s, Process(ch)), s.chans[ch].pc.job;
    PlaceOf(s, job, AtWorker(ch));
    forall at | JobAt(s', job, at) ensures at == AtWorker(ch) {
      if at != AtWorker(ch) { assert JobAt(s, job, at); }
    }
    assert s'.processed[|s.processed|] == job;
    assert OnlyAt(s', job, AtWorker(ch));
    JobMoves(s, s', job, AtWorker(ch));
  }

  lemma PutContextTracked(c: Config, s: State, ch: nat)
    requires Tracked(s) && Enabled(s, PutContext(ch))
    ensures Tracked(Next(c, s, PutContext(ch)))
  {
    var s', job := Next(c, s, PutContext(ch)), s.chans[ch].pc.job;
    var to := GivenBack(|s.returned|);
    PlaceOf(s, job, AtWorker(ch));
    forall at | JobAt(s', job, at) ensures at == to {
      if at != to { assert JobAt(s, job, at); }
    }
    assert OnlyAt(s', job, to);
    JobMoves(s, s', job, to);
  }

  /** A change of one channel that neither brings nor takes a job. */
  lemma JoblessTracked(s: State, s': State, ch: nat, x: Chan)
    requires Tracked(s) && ch < |s.chans| && s'.chans == s.chans[ch := x]
    requires x.queue == s.chans[ch].queue || (s.chans[ch].queue == [] && x.queue == [Quit])
    requires x.pc == s.chans[ch].pc || !(x.pc.Busy? || x.pc.Served? || s.chans[ch].pc.Busy? || s.chans[ch].pc.Served?)
    requires s'.callers == s.callers && s'.issued == s.issued && s'.rejected == s.rejected
    requires s'.accepted == s.accepted && s'.processed == s.processed && s'.returned == s.returned
    ensures Tracked(s')
  {
    forall k: Job ensures SamePlaces(s, s', k) {
      forall at ensures JobAt(s', k, at) <==> JobAt(s, k, at) {}
      forall at | JobAt(s, k, at) ensures Through(s', at) <==> Through(s, at) {}
    }
    NoJobMoves(s, s');
  }

  lemma RestTracked(c: Config, s: State, a: Action)
    requires Tracked(s) && Enabled(s, a)
    requires a.ReadClock? || a.CleanLock? || a.CleanDone? || a.SelectSleep? || a.SelectStop? || a.CloseStop?
          || a.StopLock? || a.StopUnlock? || a.Tick?
    ensures Tracked(Next(c, s, a))
  {
    var s' := Next(c, s, a);
    assert s'.chans == s.chans && s'.callers == s.callers;
    forall k: Job ensures SamePlaces(s, s', k) {
      forall at ensures JobAt(s', k, at) <==> JobAt(s, k, at) {}
    }
    NoJobMoves(s, s');
  }

  lemma CallerNextTracked(c: Config, s: State, a: Action)
    requires Owned(s) && Tracked(s) && Enabled(s, a)
    requires OfCaller(a)
    ensures Tracked(Next(c, s, a))
  {
    match a
    case Serve(p, job) => ServeTracked(c, s, p, job);
    case GetCh(p) =>
      if |s.ready| == 0 && s.workersCount >= c.maxWorkers { RefuseTracked(c, s, p); }
      else { CallerTracked(s, Next(c, s, a), p); }
    case PoolGet(p, _) => CallerTracked(s, Next(c, s, a), p);
    case Go(p) =>
      HolderOf(s, s.callers[p].ch, HeldBy(p));
      CallerTracked(s, Next(c, s, a), p);
    case Send(p) => SendTracked(c, s, p);
  }

  lemma QuitNextTracked(c: Config, s: State, a: Action, ch: nat)
    requires Tracked(s) && Enabled(s, a)
    requires a == Stamp(ch) || a == Release(ch) || a == Decrement(ch) || a == PoolPut(ch)
          || (a == Notify && ch == s.cleaner.scratch[s.cleaner.next])
          || (a == StopSend && ch == s.ready[s.stopper.next])
    ensures Tracked(Next(c, s, a))
  {
    JoblessTracked(s, Next(c, s, a), ch, Next(c, s, a).chans[ch]);
  }

  /** Every action keeps every job in exactly one place. */
  lemma NextTracked(c: Config, s: State, a: Action)
    requires Owned(s) && Tracked(s) && Enabled(s, a)
    ensures Tracked(Next(c, s, a))
  {
    if a.Receive? { ReceiveTracked(c, s, a.ch); }
    else if a.Process? { ProcessTracked(c, s, a.ch); }
    else if a.PutContext? { PutContextTracked(c, s, a.ch); }
    else if OfWorker(a) { QuitNextTracked(c, s, a, a.ch); }
    else if a.Notify? { QuitNextTracked(c, s, a, s.cleaner.scratch[s.cleaner.next]); }
    else if a.StopSend? { QuitNextTracked(c, s, a, s.ready[s.stopper.next]); }
    else if OfCaller(a) { CallerNextTracked(c, s, a); }
    else { RestTracked(c, s, a); }
  }

  lemma {:induction false} RunTracked(c: Config, s: State, run: seq<Action>)
    requires Owned(s) && Tracked(s) && Legal(c, s, run)
    ensures Tracked(End(c, s, run))
    decreases |run|
  {
    if run != [] {
      NextOwned(c, s, run[0]);
      NextTracked(c, s, run[0]);
      RunTracked(c, Next(c, s, run[0]), run[1..]);
    }
  }

  lemma ReachableTracked(c: Config, s: State)
    requires Reachable(c, s)
    ensures Tracked(s)
  {
    var s0, run :| Initial(s0) && Legal(c, s0, run) && End(c, s0, run) == s;
    assert Owned(s0) && Tracked(s0);
    RunTracked(c, s0, run);
  }

  function Occurrences(js: seq<Job>, j: Job): nat { multiset(js)[j] }

  /**
   A job for which Serve returned true is on one channel, unprocessed; or at one worker,
   processed at most once; or processed once and its context given back once. A job for
   which Serve has not returned true has been neither processed nor given back.
   */
  lemma ExactlyOnce(c: Config, s: State, j: Job)
    requires Reachable(c, s)
    ensures j in s.accepted ==>
      exists at :: Taken(at) && OnlyAt(s, j, at)
                   && Occurrences(s.processed, j) == (if Through(s, at) then 1 else 0)
                   && Occurrences(s.returned, j) == (if at.GivenBack? then 1 else 0)
    ensures j !in s.accepted ==> Occurrences(s.processed, j) == 0 && Occurrences(s.returned, j) == 0
  {
    ReachableTracked(c, s);
    CountDistinct(s.processed, j);
    forall i, k | 0 <= i < |s.returned| && 0 <= k < |s.returned| && s.returned[i] == j && s.returned[k] == j
      ensures i == k
    {
      PlaceOf(s, j, GivenBack(i));
      assert JobAt(s, j, GivenBack(k));
    }
    CountSingle(s.returned, j);
    if j in s.issued {
      assert Placed(s, j);
      var at :| OnlyAt(s, j, at);
      if j in s.returned {
        var i :| 0 <= i < |s.returned| && s.returned[i] == j;
        assert JobAt(s, j, GivenBack(i));
      }
    }
    forall i | 0 <= i < |s.returned| ensures s.returned[i] in s.issued {
      PlaceOf(s, s.returned[i], GivenBack(i));
    }
  }

  lemma CountDistinct(js: seq<Job>, j: Job)
    requires NoDuplicates(js)
    ensures Occurrences(js, j) == if j in js then 1 else 0
  {
    CountSingle(js, j);
  }

  /** An element found at one index only occurs once. */
  lemma {:induction false} CountSingle(js: seq<Job>, j: Job)
    requires forall i, k :: 0 <= i < |js| && 0 <= k < |js| && js[i] == j && js[k] == j ==> i == k
    ensures Occurrences(js, j) == if j in js then 1 else 0
  {
    if js != [] {
      var init, last := js[..|js| - 1], js[|js| - 1];
      assert js == init + [last];
      CountSingle(init, j);
    }
  }

  // -------------------------------------------------------- after the stop message

  /** Quit, if the worker of this channel got it, was the last thing it got. */
  ghost predicate QuitLast(x: Chan) {
    forall k :: 0 <= k < |x.inbox| && x.inbox[k] == Quit ==>
      k == |x.inbox| - 1 && (x.pc == Exiting || x.pc == Retiring || x.pc == NoWorker)
  }

  ghost predicate AllQuitLast(s: State) {
    forall ch :: 0 <= ch < |s.chans| ==> QuitLast(s.chans[ch])
  }

  lemma WorkerQuitLast(c: Config, s: State, a: Action)
    requires AllQuitLast(s) && Enabled(s, a) && OfWorker(a)
    ensures AllQuitLast(Next(c, s, a))
  {
    var s' := Next(c, s, a);
    assert s'.chans == s.chans[a.ch := s'.chans[a.ch]];
    assert QuitLast(s.chans[a.ch]);
    assert QuitLast(s'.chans[a.ch]);
  }

  /** Anyone else leaves what a worker has received alone, or starts a worker anew. */
  lemma OthersQuitLast(c: Config, s: State, a: Action)
    requires AllQuitLast(s) && Enabled(s, a) && !OfWorker(a)
    ensures AllQuitLast(Next(c, s, a))
  {
    var s' := Next(c, s, a);
    forall ch | 0 <= ch < |s'.chans|
      ensures s'.chans[ch].inbox == [] || (ch < |s.chans| && s'.chans[ch].inbox == s.chans[ch].inbox && s'.chans[ch].pc == s.chans[ch].pc)
    {}
    forall ch | 0 <= ch < |s'.chans| ensures QuitLast(s'.chans[ch]) {
      if ch < |s.chans| { assert QuitLast(s.chans[ch]); }
    }
  }

  lemma NextQuitLast(c: Config, s: State, a: Action)
    requires AllQuitLast(s) && Enabled(s, a)
    ensures AllQuitLast(Next(c, s, a))
  {
    if OfWorker(a) { WorkerQuitLast(c, s, a); } else { OthersQuitLast(c, s, a); }
  }

  lemma {:induction false} RunQuitLast(c: Config, s: State, run: seq<Action>)
    requires AllQuitLast(s) && Legal(c, s, run)
    ensures AllQuitLast(End(c, s, run))
    decreases |run|
  {
    if run != [] {
      NextQuitLast(c, s, run[0]);
      RunQuitLast(c, Next(c, s, run[0]), run[1..]);
    }
  }

  /** No worker receives anything after its stop message; until its channel is recycled none is even sent. */
  lemma NothingAfterQuit(c: Config, s: State, ch: nat, k: nat)
    requires Reachable(c, s)
    requires ch < |s.chans| && k < |s.chans[ch].inbox| && s.chans[ch].inbox[k] == Quit
    ensures k == |s.chans[ch].inbox| - 1
    ensures s.chans[ch].queue == [] && !Enabled(s, Receive(ch))
  {
    var s0, run :| Initial(s0) && Legal(c, s0, run) && End(c, s0, run) == s;
    RunQuitLast(c, s0, run);
    assert QuitLast(s.chans[ch]);
    ReachableOwned(c, s);
    OneMessage(s, ch);
  }
}
