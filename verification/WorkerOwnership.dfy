/**
 The right to send on a worker's channel is a token: in every interleaving each channel
 has exactly one holder. So a channel never carries two messages, never sits twice in the
 ready list, and no send ever blocks.
 */
module WorkerOwnership {
  import opened Options
  import opened WorkerPool

  datatype Holder =
    | InReady(i: nat)
    | HeldBy(p: nat)
    | InScratch(i: nat)
    | InQueue(i: nat)
    | HeldByWorker
    | InPool

  /** `h` holds the right to send on channel `ch`. */
  predicate Holds(s: State, ch: nat, h: Holder) {
    match h
    case InReady(i) => i < |s.ready| && s.ready[i] == ch && (s.stopper.Draining? ==> s.stopper.next <= i)
    case HeldBy(p) => p < |s.callers| && (s.callers[p].Spawning? || s.callers[p].Sending?) && s.callers[p].ch == ch
    case InScratch(i) => s.cleaner.Notifying? && s.cleaner.next <= i < |s.cleaner.scratch| && s.cleaner.scratch[i] == ch
    case InQueue(i) => ch < |s.chans| && i < |s.chans[ch].queue|
    case HeldByWorker => ch < |s.chans| && s.chans[ch].pc != NoWorker && s.chans[ch].pc != Waiting
    case InPool => ch in s.pool
  }

  /** Where the channel's worker stands, given who holds the channel. */
  predicate PcFits(s: State, ch: nat, h: Holder)
    requires ch < |s.chans|
  {
    match h
    case HeldBy(p) => p < |s.callers| && s.chans[ch].pc == if s.callers[p].Spawning? then NoWorker else Waiting
    case HeldByWorker => true
    case InPool => s.chans[ch].pc == NoWorker
    case _ => s.chans[ch].pc == Waiting
  }

  /** `h` alone holds `ch`. */
  ghost predicate Sole(s: State, ch: nat, h: Holder) {
    ch < |s.chans| && Holds(s, ch, h) && PcFits(s, ch, h) && forall g :: Holds(s, ch, g) ==> g == h
  }

  ghost predicate HasSole(s: State, ch: nat) {
    exists h :: Sole(s, ch, h)
  }

  /** Every channel has exactly one holder, and nothing else is held. */
  ghost predicate Owned(s: State) {
    && (forall ch: nat, h :: Holds(s, ch, h) ==> ch < |s.chans|)
    && (forall ch: nat :: ch < |s.chans| ==> HasSole(s, ch))
  }

  /** Channel `ch` has the same holders, at the same place, in both states. */
  ghost predicate SameHolders(s: State, s': State, ch: nat) {
    && (forall h :: Holds(s', ch, h) <==> Holds(s, ch, h))
    && (ch < |s.chans| ==> ch < |s'.chans| && forall h :: PcFits(s, ch, h) && Holds(s, ch, h) ==> PcFits(s', ch, h))
  }

  lemma HolderOf(s: State, ch: nat, h: Holder)
    requires Owned(s) && Holds(s, ch, h)
    ensures Sole(s, ch, h)
  {
    assert HasSole(s, ch);
    var g :| Sole(s, ch, g);
  }

  /** Moving one token and nothing else keeps every channel owned. */
  lemma TokenMoves(s: State, s': State, m: nat, to: Holder)
    requires Owned(s) && Sole(s', m, to)
    requires |s'.chans| == |s.chans| || (m == |s.chans| && |s'.chans| == |s.chans| + 1)
    requires forall ch: nat :: ch != m ==> SameHolders(s, s', ch)
    ensures Owned(s')
  {
    forall ch: nat, h | Holds(s', ch, h) ensures ch < |s'.chans| {
      if ch != m { assert SameHolders(s, s', ch) && Holds(s, ch, h); }
    }
    forall ch: nat | ch < |s'.chans| ensures HasSole(s', ch) {
      if ch != m {
        assert HasSole(s, ch);
        var h :| Sole(s, ch, h);
        assert SameHolders(s, s', ch);
        assert Sole(s', ch, h);
      }
    }
  }

  lemma NoTokenMoves(s: State, s': State)
    requires Owned(s)
    requires |s.chans| == |s'.chans|
    requires forall ch: nat :: SameHolders(s, s', ch)
    ensures Owned(s')
  {
    forall ch: nat, h | Holds(s', ch, h) ensures ch < |s'.chans| {
      assert SameHolders(s, s', ch) && Holds(s, ch, h);
    }
    forall ch: nat | ch < |s'.chans| ensures HasSole(s', ch) {
      assert HasSole(s, ch);
      var h :| Sole(s, ch, h);
      assert SameHolders(s, s', ch);
      assert Sole(s', ch, h);
    }
  }

  // ------------------------------------------------------------ one action each

  lemma TakeReadyOwned(c: Config, s: State, p: nat)
    requires Owned(s) && Enabled(s, GetCh(p)) && |s.ready| > 0
    ensures Owned(Next(c, s, GetCh(p)))
  {
    var s', i := Next(c, s, GetCh(p)), |s.ready| - 1;
    var m := s.ready[i];
    HolderOf(s, m, InReady(i));
    forall h | Holds(s', m, h) ensures h == HeldBy(p) {
      if h != HeldBy(p) { assert Holds(s, m, h); }
    }
    assert Sole(s', m, HeldBy(p));
    TokenMoves(s, s', m, HeldBy(p));
  }

  lemma GetChOwned(c: Config, s: State, p: nat)
    requires Owned(s) && Enabled(s, GetCh(p))
    ensures Owned(Next(c, s, GetCh(p)))
  {
    if |s.ready| > 0 {
      TakeReadyOwned(c, s, p);
    } else {
      NoTokenMoves(s, Next(c, s, GetCh(p)));
    }
  }

  lemma PoolGetOwned(c: Config, s: State, p: nat, recycled: Option<nat>)
    requires Owned(s) && Enabled(s, PoolGet(p, recycled))
    ensures Owned(Next(c, s, PoolGet(p, recycled)))
  {
    var s' := Next(c, s, PoolGet(p, recycled));
    var m := if recycled.Some? then recycled.value else |s.chans|;
    if recycled.Some? { HolderOf(s, m, InPool); }
    forall h | Holds(s', m, h) ensures h == HeldBy(p) {
      if h != HeldBy(p) && !(recycled.None? && (h.InQueue? || h.HeldByWorker?)) { assert Holds(s, m, h); }
    }
    assert Sole(s', m, HeldBy(p));
    TokenMoves(s, s', m, HeldBy(p));
  }

  lemma GoOwned(c: Config, s: State, p: nat)
    requires Owned(s) && Enabled(s, Go(p))
    ensures Owned(Next(c, s, Go(p)))
  {
    var s', m := Next(c, s, Go(p)), s.callers[p].ch;
    HolderOf(s, m, HeldBy(p));
    forall h | Holds(s', m, h) ensures h == HeldBy(p) { assert Holds(s, m, h); }
    assert Sole(s', m, HeldBy(p));
    TokenMoves(s, s', m, HeldBy(p));
  }

  lemma SendOwned(c: Config, s: State, p: nat)
    requires Owned(s) && Enabled(s, Send(p))
    ensures Owned(Next(c, s, Send(p)))
  {
    var s', m := Next(c, s, Send(p)), s.callers[p].ch;
    HolderOf(s, m, HeldBy(p));
    forall h | Holds(s', m, h) ensures h == InQueue(0) {
      if !h.InQueue? { assert Holds(s, m, h); }
    }
    assert Sole(s', m, InQueue(0));
    TokenMoves(s, s', m, InQueue(0));
  }

  lemma ReceiveOwned(c: Config, s: State, m: nat)
    requires Owned(s) && Enabled(s, Receive(m))
    ensures Owned(Next(c, s, Receive(m)))
  {
    var s' := Next(c, s, Receive(m));
    HolderOf(s, m, InQueue(0));
    assert !Holds(s, m, InQueue(1));
    forall h | Holds(s', m, h) ensures h == HeldByWorker {
      if h != HeldByWorker { assert Holds(s, m, h); }
    }
    assert Sole(s', m, HeldByWorker);
    TokenMoves(s, s', m, HeldByWorker);
  }

  /** A worker that moves on but keeps its token. */
  lemma WorkingOwned(s: State, s': State, m: nat, x: Chan)
    requires Owned(s) && Holds(s, m, HeldByWorker)
    requires s'.chans == s.chans[m := x] && x.queue == s.chans[m].queue && x.pc != NoWorker && x.pc != Waiting
    requires s'.ready == s.ready && s'.pool == s.pool && s'.callers == s.callers
    requires s'.cleaner == s.cleaner && s'.stopper == s.stopper
    ensures Owned(s')
  {
    HolderOf(s, m, HeldByWorker);
    forall h | Holds(s', m, h) ensures h == HeldByWorker { assert Holds(s, m, h); }
    assert Sole(s', m, HeldByWorker);
    TokenMoves(s, s', m, HeldByWorker);
  }

  lemma ReleaseOwned(c: Config, s: State, m: nat)
    requires Owned(s) && Enabled(s, Release(m)) && s.stopper != Stopped
    ensures Owned(Next(c, s, Release(m)))
  {
    var s', to := Next(c, s, Release(m)), InReady(|s.ready|);
    HolderOf(s, m, HeldByWorker);
    forall h | Holds(s', m, h) ensures h == to {
      if h != to { assert Holds(s, m, h); }
    }
    assert Sole(s', m, to);
    TokenMoves(s, s', m, to);
  }

  lemma PoolPutOwned(c: Config, s: State, m: nat)
    requires Owned(s) && Enabled(s, PoolPut(m))
    ensures Owned(Next(c, s, PoolPut(m)))
  {
    var s' := Next(c, s, PoolPut(m));
    HolderOf(s, m, HeldByWorker);
    forall h | Holds(s', m, h) ensures h == InPool {
      if h != InPool { assert Holds(s, m, h); }
    }
    assert Sole(s', m, InPool);
    TokenMoves(s, s', m, InPool);
  }

  lemma NotifyOwned(c: Config, s: State)
    requires Owned(s) && Enabled(s, Notify)
    ensures Owned(Next(c, s, Notify))
  {
    var s', m := Next(c, s, Notify), s.cleaner.scratch[s.cleaner.next];
    HolderOf(s, m, InScratch(s.cleaner.next));
    forall h | Holds(s', m, h) ensures h == InQueue(0) {
      if !h.InQueue? { assert Holds(s, m, h); }
    }
    assert Sole(s', m, InQueue(0));
    TokenMoves(s, s', m, InQueue(0));
  }

  lemma StopSendOwned(c: Config, s: State)
    requires Owned(s) && Enabled(s, StopSend)
    ensures Owned(Next(c, s, StopSend))
  {
    var s', m := Next(c, s, StopSend), s.ready[s.stopper.next];
    HolderOf(s, m, InReady(s.stopper.next));
    forall h | Holds(s', m, h) ensures h == InQueue(0) {
      if !h.InQueue? { assert Holds(s, m, h); }
    }
    assert Sole(s', m, InQueue(0));
    TokenMoves(s, s', m, InQueue(0));
  }

  /** Where a holder before the cleaner's split was, seen from after it. */
  function BeforeSplit(i: nat, h: Holder): Holder {
    match h
    case InReady(k) => InReady(i + k)
    case InScratch(k) => InReady(k)
    case _ => h
  }

  function AfterSplit(i: nat, h: Holder): Holder {
    match h
    case InReady(k) => if k < i then InScratch(k) else InReady(k - i)
    case _ => h
  }

  lemma CleanLockOwned(c: Config, s: State)
    requires Owned(s) && Enabled(s, CleanLock)
    ensures Owned(Next(c, s, CleanLock))
  {
    var s', i := Next(c, s, CleanLock), IdlePrefix(s.chans, s.ready, s.cleaner.now, c.maxIdle);
    forall ch: nat, h | Holds(s', ch, h) ensures Holds(s, ch, BeforeSplit(i, h)) {}
    forall ch: nat | ch < |s'.chans| ensures HasSole(s', ch) {
      assert HasSole(s, ch);
      var h :| Sole(s, ch, h);
      assert Holds(s', ch, AfterSplit(i, h));
      forall g | Holds(s', ch, g) ensures g == AfterSplit(i, h) {
        assert Holds(s, ch, BeforeSplit(i, g));
      }
      assert Sole(s', ch, AfterSplit(i, h));
    }
  }

  /** Actions that touch no token. */
  predicate Quiet(a: Action) {
    a.Serve? || a.ReadClock? || a.CleanDone? || a.SelectSleep? || a.SelectStop?
    || a.CloseStop? || a.StopLock? || a.StopUnlock? || a.Tick?
  }

  lemma QuietOwned(c: Config, s: State, a: Action)
    requires Owned(s) && Enabled(s, a) && Quiet(a)
    ensures Owned(Next(c, s, a))
  {
    var s' := Next(c, s, a);
    forall ch: nat ensures SameHolders(s, s', ch) {
      forall h ensures Holds(s', ch, h) <==> Holds(s, ch, h) {}
    }
    NoTokenMoves(s, s');
  }

  /** Every action of a worker on its own channel. */
  lemma WorkerOwned(c: Config, s: State, a: Action)
    requires Owned(s) && Enabled(s, a)
    requires OfWorker(a) && !a.Receive?
    ensures Owned(Next(c, s, a))
  {
    var s' := Next(c, s, a);
    match a
    case Release(ch) => if s.stopper == Stopped { WorkingOwned(s, s', ch, s'.chans[ch]); } else { ReleaseOwned(c, s, ch); }
    case PoolPut(ch) => PoolPutOwned(c, s, ch);
    case Process(ch) => WorkingOwned(s, s', ch, s'.chans[ch]);
    case PutContext(ch) => WorkingOwned(s, s', ch, s'.chans[ch]);
    case Stamp(ch) => WorkingOwned(s, s', ch, s'.chans[ch]);
    case Decrement(ch) => WorkingOwned(s, s', ch, s'.chans[ch]);
  }

  /** Every action keeps every channel with exactly one holder. */
  lemma NextOwned(c: Config, s: State, a: Action)
    requires Owned(s) && Enabled(s, a)
    ensures Owned(Next(c, s, a))
  {
    if Quiet(a) {
      QuietOwned(c, s, a);
    } else {
      match a
      case GetCh(p) => GetChOwned(c, s, p);
      case PoolGet(p, recycled) => PoolGetOwned(c, s, p, recycled);
      case Go(p) => GoOwned(c, s, p);
      case Send(p) => SendOwned(c, s, p);
      case Receive(ch) => ReceiveOwned(c, s, ch);
      case CleanLock => CleanLockOwned(c, s);
      case Notify => NotifyOwned(c, s);
      case StopSend => StopSendOwned(c, s);
      case _ => WorkerOwned(c, s, a);
    }
  }

  lemma {:induction false} RunOwned(c: Config, s: State, run: seq<Action>)
    requires Owned(s) && Legal(c, s, run)
    ensures Owned(End(c, s, run))
    decreases |run|
  {
    if run != [] {
      NextOwned(c, s, run[0]);
      RunOwned(c, Next(c, s, run[0]), run[1..]);
    }
  }

  /** In every interleaving each channel has exactly one holder. */
  lemma ReachableOwned(c: Config, s: State)
    requires Reachable(c, s)
    ensures Owned(s)
  {
    var s0, run :| Initial(s0) && Legal(c, s0, run) && End(c, s0, run) == s;
    assert Owned(s0);
    RunOwned(c, s0, run);
  }

  // ------------------------------------------------------------ what follows

  /** No send ever blocks, and each finds its worker at the receive. */
  lemma SendsNeverBlock(c: Config, s: State)
    requires Reachable(c, s)
    ensures forall p :: 0 <= p < |s.callers| && s.callers[p].Sending? ==>
      Enabled(s, Send(p)) && s.chans[s.callers[p].ch].pc == Waiting
    ensures s.cleaner.Notifying? && s.cleaner.next < |s.cleaner.scratch| ==>
      Enabled(s, Notify) && s.chans[s.cleaner.scratch[s.cleaner.next]].pc == Waiting
    ensures s.stopper.Draining? && s.stopper.next < |s.ready| ==>
      Enabled(s, StopSend) && s.chans[s.ready[s.stopper.next]].pc == Waiting
  {
    ReachableOwned(c, s);
    forall p | 0 <= p < |s.callers| && s.callers[p].Sending?
      ensures Enabled(s, Send(p)) && s.chans[s.callers[p].ch].pc == Waiting
    {
      EmptyUnlessQueued(s, s.callers[p].ch, HeldBy(p));
    }
    if s.cleaner.Notifying? && s.cleaner.next < |s.cleaner.scratch| {
      EmptyUnlessQueued(s, s.cleaner.scratch[s.cleaner.next], InScratch(s.cleaner.next));
    }
    if s.stopper.Draining? && s.stopper.next < |s.ready| {
      EmptyUnlessQueued(s, s.ready[s.stopper.next], InReady(s.stopper.next));
    }
  }

  /** A channel whose holder is not its queue is empty. */
  lemma EmptyUnlessQueued(s: State, ch: nat, h: Holder)
    requires Owned(s) && Holds(s, ch, h) && !h.InQueue?
    ensures Sole(s, ch, h) && s.chans[ch].queue == []
  {
    HolderOf(s, ch, h);
    assert !Holds(s, ch, InQueue(0));
  }

  /** No channel carries two messages. */
  lemma OneMessage(s: State, ch: nat)
    requires Owned(s) && ch < |s.chans|
    ensures |s.chans[ch].queue| <= 1
    ensures s.chans[ch].queue != [] ==> s.chans[ch].pc == Waiting
  {
    if s.chans[ch].queue != [] {
      HolderOf(s, ch, InQueue(0));
      assert !Holds(s, ch, InQueue(1));
    }
  }

  /**
   No channel is in the ready list twice, nor in the ready list and anywhere else. While Stop
   drains the list, this holds of the entries it has not yet notified and nilled.
   */
  lemma ReadyOnce(c: Config, s: State, i: nat, h: Holder)
    requires Reachable(c, s)
    requires i < |s.ready| && (s.stopper.Draining? ==> s.stopper.next <= i) && Holds(s, s.ready[i], h)
    ensures h == InReady(i)
  {
    ReachableOwned(c, s);
    HolderOf(s, s.ready[i], InReady(i));
  }

  /** A recycled channel is empty, has no worker, and nobody can send on it. */
  lemma RecycledIsClean(c: Config, s: State, ch: nat, h: Holder)
    requires Reachable(c, s) && ch in s.pool
    ensures ch < |s.chans| && s.chans[ch].queue == [] && s.chans[ch].pc == NoWorker
    ensures Holds(s, ch, h) ==> h == InPool
  {
    ReachableOwned(c, s);
    EmptyUnlessQueued(s, ch, InPool);
  }
}
