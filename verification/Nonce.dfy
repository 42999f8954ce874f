/** Nonce check and rotation (section 10.2.2 of RFC 5389): one current nonce per 5-tuple. */
module Nonces {
  import opened Turn
  import opened Options
  import opened Keyed

  datatype Nonce = Nonce(tuple: FiveTuple, value: string, validUntil: Time)

  /** What Check returns: the nonce the client should use, and whether the one it sent is stale. */
  datatype Verdict = Verdict(value: string, stale: bool)

  function NonceTuple(n: Nonce): FiveTuple { n.tuple }

  predicate ValidAt(n: Nonce, at: Time) {
    n.validUntil == ZERO_TIME || n.validUntil > at
  }

  /** One check; `draw` is the random value it issues if it has to. */
  function CheckStep(ns: seq<Nonce>, duration: int, tuple: FiveTuple, value: string, at: Time, draw: string)
    : (seq<Nonce>, Verdict)
  {
    var i := IndexOf(NonceTuple, ns, tuple);
    if i == |ns| then
      (ns + [Nonce(tuple, draw, if duration != 0 then at + duration else ZERO_TIME)], Verdict(draw, true))
    else if ValidAt(ns[i], at) then (ns, Verdict(ns[i].value, value != ns[i].value))
    else (ns[i := Nonce(tuple, draw, at + duration)], Verdict(draw, true))
  }

  class NonceAuth {
    const duration: int
    var nonces: seq<Nonce>

    constructor (duration: int)
      ensures this.duration == duration && nonces == []
    {
      this.duration := duration;
      nonces := [];
    }

    method Check(tuple: FiveTuple, value: string, at: Time, newNonce: string) returns (v: Verdict)
      modifies this
      ensures (nonces, v) == CheckStep(old(nonces), duration, tuple, value, at, newNonce)
    {
      var i := 0;
      while i < |nonces|
        invariant 0 <= i <= |nonces| && nonces == old(nonces)
        invariant forall j :: 0 <= j < i ==> nonces[j].tuple != tuple
      {
        if nonces[i].tuple != tuple {
          i := i + 1;
          continue;
        }
        var current := nonces[i];
        if ValidAt(current, at) {
          if current.value != value {
            return Verdict(current.value, true);
          }
          return Verdict(current.value, false);
        }
        current := current.(value := newNonce, validUntil := at + duration);
        nonces := nonces[i := current];
        return Verdict(current.value, true);
      }
      var current := Nonce(tuple, newNonce, ZERO_TIME);
      if duration != 0 {
        current := current.(validUntil := at + duration);
      }
      nonces := nonces + [current];
      return Verdict(current.value, true);
    }
  }

  // ---------------------------------------------------------------- history

  datatype Attempt = Attempt(tuple: FiveTuple, value: string, at: Time, draw: string)

  datatype Issue = Issue(value: string, at: Time)

  /** The entries after a history of checks, starting from none. */
  function After(duration: int, h: seq<Attempt>): seq<Nonce> {
    if h == [] then []
    else
      var e := h[|h| - 1];
      CheckStep(After(duration, h[..|h| - 1]), duration, e.tuple, e.value, e.at, e.draw).0
  }

  /** The answer to the last check of a history. */
  function Answer(duration: int, h: seq<Attempt>): Verdict
    requires h != []
  {
    var e := h[|h| - 1];
    CheckStep(After(duration, h[..|h| - 1]), duration, e.tuple, e.value, e.at, e.draw).1
  }

  /** A nonce issued at `issued` still counts at `at`. A sum of exactly the zero time never expires. */
  predicate Live(duration: int, issued: Time, at: Time) {
    duration == 0 || issued + duration == ZERO_TIME || issued + duration > at
  }

  /** The nonce last issued to `u`: a check issues one when the previous is missing or no longer live. */
  function Issued(duration: int, h: seq<Attempt>, u: FiveTuple): Option<Issue> {
    if h == [] then None
    else
      var before, e := Issued(duration, h[..|h| - 1], u), h[|h| - 1];
      if e.tuple != u then before
      else if before.Some? && Live(duration, before.value.at, e.at) then before
      else Some(Issue(e.draw, e.at))
  }

  /** The value the last check for `u` returned. */
  function LastReturned(duration: int, h: seq<Attempt>, u: FiveTuple): Option<string> {
    if h == [] then None
    else if h[|h| - 1].tuple == u then Some(Answer(duration, h).value)
    else LastReturned(duration, h[..|h| - 1], u)
  }

  /** The entry of `u` records exactly the nonce last issued to it. */
  ghost predicate Records(duration: int, ns: seq<Nonce>, u: FiveTuple, issue: Option<Issue>) {
    match Lookup(NonceTuple, ns, u)
    case None => issue == None
    case Some(n) =>
      && issue.Some? && issue.value.value == n.value
      && n.validUntil == if duration == 0 then ZERO_TIME else issue.value.at + duration
  }

  lemma CheckRecords(duration: int, ns: seq<Nonce>, e: Attempt, u: FiveTuple, issue: Option<Issue>)
    requires Distinct(NonceTuple, ns) && Records(duration, ns, u, issue)
    ensures var ns' := CheckStep(ns, duration, e.tuple, e.value, e.at, e.draw).0;
      && Distinct(NonceTuple, ns')
      && Records(duration, ns', u,
           if e.tuple != u || (issue.Some? && Live(duration, issue.value.at, e.at)) then issue else Some(Issue(e.draw, e.at)))
  {
    var i := IndexOf(NonceTuple, ns, e.tuple);
    if i == |ns| {
      var n := Nonce(e.tuple, e.draw, if duration != 0 then e.at + duration else ZERO_TIME);
      LookupAppend(NonceTuple, ns, n, u);
    } else if !ValidAt(ns[i], e.at) {
      LookupUpdate(NonceTuple, ns, i, Nonce(e.tuple, e.draw, e.at + duration), u);
    }
  }

  /** In any history there is one entry per 5-tuple, and it is the one last issued. */
  lemma {:induction false} HistoryRecords(duration: int, h: seq<Attempt>, u: FiveTuple)
    ensures Distinct(NonceTuple, After(duration, h))
    ensures Records(duration, After(duration, h), u, Issued(duration, h, u))
  {
    if h != [] {
      HistoryRecords(duration, h[..|h| - 1], u);
      CheckRecords(duration, After(duration, h[..|h| - 1]), h[|h| - 1], u, Issued(duration, h[..|h| - 1], u));
    }
  }

  /** The last value returned to a client is the one last issued to it. */
  lemma {:induction false} LastReturnedIsIssued(duration: int, h: seq<Attempt>, u: FiveTuple)
    ensures LastReturned(duration, h, u).Some? <==> Issued(duration, h, u).Some?
    ensures Issued(duration, h, u).Some? ==> LastReturned(duration, h, u).value == Issued(duration, h, u).value.value
  {
    if h != [] {
      LastReturnedIsIssued(duration, h[..|h| - 1], u);
      HistoryRecords(duration, h[..|h| - 1], u);
    }
  }

  /**
   After any history, a check accepts a value exactly if it is the one most recently
   returned to that 5-tuple and the nonce is still live; else it returns the live nonce,
   or a fresh one.
   */
  lemma AcceptsIff(duration: int, h: seq<Attempt>, e: Attempt)
    ensures var v := CheckStep(After(duration, h), duration, e.tuple, e.value, e.at, e.draw).1;
      var issue := Issued(duration, h, e.tuple);
      && (!v.stale <==> issue.Some? && Live(duration, issue.value.at, e.at)
                        && LastReturned(duration, h, e.tuple) == Some(e.value))
      && v.value == if issue.Some? && Live(duration, issue.value.at, e.at) then issue.value.value else e.draw
  {
    HistoryRecords(duration, h, e.tuple);
    LastReturnedIsIssued(duration, h, e.tuple);
  }

  function OwnAttempts(u: FiveTuple): Attempt -> bool { (e: Attempt) => e.tuple == u }

  /** Checks of other clients change nothing for `u`. */
  lemma {:induction false} IssuedAlone(duration: int, h: seq<Attempt>, u: FiveTuple)
    ensures Issued(duration, h, u) == Issued(duration, Filter(OwnAttempts(u), h), u)
  {
    if h != [] {
      var init, e := h[..|h| - 1], h[|h| - 1];
      IssuedAlone(duration, init, u);
      assert h == init + [e];
      FilterAppend(OwnAttempts(u), init, e);
      var own := Filter(OwnAttempts(u), init);
      if e.tuple == u {
        assert (own + [e])[..|own|] == own;
      }
    }
  }

  /** An issued nonce is one that some check of that client drew. */
  lemma {:induction false} IssuedIsDrawn(duration: int, h: seq<Attempt>, u: FiveTuple)
    ensures Issued(duration, h, u).Some? ==>
      exists e :: e in h && e.tuple == u && e.draw == Issued(duration, h, u).value.value && e.at == Issued(duration, h, u).value.at
  {
    if h != [] {
      var init, e := h[..|h| - 1], h[|h| - 1];
      IssuedIsDrawn(duration, init, u);
      assert e in h && forall x :: x in init ==> x in h;
    }
  }
}
