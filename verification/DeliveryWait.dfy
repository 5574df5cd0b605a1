/**
 Delivery reports and the wait for a worker's own batch (worker.py, `_complete_delivery` and
 `_wait_for_delivery_batch`).

 The event loop is shared by all workers of a process: the futures any of them has created sit in
 one map. A report reaches its future through `call_soon_threadsafe`, that is, only while somebody
 awaits; a poll itself completes nothing. What Kafka and the clock do while a worker waits is the
 `Script`: the n-th poll raises or not, and during the n-th await callbacks are served until the
 worker resumes after some time or finds itself cancelled.
 */
module DeliveryWait {
  import opened Common

  /** A future is named by the worker (its lease nonce) and the message's number in that worker. */
  datatype Future = Future(worker: nat, number: nat)

  datatype Report = Delivered | Failed(reason: string)

  datatype State = Open | Done(report: Report)

  /** The futures created so far. */
  type Futures = map<Future, State>

  predicate IsDone(fs: Futures, f: Future) {
    f in fs && fs[f].Done?
  }

  datatype Callback = Callback(future: Future, report: Report)

  function Create(fs: Futures, f: Future): Futures {
    if f in fs then fs else fs[f := Open]
  }

  function Complete(fs: Futures, cb: Callback): Futures {
    if cb.future in fs && fs[cb.future].Open? then fs[cb.future := Done(cb.report)] else fs
  }

  function CompleteAll(fs: Futures, cbs: seq<Callback>): Futures {
    if cbs == [] then fs else Complete(CompleteAll(fs, cbs[..|cbs| - 1]), cbs[|cbs| - 1])
  }

  /** Futures stay, and so do the reports of those that are done. */
  ghost predicate Grows(fs: Futures, fs': Futures) {
    forall f :: f in fs ==> f in fs' && (fs[f].Done? ==> fs'[f] == fs[f])
  }

  /** The first report of a future is final, and only created futures get one. */
  lemma {:induction false} ReportsAreFinal(fs: Futures, cbs: seq<Callback>)
    ensures Grows(fs, CompleteAll(fs, cbs)) && CompleteAll(fs, cbs).Keys == fs.Keys
  {
    if cbs != [] {
      ReportsAreFinal(fs, cbs[..|cbs| - 1]);
    }
  }

  /** Of several reports on an open future the first one counts. */
  lemma {:induction false} FirstReportCounts(fs: Futures, first: Callback, rest: seq<Callback>)
    requires first.future in fs && fs[first.future].Open?
    ensures var after := CompleteAll(fs, [first] + rest);
      first.future in after && after[first.future] == Done(first.report)
  {
    var all := [first] + rest;
    if rest == [] {
      assert all[..0] == [] && CompleteAll(fs, []) == fs;
    } else {
      assert all[..|all| - 1] == [first] + rest[..|rest| - 1];
      FirstReportCounts(fs, first, rest[..|rest| - 1]);
    }
  }

  // A worker's messages, by their numbers

  const CHECKPOINT_INTERVAL: nat := 100

  function Numbered(worker: nat, lo: nat, hi: nat): (s: seq<Future>)
    requires lo <= hi
    ensures |s| == hi - lo
  {
    seq(hi - lo, i requires 0 <= i < hi - lo => Future(worker, lo + i))
  }

  ghost predicate Reported(worker: nat, n: nat, fs: Futures) {
    IsDone(fs, Future(worker, n)) && fs[Future(worker, n)].report.Delivered?
  }

  ghost predicate AllReported(worker: nat, n: nat, fs: Futures) {
    forall k: nat :: k < n ==> Reported(worker, k, fs)
  }

  class EventLoop {
    var futures: Futures

    constructor ()
      ensures futures == map[]
    {
      futures := map[];
    }

    method CompleteDelivery(cb: Callback)
      modifies this
      ensures futures == Complete(old(futures), cb)
    {
      if cb.future !in futures || futures[cb.future].Done? {
        return;
      }
      futures := futures[cb.future := Done(cb.report)];
    }

    method CreateFuture(f: Future)
      modifies this
      ensures futures == Create(old(futures), f)
    {
      if f !in futures {
        futures := futures[f := Open];
      }
    }

    method Serve(cbs: seq<Callback>)
      modifies this
      ensures futures == CompleteAll(old(futures), cbs)
    {
      for i := 0 to |cbs|
        invariant futures == CompleteAll(old(futures), cbs[..i])
      {
        assert cbs[..i + 1][..i] == cbs[..i];
        CompleteDelivery(cbs[i]);
      }
      assert cbs[..|cbs|] == cbs;
    }
  }

  datatype Poll = PollRaises | PollReturns

  /** Cancelled or not, an await may have served callbacks before the worker gets to run again. */
  datatype Await = Interrupted(callbacks: seq<Callback>) | Resumes(callbacks: seq<Callback>, elapsed: real)

  datatype Script = Script(polls: nat -> Poll, awaits: nat -> Await)

  /** Every verdict but the first is an exception; all of them but Cancelled are delivery errors. */
  datatype Verdict =
    | AllDelivered
    | DeliveryFailed(failures: nat)
    | PollFailed
    | TimedOut(outstanding: nat)
    | Cancelled

  const WAIT_SLICE: real := 0.05

  /**
   asyncio.wait(..., timeout=min(0.05, remaining)) comes back before its time-out only when one of
   the futures it waits for is done.
   */
  function Elapsed(aw: Await, remaining: real, progress: bool): real
    requires aw.Resumes?
  {
    if progress then MaxReal(aw.elapsed, 0.0) else MaxReal(aw.elapsed, MinReal(WAIT_SLICE, remaining))
  }

  function Undone(pending: set<Future>, fs: Futures): set<Future> {
    set f | f in pending && !IsDone(fs, f)
  }

  function CountFailed(own: seq<Future>, fs: Futures): nat {
    if own == [] then 0
    else
      var last := own[|own| - 1];
      CountFailed(own[..|own| - 1], fs) + (if IsDone(fs, last) && fs[last].report.Failed? then 1 else 0)
  }

  function Judge(own: seq<Future>, fs: Futures): Verdict {
    if CountFailed(own, fs) == 0 then AllDelivered else DeliveryFailed(CountFailed(own, fs))
  }

  /** Slices of waiting still to come, plus futures still to be resolved: what bounds the loop. */
  function Budget(pending: set<Future>, remaining: real): nat {
    |pending| + Max(0, Ceil(20.0 * remaining))
  }

  lemma WaitingCosts(pending: set<Future>, fs: Futures, aw: Await, remaining: real)
    requires pending != {} && aw.Resumes? && remaining > 0.0
    ensures var pending' := Undone(pending, fs);
      Budget(pending', remaining - Elapsed(aw, remaining, pending' != pending)) < Budget(pending, remaining)
  {
    var pending' := Undone(pending, fs);
    SubsetSize(pending', pending);
    var left := remaining - Elapsed(aw, remaining, pending' != pending);
    assert left <= remaining;
    assert Ceil(20.0 * left) <= Ceil(20.0 * remaining);
  }

  lemma SubsetSize<T>(a: set<T>, b: set<T>)
    requires a <= b
    ensures |a| <= |b| && (a != b ==> |a| < |b|)
  {
    assert b == a + (b - a);
    assert |b| == |a| + |b - a|;
  }

  /** How one round of the loop ends: with a verdict, or with what the next round starts from. */
  datatype Round =
    | Ends(verdict: Verdict, futures: Futures)
    | Continues(futures: Futures, pending: set<Future>, remaining: real)

  function PollOnce(own: seq<Future>, fs: Futures, pending: set<Future>, remaining: real, p: Poll): Round {
    match p
    case PollRaises => Ends(PollFailed, fs)
    case PollReturns =>
      var undone := Undone(pending, fs);
      if undone == {} then Ends(Judge(own, fs), fs)
      else if remaining <= 0.0 then Ends(TimedOut(|undone|), fs)
      else Continues(fs, undone, remaining)
  }

  function AwaitOnce(own: seq<Future>, fs: Futures, pending: set<Future>, remaining: real, aw: Await): Round {
    var fs := CompleteAll(fs, aw.callbacks);
    match aw
    case Interrupted(_) => Ends(Cancelled, fs)
    case Resumes(_, _) =>
      var undone := Undone(pending, fs);
      var left := remaining - Elapsed(aw, remaining, undone != pending);
      if undone == {} then Ends(Judge(own, fs), fs) else Continues(fs, undone, left)
  }

  function PlayRound(own: seq<Future>, fs: Futures, pending: set<Future>, remaining: real, s: Script, n: nat): Round {
    var r := PollOnce(own, fs, pending, remaining, s.polls(n));
    if r.Ends? then r else AwaitOnce(own, r.futures, r.pending, r.remaining, s.awaits(n))
  }

  lemma RoundsCost(own: seq<Future>, fs: Futures, pending: set<Future>, remaining: real, s: Script, n: nat)
    requires pending != {}
    ensures Budget(pending, remaining) >= 1
    ensures var r := PlayRound(own, fs, pending, remaining, s, n);
      r.Continues? ==> r.pending != {} && r.pending <= pending && Budget(r.pending, r.remaining) < Budget(pending, remaining)
  {
    SubsetSize({}, pending);
    var r := PollOnce(own, fs, pending, remaining, s.polls(n));
    if r.Continues? {
      SubsetSize(r.pending, pending);
      if s.awaits(n).Resumes? {
        WaitingCosts(r.pending, CompleteAll(r.futures, s.awaits(n).callbacks), s.awaits(n), remaining);
      }
    }
  }

  datatype Outcome = Outcome(verdict: Verdict, futures: Futures, rounds: nat)

  /** The loop from its n-th round on. */
  function WaitFrom(own: seq<Future>, fs: Futures, pending: set<Future>, remaining: real, s: Script, n: nat): (o: Outcome)
    requires pending != {}
    ensures n < o.rounds <= n + Budget(pending, remaining)
    decreases Budget(pending, remaining)
  {
    RoundsCost(own, fs, pending, remaining, s, n);
    match PlayRound(own, fs, pending, remaining, s, n)
    case Ends(v, fs) => Outcome(v, fs, n + 1)
    case Continues(fs, undone, left) => WaitFrom(own, fs, undone, left, s, n + 1)
  }

  function ToSet(own: seq<Future>): set<Future> {
    set f | f in own
  }

  function Wait(own: seq<Future>, fs: Futures, timeout: real, s: Script): Outcome {
    if own == [] then Outcome(AllDelivered, fs, 0)
    else
      assert own[0] in ToSet(own);
      WaitFrom(own, fs, ToSet(own), timeout, s, 0)
  }

  // ---------------------------------------------------------------------------------------------

  ghost predicate OwnDelivered(own: seq<Future>, fs: Futures) {
    forall f :: f in own ==> IsDone(fs, f) && fs[f].report.Delivered?
  }

  ghost predicate AllDone(own: seq<Future>, fs: Futures) {
    forall f :: f in own ==> IsDone(fs, f)
  }

  lemma {:induction false} JudgeIsExact(own: seq<Future>, fs: Futures)
    requires AllDone(own, fs)
    ensures Judge(own, fs).AllDelivered? <==> OwnDelivered(own, fs)
    ensures Judge(own, fs).DeliveryFailed? ==> exists f :: f in own && IsDone(fs, f) && fs[f].report.Failed?
  {
    if own != [] {
      JudgeIsExact(own[..|own| - 1], fs);
    }
  }

  function FailedAt(own: seq<Future>, fs: Futures): set<nat> {
    set i: nat | i < |own| && IsDone(fs, own[i]) && fs[own[i]].report.Failed?
  }

  /** The number a failed batch reports is that of its failed messages. */
  lemma {:induction false} CountsFailures(own: seq<Future>, fs: Futures)
    ensures CountFailed(own, fs) == |FailedAt(own, fs)|
  {
    if own != [] {
      var n := |own| - 1;
      CountsFailures(own[..n], fs);
      assert FailedAt(own, fs) == FailedAt(own[..n], fs)
        + if IsDone(fs, own[n]) && fs[own[n]].report.Failed? then {n} else {};
    }
  }

  ghost predicate Exact(own: seq<Future>, before: Futures, v: Verdict, after: Futures) {
    && Grows(before, after) && after.Keys == before.Keys
    && (v.AllDelivered? <==> OwnDelivered(own, after) && !v.Cancelled?)
    && (v.DeliveryFailed? ==> exists f :: f in own && IsDone(after, f) && after[f].report.Failed?)
    && (v.TimedOut? ==> !AllDone(own, after))
  }

  ghost predicate Covers(own: seq<Future>, fs: Futures, pending: set<Future>) {
    && (forall f :: f in own && f !in pending ==> IsDone(fs, f))
    && (forall f :: f in pending ==> f in own)
  }

  /** What is not yet done stays covered; if that is nothing, the batch can be judged. */
  lemma FilteringIsExact(own: seq<Future>, fs: Futures, fs': Futures, pending: set<Future>)
    requires Covers(own, fs, pending) && Grows(fs, fs') && fs'.Keys == fs.Keys
    ensures Covers(own, fs', Undone(pending, fs')) && (Undone(pending, fs') == {} <==> AllDone(own, fs'))
    ensures Undone(pending, fs') == {} ==> Exact(own, fs, Judge(own, fs'), fs')
  {
    forall f | f in own && f !in Undone(pending, fs')
      ensures IsDone(fs', f)
    {
      assert f !in pending ==> IsDone(fs, f);
    }
    if Undone(pending, fs') == {} {
      JudgeIsExact(own, fs');
    } else {
      var f :| f in Undone(pending, fs');
      assert f in own && !IsDone(fs', f);
    }
  }

  /** From any round on, once its poll does not raise or some future is open, the verdict is exact. */
  lemma {:induction false} RoundsAreExact(
      own: seq<Future>, fs: Futures, pending: set<Future>, remaining: real, s: Script, n: nat)
    requires pending != {} && Covers(own, fs, pending)
    requires s.polls(n).PollReturns? || !AllDone(own, fs)
    ensures var o := WaitFrom(own, fs, pending, remaining, s, n); Exact(own, fs, o.verdict, o.futures)
    decreases Budget(pending, remaining)
  {
    FilteringIsExact(own, fs, fs, pending);
    var cbs := s.awaits(n).callbacks;
    ReportsAreFinal(fs, cbs);
    FilteringIsExact(own, fs, CompleteAll(fs, cbs), Undone(pending, fs));
    RoundsCost(own, fs, pending, remaining, s, n);
    var r := PlayRound(own, fs, pending, remaining, s, n);
    if r.Continues? {
      RoundsAreExact(own, r.futures, r.pending, r.remaining, s, n + 1);
    }
  }

  /**
   A wait that starts with an open future, as every one does that follows the production of a
   message, returns normally if and only if it is not cancelled and every future of the batch is
   delivered when it ends; a reported failure and a time-out are about the batch. The same holds of
   any wait whose first poll does not raise. Reports that were in before stay, no future is created,
   and it takes at most |batch| + ceil(timeout / 0.05) rounds.
   */
  lemma WaitIsExact(own: seq<Future>, fs: Futures, timeout: real, s: Script)
    ensures var o := Wait(own, fs, timeout, s);
      && (own == [] || s.polls(0).PollReturns? || !AllDone(own, fs) ==> Exact(own, fs, o.verdict, o.futures))
      && (own != [] && s.polls(0).PollRaises? ==> o.verdict.PollFailed? && o.futures == fs)
      && o.rounds <= |own| + Max(0, Ceil(20.0 * timeout))
  {
    if own != [] {
      assert own[0] in ToSet(own);
      if s.polls(0).PollReturns? || !AllDone(own, fs) {
        RoundsAreExact(own, fs, ToSet(own), timeout, s, 0);
      }
      AtMostLength(own);
    }
  }

  // ---------------------------------------------------------------------------------------------
  // Cancellation

  /** The futures once the first `k` awaits have served their callbacks. */
  function Served(fs: Futures, s: Script, k: nat): Futures {
    if k == 0 then fs else CompleteAll(Served(fs, s, k - 1), s.awaits(k - 1).callbacks)
  }

  function OpenAfter(own: seq<Future>, fs: Futures, s: Script, k: nat): set<Future> {
    Undone(ToSet(own), Served(fs, s, k))
  }

  /** The time that is left once the first `k` awaits are over. */
  function TimeLeft(own: seq<Future>, fs: Futures, timeout: real, s: Script, k: nat): real {
    if k == 0 then timeout
    else
      var left, aw := TimeLeft(own, fs, timeout, s, k - 1), s.awaits(k - 1);
      if aw.Resumes? then left - Elapsed(aw, left, OpenAfter(own, fs, s, k) != OpenAfter(own, fs, s, k - 1)) else left
  }

  /** Nothing ends the wait before its k-th await: no poll raises, time is left, and a future is open. */
  predicate Enters(own: seq<Future>, fs: Futures, timeout: real, s: Script, k: nat) {
    && s.polls(k).PollReturns? && OpenAfter(own, fs, s, k) != {} && TimeLeft(own, fs, timeout, s, k) > 0.0
    && (k > 0 ==> Enters(own, fs, timeout, s, k - 1) && s.awaits(k - 1).Resumes?)
  }

  lemma {:induction false} EntersInOrder(own: seq<Future>, fs: Futures, timeout: real, s: Script, j: nat, k: nat)
    requires Enters(own, fs, timeout, s, k) && j <= k
    ensures Enters(own, fs, timeout, s, j) && (j < k ==> s.awaits(j).Resumes?)
  {
    if j < k {
      EntersInOrder(own, fs, timeout, s, j, k - 1);
    }
  }

  predicate InterruptedAt(own: seq<Future>, fs: Futures, timeout: real, s: Script, k: nat) {
    Enters(own, fs, timeout, s, k) && s.awaits(k).Interrupted?
  }

  /** The n-th round starts from what the awaits before it have left. */
  ghost predicate StartsRound(
      own: seq<Future>, fs: Futures, timeout: real, s: Script, n: nat, gs: Futures, pending: set<Future>, remaining: real)
  {
    && gs == Served(fs, s, n) && Undone(pending, gs) == OpenAfter(own, fs, s, n)
    && remaining == TimeLeft(own, fs, timeout, s, n)
    && (n > 0 ==> Enters(own, fs, timeout, s, n - 1) && s.awaits(n - 1).Resumes?)
  }

  lemma OpenFromHere(own: seq<Future>, fs: Futures, s: Script, n: nat)
    ensures Undone(OpenAfter(own, fs, s, n), Served(fs, s, n + 1)) == OpenAfter(own, fs, s, n + 1)
  {
    var gs, gs' := Served(fs, s, n), Served(fs, s, n + 1);
    ReportsAreFinal(gs, s.awaits(n).callbacks);
    forall f | f in OpenAfter(own, fs, s, n + 1)
      ensures f in OpenAfter(own, fs, s, n)
    {
      assert IsDone(gs, f) ==> IsDone(gs', f);
    }
  }

  lemma RoundsGoOn(
      own: seq<Future>, fs: Futures, timeout: real, s: Script, n: nat, gs: Futures, pending: set<Future>, remaining: real)
    requires StartsRound(own, fs, timeout, s, n, gs, pending, remaining)
    ensures var r := PlayRound(own, gs, pending, remaining, s, n);
      && (r.Continues? ==> StartsRound(own, fs, timeout, s, n + 1, r.futures, r.pending, r.remaining))
      && (r.Ends? && r.verdict.Cancelled? <==> InterruptedAt(own, fs, timeout, s, n))
      && (InterruptedAt(own, fs, timeout, s, n) ==> r.futures == Served(fs, s, n + 1))
      && (r.Ends? && Enters(own, fs, timeout, s, n) && s.awaits(n).Resumes? ==> OpenAfter(own, fs, s, n + 1) == {})
  {
    OpenFromHere(own, fs, s, n);
    var r := PollOnce(own, gs, pending, remaining, s.polls(n));
    assert r.Continues? <==> Enters(own, fs, timeout, s, n);
    if r.Continues? {
      assert r == Continues(gs, OpenAfter(own, fs, s, n), remaining);
    }
  }

  lemma InterruptedOnce(own: seq<Future>, fs: Futures, timeout: real, s: Script, j: nat, k: nat)
    requires InterruptedAt(own, fs, timeout, s, j) && InterruptedAt(own, fs, timeout, s, k)
    ensures j == k
  {
    EntersInOrder(own, fs, timeout, s, if j < k then j else k, if j < k then k else j);
  }

  /** The wait comes to its k-th poll: the await before it was not cut off and left a future open. */
  predicate ComesTo(own: seq<Future>, fs: Futures, timeout: real, s: Script, k: nat) {
    k > 0 ==>
      && Enters(own, fs, timeout, s, k - 1) && s.awaits(k - 1).Resumes?
      && OpenAfter(own, fs, s, k) != {}
  }

  /** The wait ends in its k-th round with this verdict and these futures. */
  ghost predicate EndsIn(own: seq<Future>, fs: Futures, timeout: real, s: Script, k: nat, v: Verdict, after: Futures) {
    var open := OpenAfter(own, fs, s, k);
    && ComesTo(own, fs, timeout, s, k)
    && (match v
        case PollFailed => s.polls(k).PollRaises? && after == Served(fs, s, k)
        case TimedOut(n) =>
          s.polls(k).PollReturns? && n == |open| > 0 && TimeLeft(own, fs, timeout, s, k) <= 0.0 && after == Served(fs, s, k)
        case Cancelled => InterruptedAt(own, fs, timeout, s, k) && after == Served(fs, s, k + 1)
        case _ =>
          || (k == 0 && s.polls(0).PollReturns? && open == {} && after == fs)
          || (Enters(own, fs, timeout, s, k) && s.awaits(k).Resumes?
              && OpenAfter(own, fs, s, k + 1) == {} && after == Served(fs, s, k + 1)))
  }

  lemma RoundEnds(
      own: seq<Future>, fs: Futures, timeout: real, s: Script, n: nat, gs: Futures, pending: set<Future>, remaining: real)
    requires StartsRound(own, fs, timeout, s, n, gs, pending, remaining) && ComesTo(own, fs, timeout, s, n)
    ensures var r := PlayRound(own, gs, pending, remaining, s, n);
      && (r.Ends? ==> EndsIn(own, fs, timeout, s, n, r.verdict, r.futures))
      && (r.Continues? ==> ComesTo(own, fs, timeout, s, n + 1))
  {
    RoundsGoOn(own, fs, timeout, s, n, gs, pending, remaining);
    OpenFromHere(own, fs, s, n);
    var r := PollOnce(own, gs, pending, remaining, s.polls(n));
    assert r.Continues? <==> Enters(own, fs, timeout, s, n);
    if r.Continues? {
      assert r == Continues(gs, OpenAfter(own, fs, s, n), remaining);
    }
  }

  lemma {:induction false} RoundsEndExactly(
      own: seq<Future>, fs: Futures, timeout: real, s: Script, n: nat, gs: Futures, pending: set<Future>, remaining: real)
    requires pending != {} && StartsRound(own, fs, timeout, s, n, gs, pending, remaining)
    requires ComesTo(own, fs, timeout, s, n)
    ensures var o := WaitFrom(own, gs, pending, remaining, s, n);
      EndsIn(own, fs, timeout, s, o.rounds - 1, o.verdict, o.futures)
    decreases Budget(pending, remaining)
  {
    RoundsCost(own, gs, pending, remaining, s, n);
    RoundEnds(own, fs, timeout, s, n, gs, pending, remaining);
    var r := PlayRound(own, gs, pending, remaining, s, n);
    if r.Continues? {
      RoundsGoOn(own, fs, timeout, s, n, gs, pending, remaining);
      RoundsEndExactly(own, fs, timeout, s, n + 1, r.futures, r.pending, r.remaining);
      assert WaitFrom(own, gs, pending, remaining, s, n) == WaitFrom(own, r.futures, r.pending, r.remaining, s, n + 1);
    } else {
      assert WaitFrom(own, gs, pending, remaining, s, n) == Outcome(r.verdict, r.futures, n + 1);
    }
  }

  /**
   What ends a wait, read off its script: a poll it comes to raises; or a poll returns with futures
   open and no time left; or an await it comes to is interrupted; or no future is open any more.
   */
  lemma EndsExactly(own: seq<Future>, fs: Futures, timeout: real, s: Script) returns (k: nat)
    requires own != []
    ensures var o := Wait(own, fs, timeout, s);
      EndsIn(own, fs, timeout, s, k, o.verdict, o.futures) && o.rounds == k + 1
  {
    assert own[0] in ToSet(own);
    RoundsEndExactly(own, fs, timeout, s, 0, fs, ToSet(own), timeout);
    k := Wait(own, fs, timeout, s).rounds - 1;
  }

  /** Time is not over before it is: awaits that do not overrun their slice take 0.05 s each at most. */
  lemma {:induction false} SlicesAreShort(own: seq<Future>, fs: Futures, timeout: real, s: Script, k: nat)
    requires forall j: nat :: s.awaits(j).Resumes? ==> s.awaits(j).elapsed <= 0.05
    ensures TimeLeft(own, fs, timeout, s, k) >= timeout - 0.05 * k as real
  {
    if k > 0 {
      SlicesAreShort(own, fs, timeout, s, k - 1);
    }
  }

  /** Before it times out a wait has polled at least every 0.05 s, however few reports came in. */
  lemma PollsOften(own: seq<Future>, fs: Futures, timeout: real, s: Script)
    requires own != [] && Wait(own, fs, timeout, s).verdict.TimedOut?
    requires forall j: nat :: s.awaits(j).Resumes? ==> s.awaits(j).elapsed <= 0.05
    ensures (Wait(own, fs, timeout, s).rounds - 1) as real >= 20.0 * timeout
  {
    var k := EndsExactly(own, fs, timeout, s);
    SlicesAreShort(own, fs, timeout, s, k);
  }

  /** A wait is cancelled exactly when one of the awaits it comes to is interrupted. */
  lemma CancelledExactlyWhen(own: seq<Future>, fs: Futures, timeout: real, s: Script) returns (k: nat)
    ensures var o := Wait(own, fs, timeout, s);
      && (o.verdict.Cancelled? ==> InterruptedAt(own, fs, timeout, s, k) && o.futures == Served(fs, s, k + 1))
      && (!o.verdict.Cancelled? ==> forall j: nat :: !InterruptedAt(own, fs, timeout, s, j))
  {
    k := 0;
    if own == [] {
      assert OpenAfter(own, fs, s, 0) == {};
      forall j: nat | InterruptedAt(own, fs, timeout, s, j)
        ensures false
      {
        EntersInOrder(own, fs, timeout, s, 0, j);
      }
    } else {
      k := EndsExactly(own, fs, timeout, s);
      var v := Wait(own, fs, timeout, s).verdict;
      forall j: nat | InterruptedAt(own, fs, timeout, s, j) && !v.Cancelled?
        ensures false
      {
        NothingAfterTheEnd(own, fs, timeout, s, k, v, Wait(own, fs, timeout, s).futures, j);
      }
    }
  }

  lemma NothingAfterTheEnd(own: seq<Future>, fs: Futures, timeout: real, s: Script, k: nat, v: Verdict, after: Futures, j: nat)
    requires EndsIn(own, fs, timeout, s, k, v, after) && !v.Cancelled?
    ensures !InterruptedAt(own, fs, timeout, s, j)
  {
    if InterruptedAt(own, fs, timeout, s, j) {
      if j < k {
        EntersInOrder(own, fs, timeout, s, j, k - 1);
      } else {
        EntersInOrder(own, fs, timeout, s, k, j);
        if j > k {
          EntersInOrder(own, fs, timeout, s, k + 1, j);
        }
      }
    }
  }

  /** An await the wait comes to is interrupted, and the last open reports came in during that await. */
  ghost predicate CancelledOnDelivery(own: seq<Future>, fs: Futures, timeout: real, s: Script) {
    exists k: nat :: InterruptedAt(own, fs, timeout, s, k) && OwnDelivered(own, Served(fs, s, k + 1))
  }

  /**
   "Returns normally if and only if every own message was delivered" holds of a wait that starts
   with an open future exactly when no cancellation arrives together with the last reports.
   */
  lemma NormalIffDeliveredExactlyWhen(own: seq<Future>, fs: Futures, timeout: real, s: Script)
    requires !AllDone(own, fs)
    ensures var o := Wait(own, fs, timeout, s);
      (o.verdict.AllDelivered? <==> OwnDelivered(own, o.futures)) <==> !CancelledOnDelivery(own, fs, timeout, s)
  {
    WaitIsExact(own, fs, timeout, s);
    var k := CancelledExactlyWhen(own, fs, timeout, s);
    forall j: nat | InterruptedAt(own, fs, timeout, s, k) && InterruptedAt(own, fs, timeout, s, j)
      ensures j == k
    {
      InterruptedOnce(own, fs, timeout, s, j, k);
    }
  }

  /** The input on which it fails: the last report and the cancellation meet the same await. */
  lemma CancellationOverridesDelivery(f: Future, s: Script)
    requires s.polls(0).PollReturns? && s.awaits(0) == Interrupted([Callback(f, Delivered)])
    ensures var o := Wait([f], map[f := Open], 300.0, s);
      o.verdict.Cancelled? && OwnDelivered([f], o.futures)
  {
    assert f in ToSet([f]) && f in Undone(ToSet([f]), map[f := Open]);
    var cbs := [Callback(f, Delivered)];
    assert cbs[..0] == [] && CompleteAll(map[f := Open], cbs) == map[f := Done(Delivered)];
    var r := PlayRound([f], map[f := Open], ToSet([f]), 300.0, s, 0);
    assert r == Ends(Cancelled, map[f := Done(Delivered)]);
  }

  lemma {:induction false} AtMostLength(own: seq<Future>)
    ensures |ToSet(own)| <= |own|
  {
    if own != [] {
      var init, last := own[..|own| - 1], own[|own| - 1];
      AtMostLength(init);
      assert own == init + [last];
      assert ToSet(own) == ToSet(init) + {last};
    }
  }

  // ---------------------------------------------------------------------------------------------
  // Other workers

  function OwnCallbacks(cbs: seq<Callback>, own: seq<Future>): seq<Callback> {
    if cbs == [] then []
    else
      var last := cbs[|cbs| - 1];
      OwnCallbacks(cbs[..|cbs| - 1], own) + (if last.future in own then [last] else [])
  }

  ghost predicate SameAwait(a: Await, b: Await, own: seq<Future>) {
    && a.Interrupted? == b.Interrupted?
    && OwnCallbacks(a.callbacks, own) == OwnCallbacks(b.callbacks, own)
    && (a.Resumes? && b.Resumes? ==> a.elapsed == b.elapsed)
  }

  /** The two scripts differ only in what happens to other workers' messages. */
  ghost predicate SameForOwner(s: Script, u: Script, own: seq<Future>) {
    && (forall i: nat :: s.polls(i) == u.polls(i))
    && (forall i: nat :: SameAwait(s.awaits(i), u.awaits(i), own))
  }

  ghost predicate Agree(fs: Futures, gs: Futures, own: seq<Future>) {
    forall f :: f in own ==> (f in fs <==> f in gs) && (f in fs && f in gs ==> fs[f] == gs[f])
  }

  lemma {:induction false} OnlyOwnCallbacksCount(fs: Futures, cbs: seq<Callback>, own: seq<Future>)
    ensures Agree(CompleteAll(fs, cbs), CompleteAll(fs, OwnCallbacks(cbs, own)), own)
  {
    if cbs != [] {
      var init, last := cbs[..|cbs| - 1], cbs[|cbs| - 1];
      OnlyOwnCallbacksCount(fs, init, own);
      var mine := OwnCallbacks(init, own);
      assert (mine + [last])[..|mine|] == mine;
      assert mine + [] == mine;
    }
  }

  lemma {:induction false} SameCallbacksAgree(fs: Futures, gs: Futures, cbs: seq<Callback>, own: seq<Future>)
    requires Agree(fs, gs, own)
    ensures Agree(CompleteAll(fs, cbs), CompleteAll(gs, cbs), own)
  {
    if cbs != [] {
      SameCallbacksAgree(fs, gs, cbs[..|cbs| - 1], own);
    }
  }

  lemma ServingAgrees(fs: Futures, gs: Futures, cbs: seq<Callback>, dbs: seq<Callback>, own: seq<Future>)
    requires Agree(fs, gs, own) && OwnCallbacks(cbs, own) == OwnCallbacks(dbs, own)
    ensures Agree(CompleteAll(fs, cbs), CompleteAll(gs, dbs), own)
  {
    OnlyOwnCallbacksCount(fs, cbs, own);
    OnlyOwnCallbacksCount(gs, dbs, own);
    SameCallbacksAgree(fs, gs, OwnCallbacks(cbs, own), own);
  }

  lemma {:induction false} JudgeAgrees(fs: Futures, gs: Futures, part: seq<Future>, own: seq<Future>)
    requires Agree(fs, gs, own) && forall f :: f in part ==> f in own
    ensures CountFailed(part, fs) == CountFailed(part, gs)
  {
    if part != [] {
      JudgeAgrees(fs, gs, part[..|part| - 1], own);
    }
  }

  ghost predicate SameRound(r: Round, q: Round, own: seq<Future>) {
    && Agree(r.futures, q.futures, own)
    && (r.Ends? ==> q.Ends? && r.verdict == q.verdict)
    && (r.Continues? ==> q.Continues? && r.pending == q.pending && r.remaining == q.remaining)
    && (r.Continues? ==> forall f :: f in r.pending ==> f in own)
  }

  lemma PollAgrees(own: seq<Future>, fs: Futures, gs: Futures, pending: set<Future>, remaining: real, p: Poll)
    requires Agree(fs, gs, own) && forall f :: f in pending ==> f in own
    ensures SameRound(PollOnce(own, fs, pending, remaining, p), PollOnce(own, gs, pending, remaining, p), own)
  {
    JudgeAgrees(fs, gs, own, own);
    assert Undone(pending, fs) == Undone(pending, gs);
  }

  lemma AwaitAgrees(own: seq<Future>, fs: Futures, gs: Futures, pending: set<Future>, remaining: real, a: Await, b: Await)
    requires Agree(fs, gs, own) && SameAwait(a, b, own) && forall f :: f in pending ==> f in own
    ensures SameRound(AwaitOnce(own, fs, pending, remaining, a), AwaitOnce(own, gs, pending, remaining, b), own)
  {
    var fs1, gs1 := CompleteAll(fs, a.callbacks), CompleteAll(gs, b.callbacks);
    ServingAgrees(fs, gs, a.callbacks, b.callbacks, own);
    JudgeAgrees(fs1, gs1, own, own);
    assert Undone(pending, fs1) == Undone(pending, gs1);
  }

  lemma RoundAgrees(
      own: seq<Future>, fs: Futures, gs: Futures, pending: set<Future>, remaining: real, s: Script, u: Script, n: nat)
    requires Agree(fs, gs, own) && SameForOwner(s, u, own)
    requires forall f :: f in pending ==> f in own
    ensures SameRound(PlayRound(own, fs, pending, remaining, s, n), PlayRound(own, gs, pending, remaining, u, n), own)
  {
    assert s.polls(n) == u.polls(n) && SameAwait(s.awaits(n), u.awaits(n), own);
    PollAgrees(own, fs, gs, pending, remaining, s.polls(n));
    var r, q := PollOnce(own, fs, pending, remaining, s.polls(n)), PollOnce(own, gs, pending, remaining, u.polls(n));
    if r.Continues? {
      AwaitAgrees(own, r.futures, q.futures, r.pending, r.remaining, s.awaits(n), u.awaits(n));
    }
  }

  lemma {:induction false} RoundsAgree(
      own: seq<Future>, fs: Futures, gs: Futures, pending: set<Future>, remaining: real, s: Script, u: Script, n: nat)
    requires pending != {} && Agree(fs, gs, own) && SameForOwner(s, u, own)
    requires forall f :: f in pending ==> f in own
    ensures var o, p := WaitFrom(own, fs, pending, remaining, s, n), WaitFrom(own, gs, pending, remaining, u, n);
      o.verdict == p.verdict && o.rounds == p.rounds && Agree(o.futures, p.futures, own)
    decreases Budget(pending, remaining)
  {
    RoundAgrees(own, fs, gs, pending, remaining, s, u, n);
    RoundsCost(own, fs, pending, remaining, s, n);
    var r, q := PlayRound(own, fs, pending, remaining, s, n), PlayRound(own, gs, pending, remaining, u, n);
    if r.Continues? {
      RoundsAgree(own, r.futures, q.futures, r.pending, r.remaining, s, u, n + 1);
    }
  }

  /**
   Other workers' queued messages are irrelevant: whatever is reported about them, and whenever,
   a worker's wait ends after the same number of rounds with the same verdict and the same reports
   on its own batch.
   */
  lemma OthersAreIrrelevant(own: seq<Future>, fs: Futures, gs: Futures, timeout: real, s: Script, u: Script)
    requires Agree(fs, gs, own) && SameForOwner(s, u, own)
    ensures var o, p := Wait(own, fs, timeout, s), Wait(own, gs, timeout, u);
      o.verdict == p.verdict && o.rounds == p.rounds && Agree(o.futures, p.futures, own)
  {
    if own != [] {
      assert own[0] in ToSet(own);
      RoundsAgree(own, fs, gs, ToSet(own), timeout, s, u, 0);
    }
  }
}
