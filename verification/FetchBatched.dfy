/**
  op-node/l1/batching.go: fetchBatched sends requests in batches to worker goroutines and retries the
  elements that fail. The model is the interleaving of the main loop and the workers; every request
  is named by its index in the caller's slice.
 */
module FetchBatched {
  import opened Numbers

  datatype Params = Params(maxRetry: int, maxPerBatch: nat, maxParallel: nat)
  {
    function ExpectedBatches(n: nat): nat
      requires maxPerBatch > 0
    {
      (n + maxPerBatch - 1) / maxPerBatch
    }

    /** The number of workers, and the capacity of both channels. */
    function Parallel(n: nat): nat
      requires maxPerBatch > 0
    {
      if maxParallel > ExpectedBatches(n) then ExpectedBatches(n) else maxParallel
    }

    function MaxCount(n: nat): int
      requires maxPerBatch > 0
    {
      ExpectedBatches(n) * maxRetry
    }
  }

  /**
    What a worker reports of a batch: the elements to retry and the number of the others, or a
    failure of the whole call. The elements that succeeded and the batch of a failed call are history.
   */
  datatype BatchResult =
    | Answered(failed: seq<nat>, success: int, fetched: seq<nat>)
    | Failed(batch: seq<nat>)

  datatype Worker = Idle | Calling(batch: seq<nat>) | Writing(result: BatchResult)

  /** BatchFailed keeps the batch of the failed call as history. */
  datatype Outcome = AllFetched | TooManyRetries | BatchFailed(batch: seq<nat>) | Cancelled

  /** Where the main goroutine is: in parallelRequests with i batches sent, at the checks, at the select, or done. */
  datatype Pc = Scheduling(i: nat) | Checking | Selecting | Returned(outcome: Outcome)

  /** sent, succeeded and retired are history: batches sent, successful attempts, successes counted by the main loop. */
  datatype State = State(
    requests: seq<nat>,
    tasks: seq<seq<nat>>,
    workers: seq<Worker>,
    completed: seq<BatchResult>,
    awaited: int,
    count: int,
    pc: Pc,
    sent: nat,
    succeeded: seq<nat>,
    retired: seq<nat>)

  /** Answer carries, for each element of the batch, whether its own request failed. */
  datatype Event =
    | Schedule | Check | Tick | Receive | Cancel
    | Take(w: nat) | Answer(w: nat, errs: seq<bool>) | CallFails(w: nat) | Write(w: nat)

  // ----- One call of a worker -----

  /** The elements with the given error flag, in order; an element without a flag has not failed. */
  function Select(batch: seq<nat>, errs: seq<bool>, flag: bool): seq<nat> {
    if batch == [] then []
    else
      var n := |batch| - 1;
      var init, err := Select(batch[..n], errs, flag), n < |errs| && errs[n];
      if err == flag then init + [batch[n]] else init
  }

  /** The loop of batchRequest over the answered elements. */
  method BatchRequest(missing: seq<nat>, errs: seq<bool>) returns (failed: seq<nat>)
    ensures failed == Select(missing, errs, true)
  {
    failed := [];
    for i := 0 to |missing|
      invariant failed == Select(missing[..i], errs, true)
    {
      assert missing[..i + 1][..i] == missing[..i];
      if i < |errs| && errs[i] {
        failed := failed + [missing[i]];
        continue;
      }
    }
    assert missing[..|missing|] == missing;
  }

  // ----- The interleaving -----

  function Iota(n: nat): (s: seq<nat>)
    ensures |s| == n && forall i :: 0 <= i < n ==> s[i] == i
  {
    seq(n, i => i)
  }

  function Start(p: Params, n: nat): State
    requires p.maxPerBatch > 0
  {
    State(Iota(n), [], seq(p.Parallel(n), _ => Idle), [], n, 0, Scheduling(0), 0, [], [])
  }

  /** The next batch that parallelRequests cuts off the queue. */
  function NextBatch(p: Params, requests: seq<nat>): seq<nat> {
    if |requests| > p.maxPerBatch then requests[..p.maxPerBatch] else requests
  }

  function MainStep(p: Params, n: nat, s: State, e: Event): State
    requires p.maxPerBatch > 0
  {
    match (s.pc, e)
    case (Scheduling(i), Schedule) =>
      if i < p.Parallel(n) && |s.requests| > 0 then
        if |s.tasks| < p.Parallel(n) then
          var batch := NextBatch(p, s.requests);
          s.(requests := s.requests[|batch|..], tasks := s.tasks + [batch], pc := Scheduling(i + 1), sent := s.sent + 1)
        else s
      else s.(count := s.count + i, pc := Checking)
    case (Checking, Check) =>
      if s.awaited <= 0 then s.(pc := Returned(AllFetched))
      else if s.count > p.MaxCount(n) then s.(pc := Returned(TooManyRetries))
      else s.(pc := Selecting)
    case (Selecting, Tick) => s.(pc := Scheduling(0))
    case (Selecting, Cancel) => s.(pc := Returned(Cancelled))
    case (Selecting, Receive) =>
      if s.completed == [] then s
      else
        var result, s' := s.completed[0], s.(completed := s.completed[1..]);
        if result.Failed? then s'.(pc := Returned(BatchFailed(result.batch)))
        else
          s'.(requests := s.requests + result.failed, awaited := s.awaited - result.success, pc := Checking,
              retired := s.retired + result.fetched)
    case _ => s
  }

  function WorkerStep(p: Params, n: nat, s: State, e: Event): State
    requires p.maxPerBatch > 0
  {
    match e
    case Take(w) =>
      if w < |s.workers| && s.workers[w].Idle? && s.tasks != []
      then s.(workers := s.workers[w := Calling(s.tasks[0])], tasks := s.tasks[1..])
      else s
    case Answer(w, errs) =>
      if w < |s.workers| && s.workers[w].Calling? then
        var batch := s.workers[w].batch;
        var failed, fetched := Select(batch, errs, true), Select(batch, errs, false);
        s.(workers := s.workers[w := Writing(Answered(failed, |batch| - |failed|, fetched))],
           succeeded := s.succeeded + fetched)
      else s
    case CallFails(w) =>
      if w < |s.workers| && s.workers[w].Calling?
      then s.(workers := s.workers[w := Writing(Failed(s.workers[w].batch))])
      else s
    case Write(w) =>
      if w < |s.workers| && s.workers[w].Writing? && |s.completed| < p.Parallel(n)
      then s.(workers := s.workers[w := Idle], completed := s.completed + [s.workers[w].result])
      else s
    case _ => s
  }

  /** An event that the state does not enable changes nothing. */
  function Step(p: Params, n: nat, s: State, e: Event): State
    requires p.maxPerBatch > 0
  {
    if e.Take? || e.Answer? || e.CallFails? || e.Write? then WorkerStep(p, n, s, e) else MainStep(p, n, s, e)
  }

  function Run(p: Params, n: nat, s: State, events: seq<Event>): State
    requires p.maxPerBatch > 0
    decreases |events|
  {
    if events == [] then s else Run(p, n, Step(p, n, s, events[0]), events[1..])
  }

  // ----- Counting elements -----

  /** A way to count the elements of a sequence: all of them, or the occurrences of one. */
  type Weight = seq<nat> -> nat

  ghost predicate Additive(wt: Weight) {
    && wt([]) == 0
    && forall a, b :: wt(a + b) == wt(a) + wt(b)
  }

  function Length(s: seq<nat>): nat {
    |s|
  }

  function Occurrences(x: nat): Weight {
    (s: seq<nat>) => multiset(s)[x]
  }

  lemma WeightsAdditive(x: nat)
    ensures Additive(Length) && Additive(Occurrences(x))
  {
  }

  /** The failed elements and the others make up the batch. */
  lemma {:induction false} SelectSplits(wt: Weight, batch: seq<nat>, errs: seq<bool>)
    requires Additive(wt)
    ensures wt(Select(batch, errs, true)) + wt(Select(batch, errs, false)) == wt(batch)
  {
    if batch != [] {
      var n := |batch| - 1;
      SelectSplits(wt, batch[..n], errs);
      assert batch == batch[..n] + [batch[n]];
    }
  }

  function Sum<T>(f: T -> nat, xs: seq<T>): nat {
    if xs == [] then 0 else f(xs[0]) + Sum(f, xs[1..])
  }

  lemma {:induction false} SumAppend<T>(f: T -> nat, xs: seq<T>, x: T)
    ensures Sum(f, xs + [x]) == Sum(f, xs) + f(x)
    decreases |xs|
  {
    if xs == [] {
      assert [] + [x] == [x] && [x][1..] == [];
    } else {
      SumAppend(f, xs[1..], x);
      assert (xs + [x])[1..] == xs[1..] + [x];
    }
  }

  lemma {:induction false} SumUpdate<T>(f: T -> nat, xs: seq<T>, i: nat, x: T)
    requires i < |xs|
    ensures Sum(f, xs[i := x]) + f(xs[i]) == Sum(f, xs) + f(x)
    decreases |xs|
  {
    if i == 0 {
      assert xs[0 := x][1..] == xs[1..];
    } else {
      SumUpdate(f, xs[1..], i - 1, x);
      assert xs[i := x][1..] == xs[1..][i - 1 := x];
    }
  }

  lemma {:induction false} SumZero<T>(f: T -> nat, xs: seq<T>)
    ensures Sum(f, xs) == 0 <==> forall i :: 0 <= i < |xs| ==> f(xs[i]) == 0
    decreases |xs|
  {
    if xs != [] {
      SumZero(f, xs[1..]);
      assert forall i :: 0 < i < |xs| ==> xs[i] == xs[1..][i - 1];
    }
  }

  function WeightOfResult(wt: Weight, r: BatchResult): nat {
    if r.Failed? then wt(r.batch) else wt(r.failed) + wt(r.fetched)
  }

  function WeightOfWorker(wt: Weight, w: Worker): nat {
    match w
    case Idle => 0
    case Calling(batch) => wt(batch)
    case Writing(result) => WeightOfResult(wt, result)
  }

  function ResultWeight(wt: Weight): BatchResult -> nat {
    (r: BatchResult) => WeightOfResult(wt, r)
  }

  function WorkerWeight(wt: Weight): Worker -> nat {
    (w: Worker) => WeightOfWorker(wt, w)
  }

  function MainWeight(wt: Weight, pc: Pc): nat {
    if pc.Returned? && pc.outcome.BatchFailed? then wt(pc.outcome.batch) else 0
  }

  /** What is in the queue, the task channel, the workers and the results that are not accounted for. */
  function Held(wt: Weight, s: State): nat {
    wt(s.requests) + Sum(wt, s.tasks) + Sum(WorkerWeight(wt), s.workers)
    + Sum(ResultWeight(wt), s.completed) + MainWeight(wt, s.pc)
  }

  function FetchedByResult(wt: Weight, r: BatchResult): nat {
    if r.Answered? then wt(r.fetched) else 0
  }

  function FetchedByWorker(wt: Weight, w: Worker): nat {
    if w.Writing? then FetchedByResult(wt, w.result) else 0
  }

  function ResultFetched(wt: Weight): BatchResult -> nat {
    (r: BatchResult) => FetchedByResult(wt, r)
  }

  function WorkerFetched(wt: Weight): Worker -> nat {
    (w: Worker) => FetchedByWorker(wt, w)
  }

  /** The successes that the main loop has not read yet. */
  function Unread(wt: Weight, s: State): nat {
    Sum(WorkerFetched(wt), s.workers) + Sum(ResultFetched(wt), s.completed)
  }

  // ----- Conservation -----

  /** What a step retires. */
  function Gain(s: State, e: Event): seq<nat> {
    if s.pc.Selecting? && e.Receive? && s.completed != [] && s.completed[0].Answered?
    then s.completed[0].fetched
    else []
  }

  function Successes(s: State, e: Event): seq<nat> {
    if e.Answer? && e.w < |s.workers| && s.workers[e.w].Calling?
    then Select(s.workers[e.w].batch, e.errs, false)
    else []
  }

  lemma SendConserves(wt: Weight, p: Params, n: nat, s: State)
    requires p.maxPerBatch > 0 && Additive(wt) && s.pc.Scheduling?
    ensures Held(wt, s) == Held(wt, MainStep(p, n, s, Schedule))
  {
    var batch := NextBatch(p, s.requests);
    SumAppend(wt, s.tasks, batch);
    assert s.requests == batch + s.requests[|batch|..];
  }

  lemma ReceiveConserves(wt: Weight, p: Params, n: nat, s: State)
    requires p.maxPerBatch > 0 && Additive(wt) && s.pc.Selecting? && s.completed != []
    ensures var s' := MainStep(p, n, s, Receive);
            Held(wt, s) == Held(wt, s') + wt(Gain(s, Receive)) && Unread(wt, s) == Unread(wt, s') + wt(Gain(s, Receive))
  {
    var r := s.completed[0];
    assert Sum(ResultWeight(wt), s.completed) == WeightOfResult(wt, r) + Sum(ResultWeight(wt), s.completed[1..]);
    assert Sum(ResultFetched(wt), s.completed) == FetchedByResult(wt, r) + Sum(ResultFetched(wt), s.completed[1..]);
  }

  lemma MainConserves(wt: Weight, p: Params, n: nat, s: State, e: Event)
    requires p.maxPerBatch > 0 && Additive(wt)
    ensures var s' := MainStep(p, n, s, e);
            Held(wt, s) == Held(wt, s') + wt(Gain(s, e)) && Unread(wt, s) == Unread(wt, s') + wt(Gain(s, e))
  {
    if s.pc.Scheduling? && e.Schedule? {
      SendConserves(wt, p, n, s);
    } else if s.pc.Selecting? && e.Receive? && s.completed != [] {
      ReceiveConserves(wt, p, n, s);
    }
  }

  lemma WorkerConserves(wt: Weight, p: Params, n: nat, s: State, e: Event)
    requires p.maxPerBatch > 0 && Additive(wt)
    ensures var s' := WorkerStep(p, n, s, e);
            Held(wt, s) == Held(wt, s') && Unread(wt, s') == Unread(wt, s) + wt(Successes(s, e))
  {
    var s' := WorkerStep(p, n, s, e);
    if (e.Take? || e.Answer? || e.CallFails? || e.Write?) && e.w < |s.workers| {
      SumUpdate(WorkerWeight(wt), s.workers, e.w, s'.workers[e.w]);
      SumUpdate(WorkerFetched(wt), s.workers, e.w, s'.workers[e.w]);
      assert s.workers[e.w := s.workers[e.w]] == s.workers;
      match e
      case Answer(w, errs) => if s.workers[w].Calling? { SelectSplits(wt, s.workers[w].batch, errs); }
      case Write(w) =>
        if s.workers[w].Writing? {
          SumAppend(ResultWeight(wt), s.completed, s.workers[w].result);
          SumAppend(ResultFetched(wt), s.completed, s.workers[w].result);
        }
      case _ =>
    }
  }

  lemma MainHistory(p: Params, n: nat, s: State, e: Event)
    requires p.maxPerBatch > 0
    ensures MainStep(p, n, s, e).retired == s.retired + Gain(s, e) && MainStep(p, n, s, e).succeeded == s.succeeded
  {
    assert s.retired + [] == s.retired;
  }

  lemma WorkerHistory(p: Params, n: nat, s: State, e: Event)
    requires p.maxPerBatch > 0
    ensures WorkerStep(p, n, s, e).retired == s.retired
            && WorkerStep(p, n, s, e).succeeded == s.succeeded + Successes(s, e)
  {
    assert s.succeeded + [] == s.succeeded;
  }

  lemma MainBalanced(wt: Weight, p: Params, n: nat, s: State, e: Event)
    requires p.maxPerBatch > 0 && Additive(wt) && Balanced(wt, n, s)
    ensures Balanced(wt, n, MainStep(p, n, s, e))
  {
    MainConserves(wt, p, n, s, e);
    MainHistory(p, n, s, e);
  }

  lemma WorkerBalanced(wt: Weight, p: Params, n: nat, s: State, e: Event)
    requires p.maxPerBatch > 0 && Additive(wt) && Balanced(wt, n, s)
    ensures Balanced(wt, n, WorkerStep(p, n, s, e))
  {
    WorkerConserves(wt, p, n, s, e);
    WorkerHistory(p, n, s, e);
  }

  lemma StepConserves(wt: Weight, p: Params, n: nat, s: State, e: Event)
    requires p.maxPerBatch > 0 && Additive(wt) && Balanced(wt, n, s)
    ensures Balanced(wt, n, Step(p, n, s, e))
  {
    if e.Take? || e.Answer? || e.CallFails? || e.Write? {
      WorkerBalanced(wt, p, n, s, e);
    } else {
      MainBalanced(wt, p, n, s, e);
    }
  }

  /** Every element is held or retired; every success is retired or waits to be read. */
  ghost predicate Balanced(wt: Weight, n: nat, s: State) {
    && Held(wt, s) + wt(s.retired) == wt(Iota(n))
    && wt(s.succeeded) == wt(s.retired) + Unread(wt, s)
  }

  lemma StartBalanced(wt: Weight, p: Params, n: nat)
    requires p.maxPerBatch > 0 && Additive(wt)
    ensures Balanced(wt, n, Start(p, n))
  {
    SumZero(WorkerWeight(wt), Start(p, n).workers);
    SumZero(WorkerFetched(wt), Start(p, n).workers);
  }

  lemma {:induction false} RunConserves(wt: Weight, p: Params, n: nat, s: State, events: seq<Event>)
    requires p.maxPerBatch > 0 && Additive(wt) && Balanced(wt, n, s)
    ensures Balanced(wt, n, Run(p, n, s, events))
    decreases |events|
  {
    if events != [] {
      StepConserves(wt, p, n, s, events[0]);
      RunConserves(wt, p, n, Step(p, n, s, events[0]), events[1..]);
    }
  }

  // ----- Shapes and counters -----

  /** A report counts its successes, and is of a batch that was not empty. */
  predicate WfResult(r: BatchResult) {
    if r.Failed? then r.batch != [] else r.success == |r.fetched| && |r.failed| + |r.fetched| > 0
  }

  predicate WfWorker(w: Worker) {
    match w
    case Idle => true
    case Calling(batch) => batch != []
    case Writing(result) => WfResult(result)
  }

  ghost predicate Shaped(p: Params, n: nat, s: State)
    requires p.maxPerBatch > 0
  {
    && |s.workers| == p.Parallel(n) && |s.tasks| <= p.Parallel(n) && |s.completed| <= p.Parallel(n)
    && (forall i :: 0 <= i < |s.tasks| ==> s.tasks[i] != [])
    && (forall i :: 0 <= i < |s.workers| ==> WfWorker(s.workers[i]))
    && (forall i :: 0 <= i < |s.completed| ==> WfResult(s.completed[i]))
  }

  lemma StepShaped(p: Params, n: nat, s: State, e: Event)
    requires p.maxPerBatch > 0 && Shaped(p, n, s)
    ensures Shaped(p, n, Step(p, n, s, e))
  {
    if e.Answer? && e.w < |s.workers| && s.workers[e.w].Calling? {
      WeightsAdditive(0);
      SelectSplits(Length, s.workers[e.w].batch, e.errs);
    }
  }

  function Max0(x: int): nat {
    if x < 0 then 0 else x
  }

  /** How the batches sent relate to the retry counter, and what awaited counts. */
  ghost predicate Counted(p: Params, n: nat, s: State)
    requires p.maxPerBatch > 0
  {
    && s.sent == s.count + (if s.pc.Scheduling? then s.pc.i else 0)
    && (s.pc.Scheduling? ==> s.pc.i <= p.Parallel(n) && s.count <= Max0(p.MaxCount(n)))
    && (s.pc.Selecting? ==> s.count <= p.MaxCount(n) && s.awaited > 0)
    && (s.pc == Returned(TooManyRetries) ==> s.count > p.MaxCount(n) && s.awaited > 0)
    && s.sent <= Max0(p.MaxCount(n)) + p.Parallel(n)
    && s.awaited + |s.retired| == n
    && (s.pc == Returned(AllFetched) ==> s.awaited <= 0)
  }

  lemma StepCounted(p: Params, n: nat, s: State, e: Event)
    requires p.maxPerBatch > 0 && Shaped(p, n, s) && Counted(p, n, s)
    ensures Counted(p, n, Step(p, n, s, e))
  {
  }

  lemma {:induction false} RunShaped(p: Params, n: nat, s: State, events: seq<Event>)
    requires p.maxPerBatch > 0 && Shaped(p, n, s) && Counted(p, n, s)
    ensures Shaped(p, n, Run(p, n, s, events)) && Counted(p, n, Run(p, n, s, events))
    decreases |events|
  {
    if events != [] {
      StepShaped(p, n, s, events[0]);
      StepCounted(p, n, s, events[0]);
      RunShaped(p, n, Step(p, n, s, events[0]), events[1..]);
    }
  }

  // ----- Whole runs -----

  lemma IotaOccurrences(n: nat, x: nat)
    ensures Occurrences(x)(Iota(n)) == if x < n then 1 else 0
  {
    if n > 0 {
      IotaOccurrences(n - 1, x);
      assert Iota(n) == Iota(n - 1) + [n - 1];
    }
  }

  /**
    In every interleaving, awaited is the number of elements in the queue, the task channel, the
    workers and the unread results together; every request is held exactly once or was retired
    exactly once, and has at most one successful attempt.
   */
  lemma AwaitedIsHeld(p: Params, n: nat, events: seq<Event>, x: nat)
    requires p.maxPerBatch > 0 && x < n
    ensures var s := Run(p, n, Start(p, n), events);
            && s.awaited == Held(Length, s)
            && Held(Occurrences(x), s) + multiset(s.retired)[x] == 1
            && multiset(s.retired)[x] <= multiset(s.succeeded)[x] <= 1
  {
    var s := Run(p, n, Start(p, n), events);
    WeightsAdditive(x);
    StartBalanced(Length, p, n);
    StartBalanced(Occurrences(x), p, n);
    RunConserves(Length, p, n, Start(p, n), events);
    RunConserves(Occurrences(x), p, n, Start(p, n), events);
    RunShaped(p, n, Start(p, n), events);
    IotaOccurrences(n, x);
    UnreadIsHeld(Occurrences(x), s);
  }

  lemma {:induction false} SumMonotone<T>(f: T -> nat, g: T -> nat, xs: seq<T>)
    requires forall i :: 0 <= i < |xs| ==> f(xs[i]) <= g(xs[i])
    ensures Sum(f, xs) <= Sum(g, xs)
    decreases |xs|
  {
    if xs != [] {
      assert forall i :: 0 <= i < |xs| - 1 ==> xs[1..][i] == xs[i + 1];
      SumMonotone(f, g, xs[1..]);
    }
  }

  lemma UnreadIsHeld(wt: Weight, s: State)
    ensures Unread(wt, s) <= Held(wt, s)
  {
    SumMonotone(WorkerFetched(wt), WorkerWeight(wt), s.workers);
    SumMonotone(ResultFetched(wt), ResultWeight(wt), s.completed);
  }

  lemma HeldMonotone(x: nat, s: State)
    ensures Held(Occurrences(x), s) <= Held(Length, s)
  {
    forall b: seq<nat> ensures Occurrences(x)(b) <= Length(b) {
      assert multiset(b)[x] <= |multiset(b)|;
    }
    SumMonotone(Occurrences(x), Length, s.tasks);
    SumMonotone(WorkerWeight(Occurrences(x)), WorkerWeight(Length), s.workers);
    SumMonotone(ResultWeight(Occurrences(x)), ResultWeight(Length), s.completed);
  }

  /** Success is reported only when every request has had exactly one successful attempt and none is held anywhere. */
  lemma AllFetchedIsComplete(p: Params, n: nat, events: seq<Event>, x: nat)
    requires p.maxPerBatch > 0 && x < n
    requires Run(p, n, Start(p, n), events).pc == Returned(AllFetched)
    ensures var s := Run(p, n, Start(p, n), events);
            && Held(Length, s) == 0
            && multiset(s.succeeded)[x] == multiset(s.retired)[x] == 1
  {
    RunShaped(p, n, Start(p, n), events);
    AwaitedIsHeld(p, n, events, x);
    HeldMonotone(x, Run(p, n, Start(p, n), events));
  }

  /**
    At its checks the main loop reports success exactly when every request was retired, and too many retries exactly
    when some was not and more batches were sent than maxRetry for each expected one. It never
    does either anywhere else, and waits for results only while there are requests to wait for.
   */
  lemma ChecksExact(p: Params, n: nat, events: seq<Event>)
    requires p.maxPerBatch > 0
    ensures var s := Run(p, n, Start(p, n), events);
            var next := Step(p, n, s, Check).pc;
            && (s.pc == Checking ==>
                  && (next == Returned(AllFetched) <==> |s.retired| >= n)
                  && (next == Returned(TooManyRetries) <==>
                        |s.retired| < n && s.sent > p.ExpectedBatches(n) * p.maxRetry))
            && (s.pc == Returned(TooManyRetries) ==>
                  |s.retired| < n && s.sent > p.ExpectedBatches(n) * p.maxRetry)
            && (s.pc == Returned(AllFetched) ==> |s.retired| >= n)
            && (s.pc == Selecting ==> |s.retired| < n)
  {
    RunShaped(p, n, Start(p, n), events);
  }

  /** The number of batches ever sent is bounded, whatever the remote does. */
  lemma SentBounded(p: Params, n: nat, events: seq<Event>)
    requires p.maxPerBatch > 0
    ensures Run(p, n, Start(p, n), events).sent <= Max0(p.MaxCount(n)) + p.Parallel(n)
  {
    RunShaped(p, n, Start(p, n), events);
  }

  // ----- How many batches are under way -----

  /** Cutting a batch off the queue leaves one batch less to cut. */
  lemma CutOne(p: Params, q: nat)
    requires p.maxPerBatch > 0 && q > 0
    ensures var m := p.maxPerBatch; p.ExpectedBatches(q) == p.ExpectedBatches(if q > m then q - m else 0) + 1
  {
    var m := p.maxPerBatch;
    if q > m {
      DivStep(q - 1, m);
    } else {
      DivStep(q - 1, m);
      assert (q - 1) / m == 0 && (m - 1) / m == 0;
    }
  }

  /** Putting back at most a batch adds at most one batch to cut. */
  lemma PutBackOne(p: Params, q: nat, f: nat)
    requires p.maxPerBatch > 0 && f <= p.maxPerBatch
    ensures p.ExpectedBatches(q + f) <= p.ExpectedBatches(q) + 1
  {
    var m := p.maxPerBatch;
    DivMonotone(q + f + m - 1, q + m - 1 + m, m);
    DivStep(q + m - 1, m);
  }

  function BusyWorker(w: Worker): nat {
    if w.Idle? then 0 else 1
  }

  /** The batches in the task channel, the workers and the unread results. */
  function InFlight(s: State): nat {
    |s.tasks| + Sum(BusyWorker, s.workers) + |s.completed|
  }

  predicate SmallResult(p: Params, r: BatchResult) {
    r.Answered? ==> |r.failed| <= p.maxPerBatch
  }

  predicate SmallWorker(p: Params, w: Worker) {
    match w
    case Idle => true
    case Calling(batch) => |batch| <= p.maxPerBatch
    case Writing(result) => SmallResult(p, result)
  }

  /** No batch is larger than allowed. */
  ghost predicate Small(p: Params, s: State) {
    && (forall i :: 0 <= i < |s.tasks| ==> |s.tasks[i]| <= p.maxPerBatch)
    && (forall i :: 0 <= i < |s.workers| ==> SmallWorker(p, s.workers[i]))
    && (forall i :: 0 <= i < |s.completed| ==> SmallResult(p, s.completed[i]))
  }

  /** Batches under way and batches still to cut are never more than the expected ones. */
  ghost predicate Packed(p: Params, n: nat, s: State)
    requires p.maxPerBatch > 0
  {
    && Small(p, s)
    && InFlight(s) + p.ExpectedBatches(|s.requests|) <= p.ExpectedBatches(n)
    && InFlight(s) <= s.sent
  }

  lemma StepSmall(p: Params, n: nat, s: State, e: Event)
    requires p.maxPerBatch > 0 && Small(p, s)
    ensures Small(p, Step(p, n, s, e))
  {
    if e.Answer? && e.w < |s.workers| && s.workers[e.w].Calling? {
      WeightsAdditive(0);
      assert SmallWorker(p, s.workers[e.w]);
      SelectSplits(Length, s.workers[e.w].batch, e.errs);
    }
  }

  lemma MainPacked(p: Params, n: nat, s: State, e: Event)
    requires p.maxPerBatch > 0 && Packed(p, n, s)
    ensures var s' := MainStep(p, n, s, e);
            && InFlight(s') + p.ExpectedBatches(|s'.requests|) <= p.ExpectedBatches(n)
            && InFlight(s') <= s'.sent
  {
    if s.requests != [] {
      CutOne(p, |s.requests|);
    }
    if s.completed != [] && s.completed[0].Answered? {
      assert SmallResult(p, s.completed[0]);
      PutBackOne(p, |s.requests|, |s.completed[0].failed|);
    }
  }

  lemma WorkerPacked(p: Params, n: nat, s: State, e: Event)
    requires p.maxPerBatch > 0
    ensures var s' := WorkerStep(p, n, s, e);
            InFlight(s') == InFlight(s) && s'.requests == s.requests && s'.sent == s.sent
  {
    var s' := WorkerStep(p, n, s, e);
    if (e.Take? || e.Answer? || e.CallFails? || e.Write?) && e.w < |s.workers| {
      SumUpdate(BusyWorker, s.workers, e.w, s'.workers[e.w]);
      assert s.workers[e.w := s.workers[e.w]] == s.workers;
    }
  }

  lemma StepPacked(p: Params, n: nat, s: State, e: Event)
    requires p.maxPerBatch > 0 && Packed(p, n, s)
    ensures Packed(p, n, Step(p, n, s, e))
  {
    StepSmall(p, n, s, e);
    if e.Take? || e.Answer? || e.CallFails? || e.Write? {
      WorkerPacked(p, n, s, e);
    } else {
      MainPacked(p, n, s, e);
    }
  }

  lemma {:induction false} RunPacked(p: Params, n: nat, s: State, events: seq<Event>)
    requires p.maxPerBatch > 0 && Packed(p, n, s)
    ensures Packed(p, n, Run(p, n, s, events))
    decreases |events|
  {
    if events != [] {
      StepPacked(p, n, s, events[0]);
      RunPacked(p, n, Step(p, n, s, events[0]), events[1..]);
    }
  }

  ghost predicate Reachable(p: Params, n: nat, s: State)
    requires p.maxPerBatch > 0
  {
    exists events :: Run(p, n, Start(p, n), events) == s
  }

  lemma ReachableFacts(p: Params, n: nat, s: State)
    requires p.maxPerBatch > 0 && Reachable(p, n, s)
    ensures Shaped(p, n, s) && Counted(p, n, s) && Packed(p, n, s)
  {
    var events :| Run(p, n, Start(p, n), events) == s;
    SumZero(BusyWorker, Start(p, n).workers);
    RunShaped(p, n, Start(p, n), events);
    RunPacked(p, n, Start(p, n), events);
  }

  // ----- When goroutines block -----

  /** No goroutine can move, and the call has not returned. */
  ghost predicate Deadlocked(p: Params, n: nat, s: State)
    requires p.maxPerBatch > 0
  {
    !s.pc.Returned? && forall e :: Step(p, n, s, e) == s
  }

  /** Worker w waits to report a result and will wait whatever happens. */
  ghost predicate StuckWriting(p: Params, n: nat, s: State, w: nat)
    requires p.maxPerBatch > 0
  {
    && w < |s.workers| && s.workers[w].Writing?
    && forall events :: w < |Run(p, n, s, events).workers| && Run(p, n, s, events).workers[w] == s.workers[w]
  }

  lemma {:induction false} SumAtLeast<T>(f: T -> nat, xs: seq<T>)
    requires forall i :: 0 <= i < |xs| ==> f(xs[i]) >= 1
    ensures Sum(f, xs) >= |xs|
    decreases |xs|
  {
    if xs != [] {
      assert forall i :: 0 <= i < |xs| - 1 ==> xs[1..][i] == xs[i + 1];
      SumAtLeast(f, xs[1..]);
    }
  }

  lemma {:induction false} SumContains<T>(f: T -> nat, xs: seq<T>, i: nat)
    requires i < |xs|
    ensures Sum(f, xs) >= f(xs[i])
    decreases |xs|
  {
    if i > 0 {
      SumContains(f, xs[1..], i - 1);
    }
  }

  lemma DeadlockShape(p: Params, n: nat, s: State)
    requires p.maxPerBatch > 0 && Shaped(p, n, s) && Deadlocked(p, n, s)
    ensures |s.tasks| == |s.workers| == |s.completed| == p.Parallel(n) > 0 && s.requests != []
    ensures forall i :: 0 <= i < |s.workers| ==> s.workers[i].Writing?
  {
    assert Step(p, n, s, Schedule) == s && Step(p, n, s, Check) == s && Step(p, n, s, Tick) == s;
    assert s.pc.Scheduling? && s.requests != [] && |s.tasks| == p.Parallel(n) > 0;
    forall i | 0 <= i < |s.workers|
      ensures s.workers[i].Writing? && |s.completed| == p.Parallel(n)
    {
      assert Step(p, n, s, Take(i)) == s && Step(p, n, s, CallFails(i)) == s && Step(p, n, s, Write(i)) == s;
    }
    assert s.workers[0].Writing?;
  }

  /** More than one round is sent only when retries are allowed. */
  lemma SecondRoundNeedsRetry(p: Params, n: nat, s: State)
    requires p.maxPerBatch > 0 && Counted(p, n, s) && s.sent > p.Parallel(n)
    ensures p.maxRetry >= 1
  {
    NoRetryNoCount(p.ExpectedBatches(n), p.maxRetry);
  }

  lemma NoRetryNoCount(batches: nat, maxRetry: int)
    ensures maxRetry <= 0 ==> batches * maxRetry <= 0
  {
  }

  lemma DeadlockNeedsBatches(p: Params, n: nat, s: State)
    requires p.maxPerBatch > 0 && Reachable(p, n, s) && Deadlocked(p, n, s)
    ensures p.maxRetry >= 1 && p.maxParallel > 0 && p.ExpectedBatches(n) > 3 * p.maxParallel
  {
    ReachableFacts(p, n, s);
    DeadlockShape(p, n, s);
    SumAtLeast(BusyWorker, s.workers);
    CutOne(p, |s.requests|);
    SecondRoundNeedsRetry(p, n, s);
  }

  lemma StuckNeedsBatches(p: Params, n: nat, s: State, w: nat)
    requires p.maxPerBatch > 0 && Reachable(p, n, s) && StuckWriting(p, n, s, w)
    ensures p.maxRetry >= 1 && p.maxParallel > 0 && p.ExpectedBatches(n) > p.maxParallel
  {
    ReachableFacts(p, n, s);
    RunOne(p, n, s, Write(w));
    assert Run(p, n, s, [Write(w)]).workers[w] == s.workers[w];
    assert |s.completed| == p.Parallel(n);
    SumContains(BusyWorker, s.workers, w);
    SecondRoundNeedsRetry(p, n, s);
  }

  lemma RunOne(p: Params, n: nat, s: State, e: Event)
    requires p.maxPerBatch > 0
    ensures Run(p, n, s, [e]) == Step(p, n, s, e)
  {
    assert [e][1..] == [];
    assert Run(p, n, Step(p, n, s, e), []) == Step(p, n, s, e);
  }

  // ----- Runs that block -----

  lemma {:induction false} RunAppend(p: Params, n: nat, s: State, events: seq<Event>, e: Event)
    requires p.maxPerBatch > 0
    ensures Run(p, n, s, events + [e]) == Step(p, n, Run(p, n, s, events), e)
    decreases |events|
  {
    if events == [] {
      assert [] + [e] == [e];
      RunOne(p, n, s, e);
    } else {
      RunAppend(p, n, Step(p, n, s, events[0]), events[1..], e);
      assert (events + [e])[1..] == events[1..] + [e];
    }
  }

  lemma ReachableStep(p: Params, n: nat, s: State, e: Event)
    requires p.maxPerBatch > 0 && Reachable(p, n, s)
    ensures Reachable(p, n, Step(p, n, s, e))
  {
    var events :| Run(p, n, Start(p, n), events) == s;
    RunAppend(p, n, Start(p, n), events, e);
  }

  /** A reachable state at which the main loop has read no result yet. */
  ghost predicate Unhurried(p: Params, n: nat, s: State)
    requires p.maxPerBatch > 0
  {
    Reachable(p, n, s) && s.awaited == n && s.sent == InFlight(s)
  }

  ghost predicate AllIdle(ws: seq<Worker>, from: nat) {
    forall i :: from <= i < |ws| ==> ws[i].Idle?
  }

  ghost predicate AllWriting(ws: seq<Worker>, upTo: nat) {
    upTo <= |ws| && forall i :: 0 <= i < upTo ==> ws[i].Writing?
  }

  /** A round of parallelRequests that finds room for every batch it sends. */
  lemma {:induction false} SendRound(p: Params, n: nat, s: State, i: nat) returns (s': State)
    requires p.maxPerBatch > 0 && Unhurried(p, n, s) && s.pc == Scheduling(i) && |s.tasks| == i <= p.Parallel(n)
    ensures Unhurried(p, n, s') && s'.pc == Checking && i <= |s'.tasks| <= p.Parallel(n)
    ensures s'.workers == s.workers && s'.completed == s.completed
    ensures s'.requests == [] || |s'.tasks| == p.Parallel(n)
    ensures s.requests != [] && i < p.Parallel(n) ==> |s'.tasks| > i
    ensures p.ExpectedBatches(|s'.requests|) + |s'.tasks| == p.ExpectedBatches(|s.requests|) + i
    decreases p.Parallel(n) - i
  {
    ReachableStep(p, n, s, Schedule);
    var s1 := Step(p, n, s, Schedule);
    if i < p.Parallel(n) && s.requests != [] {
      CutOne(p, |s.requests|);
      s' := SendRound(p, n, s1, i + 1);
    } else {
      s' := s1;
    }
  }

  /** Between rounds the main loop is back at its select: no limit is exceeded before a result is read. */
  lemma BackToSelect(p: Params, n: nat, s: State) returns (s': State)
    requires p.maxPerBatch > 0 && p.maxRetry >= 1 && n > 0 && Unhurried(p, n, s) && s.pc == Checking
    ensures Unhurried(p, n, s') && s' == s.(pc := Selecting)
  {
    CountFits(p, n, s);
    ReachableStep(p, n, s, Check);
    s' := s.(pc := Selecting);
    assert Step(p, n, s, Check) == s';
  }

  /** As long as no result is read, no more batches are sent than expected. */
  lemma CountFits(p: Params, n: nat, s: State)
    requires p.maxPerBatch > 0 && p.maxRetry >= 1 && Unhurried(p, n, s)
    ensures s.count <= p.MaxCount(n)
  {
    ReachableFacts(p, n, s);
    assert s.count <= p.ExpectedBatches(n);
    MulMonotone(1, p.maxRetry, p.ExpectedBatches(n));
  }

  /** Workers j and up take a task each, and their calls fail. */
  lemma {:induction false} WorkRound(p: Params, n: nat, s: State, j: nat) returns (s': State)
    requires p.maxPerBatch > 0 && Unhurried(p, n, s) && j + |s.tasks| == |s.workers| == p.Parallel(n)
    requires AllWriting(s.workers, j) && AllIdle(s.workers, j)
    ensures Unhurried(p, n, s') && s'.tasks == [] && |s'.workers| == |s.workers| && AllWriting(s'.workers, |s'.workers|)
    ensures s'.completed == s.completed && s'.requests == s.requests && s'.pc == s.pc && s'.count == s.count
    decreases |s.workers| - j
  {
    if j == |s.workers| {
      s' := s;
    } else {
      var s1 := WorkOne(p, n, s, j);
      s' := WorkRound(p, n, s1, j + 1);
    }
  }

  lemma WorkOne(p: Params, n: nat, s: State, j: nat) returns (s': State)
    requires p.maxPerBatch > 0 && Unhurried(p, n, s) && j < |s.workers| && s.workers[j].Idle? && s.tasks != []
    ensures Unhurried(p, n, s')
    ensures s' == s.(tasks := s.tasks[1..], workers := s.workers[j := Writing(Failed(s.tasks[0]))])
  {
    var s1 := Step(p, n, s, Take(j));
    ReachableStep(p, n, s, Take(j));
    WorkerPacked(p, n, s, Take(j));
    s' := Step(p, n, s1, CallFails(j));
    ReachableStep(p, n, s1, CallFails(j));
    WorkerPacked(p, n, s1, CallFails(j));
    assert s.workers[j := Calling(s.tasks[0])][j := Writing(Failed(s.tasks[0]))]
           == s.workers[j := Writing(Failed(s.tasks[0]))];
  }

  /** Workers j and up report, as long as there is room for all of them. */
  lemma {:induction false} WriteRound(p: Params, n: nat, s: State, j: nat) returns (s': State)
    requires p.maxPerBatch > 0 && Unhurried(p, n, s) && |s.completed| == j <= |s.workers| == p.Parallel(n)
    requires (forall i :: 0 <= i < j ==> s.workers[i].Idle?)
             && (forall i :: j <= i < |s.workers| ==> s.workers[i].Writing?)
    ensures Unhurried(p, n, s') && AllIdle(s'.workers, 0) && |s'.workers| == |s'.completed| == p.Parallel(n)
    ensures s'.tasks == s.tasks && s'.requests == s.requests && s'.pc == s.pc
    decreases |s.workers| - j
  {
    if j == |s.workers| {
      s' := s;
    } else {
      var s1 := Step(p, n, s, Write(j));
      ReachableStep(p, n, s, Write(j));
      WorkerPacked(p, n, s, Write(j));
      s' := WriteRound(p, n, s1, j + 1);
    }
  }

  /** The first round sends a full set of batches, and all of them are reported before the main loop reads one. */
  lemma FirstRound(p: Params, n: nat) returns (s': State)
    requires p.maxPerBatch > 0 && p.maxRetry >= 1 && p.maxParallel > 0 && p.ExpectedBatches(n) > p.maxParallel
    ensures Unhurried(p, n, s') && s'.pc == Scheduling(0) && s'.tasks == []
    ensures AllIdle(s'.workers, 0) && |s'.workers| == |s'.completed| == p.Parallel(n) == p.maxParallel
    ensures p.ExpectedBatches(|s'.requests|) == p.ExpectedBatches(n) - p.maxParallel
  {
    var s := Start(p, n);
    NoRequestsNoBatches(p, n);
    SumZero(BusyWorker, s.workers);
    assert Run(p, n, s, []) == s;
    var s1 := SendRound(p, n, s, 0);
    NoRequestsNoBatches(p, |s1.requests|);
    var s2 := NextRound(p, n, s1);
    var s3 := WorkRound(p, n, s2, 0);
    s' := WriteRound(p, n, s3, 0);
  }

  lemma NoRequestsNoBatches(p: Params, q: nat)
    requires p.maxPerBatch > 0
    ensures p.ExpectedBatches(q) == 0 <==> q == 0
  {
    if q > 0 {
      CutOne(p, q);
    } else {
      assert (p.maxPerBatch - 1) / p.maxPerBatch == 0;
    }
  }

  /** The checks pass and the ticker wins the select. */
  lemma NextRound(p: Params, n: nat, s: State) returns (s': State)
    requires p.maxPerBatch > 0 && p.maxRetry >= 1 && n > 0 && Unhurried(p, n, s) && s.pc == Checking
    ensures Unhurried(p, n, s') && s' == s.(pc := Scheduling(0))
  {
    var s1 := BackToSelect(p, n, s);
    ReachableStep(p, n, s1, Tick);
    s' := s1.(pc := Scheduling(0));
    assert Step(p, n, s1, Tick) == s';
  }

  lemma DeadlockReachable(p: Params, n: nat) returns (s: State)
    requires p.maxPerBatch > 0 && p.maxRetry >= 1 && p.maxParallel > 0 && p.ExpectedBatches(n) > 3 * p.maxParallel
    ensures Reachable(p, n, s) && Deadlocked(p, n, s)
  {
    NoRequestsNoBatches(p, n);
    var s1 := FirstRound(p, n);
    var s2 := SendRound(p, n, s1, 0);
    NoRequestsNoBatches(p, |s2.requests|);
    var s3 := NextRound(p, n, s2);
    var s4 := WorkRound(p, n, s3, 0);
    var s5 := SendRound(p, n, s4, 0);
    NoRequestsNoBatches(p, |s5.requests|);
    s := NextRound(p, n, s5);
    AllBlocked(p, n, s);
  }

  lemma AllBlocked(p: Params, n: nat, s: State)
    requires p.maxPerBatch > 0 && s.pc == Scheduling(0) && s.requests != []
    requires |s.tasks| == |s.workers| == |s.completed| == p.Parallel(n) > 0 && AllWriting(s.workers, |s.workers|)
    ensures Deadlocked(p, n, s)
  {
  }

  /** After a return nobody reads results any more. */
  lemma {:induction false} ReturnedStaysFull(p: Params, n: nat, s: State, w: nat, events: seq<Event>)
    requires p.maxPerBatch > 0 && s.pc.Returned? && |s.completed| == p.Parallel(n) && w < |s.workers|
             && s.workers[w].Writing?
    ensures w < |Run(p, n, s, events).workers| && Run(p, n, s, events).workers[w] == s.workers[w]
    decreases |events|
  {
    if events != [] {
      ReturnedStaysFull(p, n, Step(p, n, s, events[0]), w, events[1..]);
    }
  }

  lemma ReturnedIsStuck(p: Params, n: nat, s: State, w: nat)
    requires p.maxPerBatch > 0 && s.pc.Returned? && |s.completed| == p.Parallel(n) && w < |s.workers|
             && s.workers[w].Writing?
    ensures StuckWriting(p, n, s, w)
  {
    forall events ensures w < |Run(p, n, s, events).workers| && Run(p, n, s, events).workers[w] == s.workers[w] {
      ReturnedStaysFull(p, n, s, w, events);
    }
  }

  /** A call that is cancelled with a second round under way leaves a full result channel behind. */
  lemma SecondRoundCancelled(p: Params, n: nat, s: State) returns (s': State)
    requires p.maxPerBatch > 0 && p.maxRetry >= 1 && n > 0 && Unhurried(p, n, s) && s.pc == Scheduling(0)
    requires s.tasks == [] && s.requests != [] && p.Parallel(n) > 0
    ensures Unhurried(p, n, s') && s'.pc == Returned(Cancelled)
    ensures s'.tasks != [] && s'.workers == s.workers && s'.completed == s.completed
  {
    var s1 := SendRound(p, n, s, 0);
    var s2 := BackToSelect(p, n, s1);
    ReachableStep(p, n, s2, Cancel);
    s' := s2.(pc := Returned(Cancelled));
    assert Step(p, n, s2, Cancel) == s';
  }

  lemma StuckReachable(p: Params, n: nat) returns (s: State)
    requires p.maxPerBatch > 0 && p.maxRetry >= 1 && p.maxParallel > 0 && p.ExpectedBatches(n) > p.maxParallel
    ensures Reachable(p, n, s) && StuckWriting(p, n, s, 0)
  {
    NoRequestsNoBatches(p, n);
    var s1 := FirstRound(p, n);
    NoRequestsNoBatches(p, |s1.requests|);
    var s2 := SecondRoundCancelled(p, n, s1);
    s := WorkOne(p, n, s2, 0);
    ReturnedIsStuck(p, n, s, 0);
  }

  /**
    The goroutines can block each other exactly when retries are allowed and there are more than three batches for
    each worker.
   */
  lemma BlockingExact(p: Params, n: nat)
    requires p.maxPerBatch > 0
    ensures (exists s :: Reachable(p, n, s) && Deadlocked(p, n, s)) <==>
              p.maxRetry >= 1 && p.maxParallel > 0 && p.ExpectedBatches(n) > 3 * p.maxParallel
  {
    if p.maxRetry >= 1 && p.maxParallel > 0 && p.ExpectedBatches(n) > 3 * p.maxParallel {
      var s := DeadlockReachable(p, n);
    }
    if s :| Reachable(p, n, s) && Deadlocked(p, n, s) {
      DeadlockNeedsBatches(p, n, s);
    }
  }

  /**
    The capacity of the result channel is said to keep goroutines from getting stuck on writing. A
    worker can get stuck for ever exactly when retries are allowed and there are more batches than workers.
   */
  lemma StuckWriterExact(p: Params, n: nat)
    requires p.maxPerBatch > 0
    ensures (exists s, w :: Reachable(p, n, s) && StuckWriting(p, n, s, w)) <==>
              p.maxRetry >= 1 && p.maxParallel > 0 && p.ExpectedBatches(n) > p.maxParallel
  {
    if p.maxRetry >= 1 && p.maxParallel > 0 && p.ExpectedBatches(n) > p.maxParallel {
      var s := StuckReachable(p, n);
    }
    if s, w: nat :| Reachable(p, n, s) && StuckWriting(p, n, s, w) {
      StuckNeedsBatches(p, n, s, w);
    }
  }

  /** For example, one worker and four requests in batches of one can block; three requests cannot. */
  lemma FourRequestsCanBlock()
    ensures exists s :: Reachable(Params(1, 1, 1), 4, s) && Deadlocked(Params(1, 1, 1), 4, s)
    ensures !exists s :: Reachable(Params(1, 1, 1), 3, s) && Deadlocked(Params(1, 1, 1), 3, s)
  {
    BlockingExact(Params(1, 1, 1), 4);
    BlockingExact(Params(1, 1, 1), 3);
  }
}
