/**
  op-proposer/txmgr/txmgr.go: Send publishes a transaction in goroutines that raise the gas price,
  and waits for a confirmed receipt of one of them. The model is the interleaving of the main loop
  and the publication goroutines.
 */
module TxManager {
  import opened Types
  import opened SendStates

  datatype Settings = Settings(numConfirmations: uint64, safeAbortNonceTooLowCount: nat)

  /** A receipt of a transaction in the block of the given height. */
  datatype TxReceipt = TxReceipt(tx: Hash, height: uint64)

  /** A receipt with, as history, the tip height at which it was found confirmed. */
  datatype Report = Report(receipt: TxReceipt, tip: uint64)

  /** Where a publication goroutine is. Aborting keeps the number of observations its check had seen. */
  datatype Thread =
    | Updating
    | Sending(tx: Hash)
    | Sent(tx: Hash, err: Option<SendError>)
    | Judging
    | Aborting(seen: nat)
    | Querying(tx: Hash)
    | Marking(receipt: TxReceipt)
    | Confirming(receipt: TxReceipt)
    | Unmarking(tx: Hash)
    | Waiting(tx: Hash)
    | Reporting(report: Report)
    | Stopped

  datatype MainState = Running | Confirmed(report: Report) | GaveUp

  /** log, published, parentCancelled and aborts are history. */
  datatype State = State(
    fields: Fields,
    threads: seq<Thread>,
    receiptChan: Option<Report>,
    cancelled: bool,
    main: MainState,
    log: seq<Obs>,
    published: set<Hash>,
    parentCancelled: bool,
    aborts: seq<nat>)

  datatype ReceiptAnswer = Receipt(height: uint64) | NoReceipt | QueryFailed

  /** Moves of the main loop, and moves of a goroutine g with the answer of the call it makes. */
  datatype Event =
    | Resubmit | ParentCancels | SeeDone | SeeReceipt
    | Update(g: nat, tx: Option<Hash>)
    | Publish(g: nat, err: Option<SendError>)
    | Process(g: nat)
    | CheckAbort(g: nat)
    | Abort(g: nat)
    | Query(g: nat, answer: ReceiptAnswer)
    | Mark(g: nat)
    | Tip(g: nat, tip: Option<uint64>)
    | Wake(g: nat)
    | Leave(g: nat)
    | Deliver(g: nat)

  /** txHeight + numConfirmations <= tipHeight + 1 in 64-bit arithmetic. */
  predicate Confirms(receipt: TxReceipt, numConfirmations: uint64, tip: uint64) {
    (receipt.height + numConfirmations) % TWO_64 <= (tip + 1) % TWO_64
  }

  predicate ShouldAbort(cfg: Settings, f: Fields) {
    f.mined == {} && f.low >= cfg.safeAbortNonceTooLowCount
  }

  function Start(): State {
    State(Fields({}, 0), [Updating], None, false, Running, [], {}, false, [])
  }

  /** The next observation that goroutine t records, if its next move records one. */
  function Observation(t: Thread): Option<Obs> {
    match t
    case Sent(_, Some(err)) => if err.nonceTooLow then Some(Low) else None
    case Marking(receipt) => Some(Mined(receipt.tx))
    case Unmarking(tx) => Some(NotMined(tx))
    case _ => None
  }

  /** Where goroutine t goes; fields and observed are what its move can see. */
  function Next(cfg: Settings, t: Thread, e: Event, f: Fields, observed: nat, cancelled: bool): Thread {
    match t
    case Updating => if e.Update? then (if e.tx.Some? then Sending(e.tx.value) else Stopped) else t
    case Sending(tx) => if e.Publish? then Sent(tx, e.err) else t
    case Sent(tx, err) =>
      if !e.Process? then t
      else if err.None? then Querying(tx)
      else if err.value.cancelled then Stopped
      else Judging
    case Judging => if e.CheckAbort? then (if ShouldAbort(cfg, f) then Aborting(observed) else Stopped) else t
    case Aborting(_) => if e.Abort? then Stopped else t
    case Querying(tx) =>
      if !e.Query? then t
      else
        (match e.answer
         case Receipt(height) => Marking(TxReceipt(tx, height))
         case NoReceipt => Unmarking(tx)
         case QueryFailed => Waiting(tx))
    case Marking(receipt) => if e.Mark? then Confirming(receipt) else t
    case Confirming(receipt) =>
      if !e.Tip? then t
      else if e.tip.Some? && Confirms(receipt, cfg.numConfirmations, e.tip.value)
      then Reporting(Report(receipt, e.tip.value))
      else Waiting(receipt.tx)
    case Unmarking(tx) => if e.Mark? then Waiting(tx) else t
    case Waiting(tx) => if e.Wake? then Querying(tx) else if e.Leave? && cancelled then Stopped else t
    case Reporting(_) => if e.Deliver? then Stopped else t
    case Stopped => t
  }

  predicate MainEvent(e: Event) {
    e.Resubmit? || e.ParentCancels? || e.SeeDone? || e.SeeReceipt?
  }

  function MainStep(s: State, e: Event): State {
    match e
    case Resubmit => if s.main.Running? && s.fields.mined == {} then s.(threads := s.threads + [Updating]) else s
    case ParentCancels => s.(cancelled := true, parentCancelled := true)
    case SeeDone => if s.main.Running? && s.cancelled then s.(main := GaveUp) else s
    case SeeReceipt =>
      if s.main.Running? && s.receiptChan.Some?
      then s.(main := Confirmed(s.receiptChan.value), receiptChan := None)
      else s
    case _ => s
  }

  /** A goroutine's move: its own next place, and what it does to the shared state. */
  function ThreadStep(cfg: Settings, s: State, e: Event): State
    requires !MainEvent(e)
  {
    if e.g >= |s.threads| then s
    else
      var t := s.threads[e.g];
      var t' := Next(cfg, t, e, s.fields, |s.log|, s.cancelled);
      var s' := s.(threads := s.threads[e.g := t']);
      if t' == t then s
      else if Observation(t).Some? then
        s'.(fields := Observe(s.fields, Observation(t).value), log := s.log + [Observation(t).value])
      else if t.Sending? && e.err.None? then s'.(published := s.published + {t.tx})
      else if t.Aborting? then s'.(cancelled := true, aborts := s.aborts + [t.seen])
      else if t.Reporting? then s'.(receiptChan := if s.receiptChan.None? then Some(t.report) else s.receiptChan)
      else s'
  }

  function Step(cfg: Settings, s: State, e: Event): State {
    if MainEvent(e) then MainStep(s, e) else ThreadStep(cfg, s, e)
  }

  function Run(cfg: Settings, s: State, events: seq<Event>): State
    decreases |events|
  {
    if events == [] then s else Run(cfg, Step(cfg, s, events[0]), events[1..])
  }

  // ----- Invariants -----

  predicate WfReport(cfg: Settings, published: set<Hash>, r: Report) {
    r.receipt.tx in published && Confirms(r.receipt, cfg.numConfirmations, r.tip)
  }

  /** The first seen observations justify an abort. */
  ghost predicate AbortJustified(cfg: Settings, log: seq<Obs>, seen: nat) {
    && seen <= |log|
    && !AnyMined(log[..seen])
    && exists low: nat :: LowSinceEmptied(log[..seen], low) && low >= cfg.safeAbortNonceTooLowCount
  }

  ghost predicate WfThread(cfg: Settings, published: set<Hash>, log: seq<Obs>, t: Thread) {
    match t
    case Sent(tx, err) => err.None? ==> tx in published
    case Querying(tx) => tx in published
    case Unmarking(tx) => tx in published
    case Waiting(tx) => tx in published
    case Marking(receipt) => receipt.tx in published
    case Confirming(receipt) => receipt.tx in published
    case Reporting(report) => WfReport(cfg, published, report)
    case Aborting(seen) => AbortJustified(cfg, log, seen)
    case _ => true
  }

  ghost predicate ThreadsInv(cfg: Settings, s: State) {
    && Records(s.fields, s.log)
    && forall i :: 0 <= i < |s.threads| ==> WfThread(cfg, s.published, s.log, s.threads[i])
  }

  ghost predicate SharedInv(cfg: Settings, s: State) {
    && (s.receiptChan.Some? ==> WfReport(cfg, s.published, s.receiptChan.value))
    && (s.main.Confirmed? ==> WfReport(cfg, s.published, s.main.report))
    && (forall i :: 0 <= i < |s.aborts| ==> AbortJustified(cfg, s.log, s.aborts[i]))
    && (s.cancelled ==> s.parentCancelled || s.aborts != [])
    && (s.main.GaveUp? ==> s.cancelled)
  }

  ghost predicate Inv(cfg: Settings, s: State) {
    ThreadsInv(cfg, s) && SharedInv(cfg, s)
  }

  lemma AbortStaysJustified(cfg: Settings, log: seq<Obs>, o: Obs, seen: nat)
    requires AbortJustified(cfg, log, seen)
    ensures AbortJustified(cfg, log + [o], seen)
  {
    assert (log + [o])[..seen] == log[..seen];
  }

  lemma WfThreadGrows(cfg: Settings, published: set<Hash>, published': set<Hash>, log: seq<Obs>, o: Obs, t: Thread)
    requires WfThread(cfg, published, log, t) && published <= published'
    ensures WfThread(cfg, published', log, t) && WfThread(cfg, published', log + [o], t)
  {
    if t.Aborting? {
      AbortStaysJustified(cfg, log, o, t.seen);
    }
  }

  /** The thread that moved is still in order. */
  lemma NextWf(cfg: Settings, s: State, t: Thread, e: Event)
    requires Records(s.fields, s.log) && WfThread(cfg, s.published, s.log, t)
    ensures var published := if t.Sending? && e.Publish? && e.err.None? then s.published + {t.tx} else s.published;
            WfThread(cfg, published, s.log, Next(cfg, t, e, s.fields, |s.log|, s.cancelled))
  {
    if t.Judging? && e.CheckAbort? && ShouldAbort(cfg, s.fields) {
      ObserveMined(s.fields, s.log, Low);
      assert s.log[..|s.log|] == s.log;
    }
  }

  lemma ThreadStepThreads(cfg: Settings, s: State, e: Event)
    requires ThreadsInv(cfg, s) && !MainEvent(e)
    ensures ThreadsInv(cfg, ThreadStep(cfg, s, e))
  {
    var s' := ThreadStep(cfg, s, e);
    if s' != s {
      var t := s.threads[e.g];
      var o := if Observation(t).Some? then Observation(t).value else Low;
      var t' := Next(cfg, t, e, s.fields, |s.log|, s.cancelled);
      NextWf(cfg, s, t, e);
      assert WfThread(cfg, s'.published, s.log, t');
      assert s'.log == s.log || s'.log == s.log + [o];
      assert s.published <= s'.published;
      forall i | 0 <= i < |s'.threads| ensures WfThread(cfg, s'.published, s'.log, s'.threads[i]) {
        if i == e.g {
          WfThreadGrows(cfg, s'.published, s'.published, s.log, o, t');
        } else {
          WfThreadGrows(cfg, s.published, s'.published, s.log, o, s.threads[i]);
        }
      }
      ObserveRecords(s.fields, s.log, o);
    }
  }

  lemma ThreadStepShared(cfg: Settings, s: State, e: Event)
    requires Inv(cfg, s) && !MainEvent(e)
    ensures SharedInv(cfg, ThreadStep(cfg, s, e))
  {
    var s' := ThreadStep(cfg, s, e);
    if s' != s {
      var t := s.threads[e.g];
      assert WfThread(cfg, s.published, s.log, t);
      if Observation(t).Some? {
        forall i | 0 <= i < |s.aborts| ensures AbortJustified(cfg, s'.log, s.aborts[i]) {
          AbortStaysJustified(cfg, s.log, Observation(t).value, s.aborts[i]);
        }
      }
    }
  }

  lemma StepInv(cfg: Settings, s: State, e: Event)
    requires Inv(cfg, s)
    ensures Inv(cfg, Step(cfg, s, e))
  {
    if !MainEvent(e) {
      ThreadStepThreads(cfg, s, e);
      ThreadStepShared(cfg, s, e);
    }
  }

  lemma {:induction false} RunInv(cfg: Settings, s: State, events: seq<Event>)
    requires Inv(cfg, s)
    ensures Inv(cfg, Run(cfg, s, events))
    decreases |events|
  {
    if events != [] {
      StepInv(cfg, s, events[0]);
      RunInv(cfg, Step(cfg, s, events[0]), events[1..]);
    }
  }

  lemma StartInv(cfg: Settings)
    ensures Inv(cfg, Start())
  {
    assert LastEmptied([], 0) && CountLow([][0..]) == 0;
  }

  // ----- What Send returns -----

  /** The confirmations of a receipt at a tip height: the block itself is the first. */
  function Confirmations(receipt: TxReceipt, tip: uint64): int {
    tip - receipt.height + 1
  }

  /**
    The 64-bit comparison is the count of confirmations exactly while neither sum wraps; an overflow
    on the left is the only way to report too few.
   */
  lemma ConfirmsExact(receipt: TxReceipt, numConfirmations: uint64, tip: uint64)
    ensures receipt.height + numConfirmations < TWO_64 && tip + 1 < TWO_64 ==>
              (Confirms(receipt, numConfirmations, tip) <==> Confirmations(receipt, tip) >= numConfirmations)
    ensures Confirms(receipt, numConfirmations, tip) && Confirmations(receipt, tip) < numConfirmations ==>
              receipt.height + numConfirmations >= TWO_64
  {
  }

  /**
    No tip makes the comparison report too few confirmations if and only if the sum of height and confirmations fits
    64 bits.
   */
  lemma ConfirmsSoundExact(receipt: TxReceipt, numConfirmations: uint64)
    ensures (forall tip: uint64 :: Confirms(receipt, numConfirmations, tip) ==>
            Confirmations(receipt, tip) >= numConfirmations)
            <==> receipt.height + numConfirmations < TWO_64
  {
    forall tip: uint64 {
      ConfirmsExact(receipt, numConfirmations, tip);
    }
    if receipt.height + numConfirmations >= TWO_64 {
      var tip: uint64 := TWO_64 - 2;
      assert (receipt.height + numConfirmations) % TWO_64 == receipt.height + numConfirmations - TWO_64;
      assert Confirms(receipt, numConfirmations, tip) && Confirmations(receipt, tip) < numConfirmations;
    }
  }

  /** A wrapped sum reports a transaction above the tip as confirmed. */
  lemma ConfirmsWraps()
    ensures Confirms(TxReceipt(0, 1), TWO_64 - 1, 0) && Confirmations(TxReceipt(0, 1), 0) == 0
  {
  }

  /** In every interleaving a returned receipt is of a published transaction, found with enough confirmations. */
  lemma SendReturnsConfirmed(cfg: Settings, events: seq<Event>)
    ensures var s := Run(cfg, Start(), events);
            s.main.Confirmed? ==>
              var Report(receipt, tip) := s.main.report;
              && receipt.tx in s.published
              && Confirms(receipt, cfg.numConfirmations, tip)
              && (receipt.height + cfg.numConfirmations < TWO_64 ==>
                Confirmations(receipt, tip) >= cfg.numConfirmations)
  {
    StartInv(cfg);
    RunInv(cfg, Start(), events);
  }

  /**
    In every interleaving Send gives up only when its caller cancelled or a goroutine aborted; and an
    abort follows a check at which no published transaction counted as mined and enough nonce-too-low
    errors had come in since one last did.
   */
  lemma GivesUpOnlyWhenJustified(cfg: Settings, events: seq<Event>)
    ensures var s := Run(cfg, Start(), events);
            && (s.main.GaveUp? ==> s.parentCancelled || s.aborts != [])
            && forall i :: 0 <= i < |s.aborts| ==> AbortJustified(cfg, s.log, s.aborts[i])
  {
    StartInv(cfg);
    RunInv(cfg, Start(), events);
  }

  // ----- What each move does -----

  lemma StepThreads(cfg: Settings, s: State, e: Event)
    ensures var s' := Step(cfg, s, e);
            if e.Resubmit? && s.main.Running? && s.fields.mined == {}
            then s'.threads == s.threads + [Updating]
            else |s'.threads| == |s.threads|
  {
  }

  /**
    In every interleaving a publication goroutine starts exactly when the resubmission timeout passes in a running Send
    while no transaction was last seen mined; then one is added, and no other move adds or removes one.
   */
  lemma GoroutineStarts(cfg: Settings, events: seq<Event>, e: Event)
    ensures var s := Run(cfg, Start(), events);
            var s' := Step(cfg, s, e);
            if e.Resubmit? && s.main.Running? && !AnyMined(s.log)
            then s'.threads == s.threads + [Updating]
            else |s'.threads| == |s.threads|
  {
    StartInv(cfg);
    RunInv(cfg, Start(), events);
    var s := Run(cfg, Start(), events);
    ObserveMined(s.fields, s.log, Low);
    StepThreads(cfg, s, e);
  }

  /** What a move of goroutine g adds to the observations: one for every recorded answer, once. */
  lemma MoveRecords(cfg: Settings, s: State, e: Event)
    ensures var s' := Step(cfg, s, e);
            if MainEvent(e) || e.g >= |s.threads| then s'.log == s.log && s'.fields == s.fields
            else
              match s.threads[e.g]
              case Sent(_, Some(err)) =>
                s'.log == if e.Process? && err.nonceTooLow then s.log + [Low] else s.log
              case Marking(receipt) => s'.log == if e.Mark? then s.log + [Mined(receipt.tx)] else s.log
              case Unmarking(tx) => s'.log == if e.Mark? then s.log + [NotMined(tx)] else s.log
              case _ => s'.log == s.log && s'.fields == s.fields
  {
  }

  lemma RunFirst(cfg: Settings, s: State, e: Event, rest: seq<Event>)
    ensures Run(cfg, s, [e] + rest) == Run(cfg, Step(cfg, s, e), rest)
  {
    assert ([e] + rest)[1..] == rest;
  }

  /** A goroutine that finds a receipt makes Send return it, exactly when the tip confirms it. */
  lemma ReceiptEndsSend(cfg: Settings, s: State, g: nat, tx: Hash, height: uint64, tip: uint64)
    requires s.main.Running? && s.receiptChan.None? && g < |s.threads| && s.threads[g] == Querying(tx)
    ensures var receipt := TxReceipt(tx, height);
            var s' :=
              Run(cfg, s,
                [Query(g, ReceiptAnswer.Receipt(height)), Mark(g), Tip(g, Some(tip)), Deliver(g), SeeReceipt]);
            s'.main == if Confirms(receipt, cfg.numConfirmations, tip) then Confirmed(Report(receipt, tip)) else Running
  {
    var s1 := Step(cfg, s, Query(g, ReceiptAnswer.Receipt(height)));
    RunFirst(cfg, s, Query(g, ReceiptAnswer.Receipt(height)), [Mark(g), Tip(g, Some(tip)), Deliver(g), SeeReceipt]);
    MarkedEndsSend(cfg, s1, g, TxReceipt(tx, height), tip);
  }

  lemma MarkedEndsSend(cfg: Settings, s1: State, g: nat, receipt: TxReceipt, tip: uint64)
    requires s1.main.Running? && s1.receiptChan.None? && g < |s1.threads| && s1.threads[g] == Marking(receipt)
    ensures var s' := Run(cfg, s1, [Mark(g), Tip(g, Some(tip)), Deliver(g), SeeReceipt]);
            s'.main == if Confirms(receipt, cfg.numConfirmations, tip) then Confirmed(Report(receipt, tip)) else Running
  {
    var s2 := Step(cfg, s1, Mark(g));
    var s3 := Step(cfg, s2, Tip(g, Some(tip)));
    var s4 := Step(cfg, s3, Deliver(g));
    RunFirst(cfg, s1, Mark(g), [Tip(g, Some(tip)), Deliver(g), SeeReceipt]);
    RunFirst(cfg, s2, Tip(g, Some(tip)), [Deliver(g), SeeReceipt]);
    RunFirst(cfg, s3, Deliver(g), [SeeReceipt]);
    RunFirst(cfg, s4, SeeReceipt, []);
  }

  /**
    A goroutine whose publication failed makes Send give up exactly when, in what was observed, nothing was last seen
    mined and enough nonce-too-low errors came in since something was.
   */
  lemma FailureEndsSend(cfg: Settings, events: seq<Event>, g: nat)
    requires var s := Run(cfg, Start(), events);
             s.main.Running? && !s.cancelled && g < |s.threads| && s.threads[g].Judging?
    ensures var s := Run(cfg, Start(), events);
            Run(cfg, s, [CheckAbort(g), Abort(g), SeeDone]).main.GaveUp? <==>
              !AnyMined(s.log)
              && exists low: nat :: LowSinceEmptied(s.log, low) && low >= cfg.safeAbortNonceTooLowCount
  {
    StartInv(cfg);
    RunInv(cfg, Start(), events);
    var s := Run(cfg, Start(), events);
    ObserveMined(s.fields, s.log, Low);
    LowUnique(s.log);
    var s1 := Step(cfg, s, CheckAbort(g));
    var s2 := Step(cfg, s1, Abort(g));
    RunFirst(cfg, s, CheckAbort(g), [Abort(g), SeeDone]);
    RunFirst(cfg, s1, Abort(g), [SeeDone]);
    RunFirst(cfg, s2, SeeDone, []);
  }

  /** What Send has returned stays its result, whatever the remaining goroutines do. */
  lemma {:induction false} ResultIsFinal(cfg: Settings, s: State, events: seq<Event>)
    requires !s.main.Running?
    ensures Run(cfg, s, events).main == s.main
    decreases |events|
  {
    if events != [] {
      ResultIsFinal(cfg, Step(cfg, s, events[0]), events[1..]);
    }
  }
}
