/**
  op-proposer/txmgr/send_state.go: what the publication goroutines of one Send call have seen. The
  state is specified by the list of all observations made so far.
 */
module SendStates {
  import opened Types

  /** An observation: a nonce-too-low error, a transaction seen mined, or seen not mined. */
  datatype Obs = Low | Mined(tx: Hash) | NotMined(tx: Hash)

  // ----- The observations -----

  /** The last observation of tx says that it is mined. */
  predicate IsMined(log: seq<Obs>, tx: Hash) {
    if log == [] then false
    else
      var last := log[|log| - 1];
      if last == Mined(tx) then true
      else if last == NotMined(tx) then false
      else IsMined(log[..|log| - 1], tx)
  }

  ghost predicate AnyMined(log: seq<Obs>) {
    exists tx :: IsMined(log, tx)
  }

  /** Observation k - 1 left no transaction that counts as mined. */
  ghost predicate Emptied(log: seq<Obs>, k: nat) {
    0 < k <= |log| && AnyMined(log[..k - 1]) && !AnyMined(log[..k])
  }

  ghost predicate LastEmptied(log: seq<Obs>, k: nat) {
    && k <= |log|
    && (k == 0 || Emptied(log, k))
    && forall j :: k < j <= |log| ==> !Emptied(log, j)
  }

  function CountLow(log: seq<Obs>): nat {
    if log == [] then 0 else CountLow(log[..|log| - 1]) + if log[|log| - 1] == Low then 1 else 0
  }

  /** The number of nonce-too-low errors since the mined transactions last went away. */
  ghost predicate LowSinceEmptied(log: seq<Obs>, low: nat) {
    exists k: nat :: LastEmptied(log, k) && low == CountLow(log[k..])
  }

  // ----- The fields -----

  /** minedTxs and nonceTooLowCount */
  datatype Fields = Fields(mined: set<Hash>, low: nat)

  ghost predicate Records(f: Fields, log: seq<Obs>) {
    && (forall tx :: tx in f.mined <==> IsMined(log, tx))
    && LowSinceEmptied(log, f.low)
  }

  function Observe(f: Fields, o: Obs): Fields {
    match o
    case Low => f.(low := f.low + 1)
    case Mined(tx) => f.(mined := f.mined + {tx})
    case NotMined(tx) =>
      var mined := f.mined - {tx};
      Fields(mined, if mined == {} && tx in f.mined then 0 else f.low)
  }

  lemma AppendIsMined(log: seq<Obs>, o: Obs, tx: Hash)
    ensures IsMined(log + [o], tx)
            == (if o == Mined(tx) then true else if o == NotMined(tx) then false else IsMined(log, tx))
  {
    assert (log + [o])[..|log|] == log;
  }

  lemma AppendEmptied(log: seq<Obs>, o: Obs)
    ensures forall j: nat :: j <= |log| ==> Emptied(log + [o], j) == Emptied(log, j)
    ensures Emptied(log + [o], |log| + 1) <==> AnyMined(log) && !AnyMined(log + [o])
  {
    var log' := log + [o];
    forall j: nat | j <= |log| ensures Emptied(log', j) == Emptied(log, j) {
      if 0 < j {
        assert log'[..j] == log[..j] && log'[..j - 1] == log[..j - 1];
      }
    }
    assert log'[..|log|] == log && log'[..|log| + 1] == log';
  }

  lemma CountLowAppend(log: seq<Obs>, k: nat, o: Obs)
    requires k <= |log|
    ensures CountLow((log + [o])[k..]) == CountLow(log[k..]) + if o == Low then 1 else 0
  {
    var tail := (log + [o])[k..];
    assert tail[..|tail| - 1] == log[k..];
  }

  lemma ObserveMined(f: Fields, log: seq<Obs>, o: Obs)
    requires forall tx :: tx in f.mined <==> IsMined(log, tx)
    ensures forall tx :: tx in Observe(f, o).mined <==> IsMined(log + [o], tx)
    ensures AnyMined(log) <==> f.mined != {}
    ensures AnyMined(log + [o]) <==> Observe(f, o).mined != {}
  {
    forall tx ensures tx in Observe(f, o).mined <==> IsMined(log + [o], tx) {
      AppendIsMined(log, o, tx);
    }
    if f.mined != {} {
      var tx :| tx in f.mined;
      assert IsMined(log, tx);
    }
    if Observe(f, o).mined != {} {
      var tx :| tx in Observe(f, o).mined;
      assert IsMined(log + [o], tx);
    }
  }

  /** The fields keep describing the observations, whatever is observed next. */
  lemma ObserveRecords(f: Fields, log: seq<Obs>, o: Obs)
    requires Records(f, log)
    ensures Records(Observe(f, o), log + [o])
  {
    var log' := log + [o];
    ObserveMined(f, log, o);
    AppendEmptied(log, o);
    if f.mined != {} && Observe(f, o).mined == {} {
      assert LastEmptied(log', |log'|) && CountLow(log'[|log'|..]) == 0;
    } else {
      var k: nat :| LastEmptied(log, k) && f.low == CountLow(log[k..]);
      CountLowAppend(log, k, o);
      assert LastEmptied(log', k);
    }
  }

  // ----- The object -----

  datatype SendError = SendError(nonceTooLow: bool, cancelled: bool)

  class SendState {
    var minedTxs: set<Hash>
    var nonceTooLowCount: nat
    const safeAbortNonceTooLowCount: nat
    ghost var log: seq<Obs>

    ghost predicate Valid()
      reads this
    {
      Records(Fields(minedTxs, nonceTooLowCount), log)
    }

    /** NewSendState panics on a zero threshold. */
    constructor (threshold: nat)
      requires threshold != 0
      ensures Valid() && safeAbortNonceTooLowCount == threshold && log == []
    {
      minedTxs, nonceTooLowCount, safeAbortNonceTooLowCount := {}, 0, threshold;
      log := [];
      new;
      assert LastEmptied([], 0) && CountLow([][0..]) == 0;
    }

    method ProcessSendError(err: Option<SendError>)
      requires Valid()
      modifies this
      ensures Valid() && log == old(log) + if err.Some? && err.value.nonceTooLow then [Low] else []
    {
      if err.None? {
        return;
      }
      if !err.value.nonceTooLow {
        return;
      }
      ObserveRecords(Fields(minedTxs, nonceTooLowCount), log, Low);
      log := log + [Low];
      nonceTooLowCount := nonceTooLowCount + 1;
    }

    method TxMined(txHash: Hash)
      requires Valid()
      modifies this
      ensures Valid() && log == old(log) + [Mined(txHash)]
    {
      ObserveRecords(Fields(minedTxs, nonceTooLowCount), log, Mined(txHash));
      log := log + [Mined(txHash)];
      minedTxs := minedTxs + {txHash};
    }

    method TxNotMined(txHash: Hash)
      requires Valid()
      modifies this
      ensures Valid() && log == old(log) + [NotMined(txHash)]
    {
      ObserveRecords(Fields(minedTxs, nonceTooLowCount), log, NotMined(txHash));
      log := log + [NotMined(txHash)];
      var wasMined := txHash in minedTxs;
      minedTxs := minedTxs - {txHash};
      if |minedTxs| == 0 && wasMined {
        nonceTooLowCount := 0;
      }
    }

    /** True exactly when no transaction counts as mined and enough errors were seen since one last did. */
    method ShouldAbortImmediately() returns (abort: bool)
      requires Valid()
      ensures abort <==>
              !AnyMined(log) && exists low: nat :: LowSinceEmptied(log, low) && low >= safeAbortNonceTooLowCount
    {
      ObserveMined(Fields(minedTxs, nonceTooLowCount), log, Low);
      LowUnique(log);
      if |minedTxs| > 0 {
        return false;
      }
      return nonceTooLowCount >= safeAbortNonceTooLowCount;
    }

    method IsWaitingForConfirmation() returns (waiting: bool)
      requires Valid()
      ensures waiting <==> AnyMined(log)
    {
      ObserveMined(Fields(minedTxs, nonceTooLowCount), log, Low);
      return |minedTxs| > 0;
    }
  }

  lemma LowUnique(log: seq<Obs>)
    ensures forall a, b :: LowSinceEmptied(log, a) && LowSinceEmptied(log, b) ==> a == b
  {
    forall a, b | LowSinceEmptied(log, a) && LowSinceEmptied(log, b)
      ensures a == b
    {
      var j: nat :| LastEmptied(log, j) && a == CountLow(log[j..]);
      var k: nat :| LastEmptied(log, k) && b == CountLow(log[k..]);
      assert j == k;
    }
  }
}
