/** The lifecycle of a transaction handle (service/src/database.rs), abstracted
    from the driver: the handle is Open while it still holds the driver's
    transaction and Consumed once `commit` has taken it. */
module Lifecycle {
  import opened Wrappers

  /** The two states of a handle. */
  datatype TxState = Open | Consumed

  /** The operations a caller can issue on a handle. */
  datatype Op = Execute | BatchExecute | Query | Commit

  /** A diagnostic written to the log by the tracing calls. */
  datatype Event = Debug(message: string) | Warn(message: string)

  const FinishingMessage: string := "Finishing transaction"
  const RollbackMessage: string := "Transaction was not committed and will be rolled back"

  /** One operation on a handle in state `s`; `None` when the operation would
      unwrap an empty handle (a panic). */
  function Step(s: TxState, op: Op): (r: Option<TxState>)
    ensures r.Some? <==> s == Open
    ensures r == Some(Consumed) <==> s == Open && op == Commit
  {
    match s
    case Consumed => None
    case Open => if op == Commit then Some(Consumed) else Some(Open)
  }

  /** A sequence of operations issued in order on a handle in state `s`. */
  function Run(s: TxState, ops: seq<Op>): Option<TxState>
    decreases |ops|
  {
    if ops == [] then Some(s)
    else
      match Step(s, ops[0])
      case None => None
      case Some(t) => Run(t, ops[1..])
  }

  /** What the handle's `Drop` writes to the log, for a handle in state `s`. */
  function DropEvents(s: TxState): (events: seq<Event>)
    ensures |events| == (if s == Open then 2 else 1) && events[0] == Debug(FinishingMessage)
    ensures WarnCount(events) == (if s == Open then 1 else 0)
    ensures Warn(RollbackMessage) in events <==> s == Open
  {
    assert WarnCount([Debug(FinishingMessage)]) == 0 by {
      assert [Debug(FinishingMessage)][1..] == [];
    }
    assert WarnCount([Debug(FinishingMessage), Warn(RollbackMessage)]) == 1 by {
      assert [Debug(FinishingMessage), Warn(RollbackMessage)][1..] == [Warn(RollbackMessage)];
      assert [Warn(RollbackMessage)][1..] == [];
    }
    if s == Open then [Debug(FinishingMessage), Warn(RollbackMessage)]
    else [Debug(FinishingMessage)]
  }

  /** The number of warnings among `events`. */
  function WarnCount(events: seq<Event>): nat
  {
    if events == [] then 0
    else (if events[0].Warn? then 1 else 0) + WarnCount(events[1..])
  }

  /** Every sequence of operations on a freshly begun handle ends in exactly one
      of three ways: still Open when it holds no commit; Consumed when its only
      commit is its last operation; a panic when anything follows the commit. */
  lemma {:induction false} RunOutcome(ops: seq<Op>)
    ensures Run(Open, ops) ==
      if Commit !in ops then Some(Open)
      else if ops[|ops| - 1] == Commit && Commit !in ops[..|ops| - 1] then Some(Consumed)
      else None
  {
    if ops != [] {
      var rest := ops[1..];
      if ops[0] == Commit {
        assert Run(Open, ops) == Run(Consumed, rest);
        if rest == [] {
          assert ops == [Commit];
        } else {
          assert ops[..|ops| - 1][0] == Commit;
        }
      } else {
        RunOutcome(rest);
        assert Commit in ops <==> Commit in rest;
        if rest != [] {
          assert ops[|ops| - 1] == rest[|rest| - 1];
          assert ops[..|ops| - 1] == [ops[0]] + rest[..|rest| - 1];
        }
      }
    }
  }

  /** Operations other than commit leave an open handle open. */
  lemma {:induction false} OperationsKeepOpen(ops: seq<Op>)
    requires Commit !in ops
    ensures Run(Open, ops) == Some(Open)
  {
    if ops != [] {
      assert ops[0] != Commit && Commit !in ops[1..];
      OperationsKeepOpen(ops[1..]);
    }
  }

  /** The fate of every handle is decided by whether it was committed: dropping
      it after a run that committed never warns of a rollback, and dropping it
      after a run without commit warns exactly once. */
  lemma {:induction false} RollbackIffNotCommitted(ops: seq<Op>, s: TxState)
    requires Run(Open, ops) == Some(s)
    ensures WarnCount(DropEvents(s)) == (if Commit in ops then 0 else 1)
    ensures Warn(RollbackMessage) in DropEvents(s) <==> Commit !in ops
  {
    RunOutcome(ops);
  }

  /** Once consumed, a handle accepts no further operation. */
  lemma {:induction false} ConsumedIsTerminal(ops: seq<Op>)
    requires ops != []
    ensures Run(Consumed, ops) == None
  {
  }
}
