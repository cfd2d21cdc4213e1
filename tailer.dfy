/**
 * StatementWarningTailer: follows the warning chain of a running JDBC statement and passes each
 * new warning to a consumer, on a thread of its own that polls, sleeps and stops when interrupted.
 */
module Tailer {
  import opened Wrappers
  import opened Jdbc
  import opened TailerSpec

  class StatementWarningTailer {
    /** The statement whose warnings are tailed. */
    const statement: Statement
    /** The pause between two polls, in milliseconds; stored, never interpreted. */
    const delayMillis: int
    /** The last warning passed to the consumer, as a node of the chain; None until the first. */
    var lastWarning: Option<nat>
    /** What warningConsumer.accept has been called with, in order. */
    ghost var delivered: seq<Warning>
    /** Where the tailer thread stands in run(). */
    var phase: Phase
    /** How many times readWarnings() has been entered. */
    ghost var drains: nat

    /** The tailer and its statement as a value of the state machine. */
    ghost function Model(): World
      reads this, statement
    {
      World(statement.warnings, statement.headFault, statement.headReads,
            lastWarning, delivered, phase, drains, delayMillis > 0)
    }

    ghost predicate Valid()
      reads this, statement
    {
      Inv(Model())
    }

    constructor (statement: Statement, delayMillis: int)
      ensures this.statement == statement && this.delayMillis == delayMillis
      ensures Model() == Initial(statement.warnings, delayMillis > 0).(headFault := statement.headFault,
                                                      headReads := statement.headReads)
      ensures Valid()
    {
      this.statement := statement;
      this.delayMillis := delayMillis;
      lastWarning := None;
      delivered := [];
      phase := AtGuard;
      drains := 0;
    }

    /**
     * The first node readWarnings() visits: lastWarning.getNextWarning() once a warning has been
     * delivered, otherwise statement.getWarnings(), which may throw.
     */
    method FirstWarning() returns (r: Result<Option<nat>, SqlException>)
      requires Valid()
      modifies statement
      ensures Model() == if lastWarning.Some? then old(Model()) else
                           old(Model()).(headReads := old(statement.headReads) + 1, headFault := false)
      ensures r.Failure? <==> HeadThrows(old(Model()))
      ensures r.Success? ==> r.value == Entry(statement.warnings, lastWarning)
    {
      if lastWarning.Some? {
        r := Success(Next(statement.warnings, lastWarning.value));
      } else {
        r := statement.GetWarnings();
      }
    }

    /**
     * The loop of readWarnings(): from `warning`, the node after lastWarning, hand each node to the
     * consumer, move lastWarning onto it and go to the next, until the end of the chain.
     */
    method FollowChain(warning: Option<nat>)
      requires Valid() && warning == Entry(statement.warnings, lastWarning)
      modifies this`lastWarning, this`delivered
      ensures Valid()
      ensures Model() == Walk(old(Model()))
    {
      ghost var w := Model();
      var warning := warning;
      while warning.Some?
        invariant Start(w.cursor) <= Start(lastWarning) <= |w.chain|
        invariant warning == Entry(w.chain, lastWarning)
        invariant delivered == w.chain[..Start(lastWarning)]
        invariant Start(lastWarning) == Start(w.cursor) ==> lastWarning == w.cursor
        decreases |w.chain| - Start(lastWarning)
      {
        PrefixGrows(w.chain, warning.value);
        delivered := delivered + [statement.warnings[warning.value]];  // warningConsumer.accept
        lastWarning := warning;
        warning := Next(statement.warnings, warning.value);
      }
      WalkEnds(w, lastWarning, delivered);
    }

    /**
     * readWarnings(): walk the chain from the head, or from the node after lastWarning, handing
     * each node to the consumer and moving lastWarning onto it. Throws only when the head read does.
     */
    method ReadWarnings() returns (outcome: Outcome<SqlException>)
      requires Valid()
      modifies this, statement
      ensures Valid()
      ensures Model() == Drain(old(Model()))
      ensures outcome.Fail? <==> HeadThrows(old(Model()))
    {
      ghost var w := Model();
      drains := drains + 1;
      var warning := FirstWarning();
      if warning.Failure? {
        assert Model() == Drain(w);
        DrainPreservesInv(w);
        return Fail(warning.error);
      }
      assert Model() == Entered(w);
      DrainIsWalk(w);
      FollowChain(warning.value);
      DrainPreservesInv(w);
      return Pass;
    }

    /** beforeThreadExit(): the final drain, with its SQLException swallowed. */
    method BeforeThreadExit()
      requires Valid()
      modifies this, statement
      ensures Valid()
      ensures Model() == Drain(old(Model()))
    {
      var _ := ReadWarnings();
    }

    /**
     * One event of the run() loop: the driver appends warnings or breaks the head read, the
     * thread runs on to its next blocking point, or the thread is interrupted.
     */
    method Handle(e: Event)
      requires Valid()
      modifies this, statement
      ensures Valid()
      ensures Model() == Apply(old(Model()), e)
    {
      match e {
        case Appended(ws) =>
          statement.AddWarnings(ws);
        case HeadFails =>
          statement.FailNextGetWarnings();
        case Tick =>
          if phase == AtGuard {
            var _ := ReadWarnings();  // an SQLException is swallowed
            phase := Sleeping;        // TimeUnit.MILLISECONDS.sleep(delayMillis)
          } else if phase == Sleeping {
            phase := AtGuard;
          }
        case Interrupt =>
          if phase == AtGuard {
            phase := Stopped;         // the while guard sees the interrupt
          } else if phase == Sleeping {
            if delayMillis > 0 {
              BeforeThreadExit();     // the sleep throws InterruptedException
            }                         // otherwise sleep returns and the guard sees the flag
            phase := Stopped;
          }
      }
      ApplyPreservesInv(old(Model()), e);
    }

    /** run(), replayed against one schedule of its environment. */
    method Run(schedule: seq<Event>)
      requires Valid()
      modifies this, statement
      ensures Valid()
      ensures Model() == Exec(old(Model()), schedule)
    {
      for i := 0 to |schedule|
        invariant Valid()
        invariant Model() == Exec(old(Model()), schedule[..i])
      {
        Handle(schedule[i]);
        ExecSnoc(old(Model()), schedule[..i], schedule[i]);
        assert schedule[..i + 1] == schedule[..i] + [schedule[i]];
      }
      assert schedule[..|schedule|] == schedule;
    }
  }
}
