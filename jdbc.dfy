/**
 * The parts of JDBC the tailer talks to: a statement's warning chain.
 *
 * A chain of java.sql.SQLWarning objects is singly linked and only ever grows at its end. It is
 * modelled as the sequence of its nodes; a reference to a node is its index in that sequence, and
 * a null reference is None.
 */
module Jdbc {
  import opened Wrappers

  /** One SQLWarning, reduced to the message a consumer reads from it. */
  datatype Warning = Warning(message: string)

  /** The java.sql.SQLException that Statement.getWarnings() may throw. */
  datatype SqlException = SqlException

  /** The node Statement.getWarnings() hands out: the first one of the chain, or null. */
  function Head(chain: seq<Warning>): Option<nat>
  {
    if |chain| == 0 then None else Some(0)
  }

  /** SQLWarning.getNextWarning() on node i: the node after it, or null at the end. */
  function Next(chain: seq<Warning>, i: nat): Option<nat>
  {
    if i + 1 < |chain| then Some(i + 1) else None
  }

  /**
   * A java.sql.Statement seen as the owner of a warning chain. The driver appends to the chain
   * while the statement executes; reading the head of the chain can fail.
   */
  class Statement {
    /** The warning chain, in the order the driver produced it. */
    var warnings: seq<Warning>
    /** Whether the next call of getWarnings() throws an SQLException. */
    var headFault: bool
    /** How many times getWarnings() has been called. */
    ghost var headReads: nat

    constructor (warnings: seq<Warning>)
      ensures this.warnings == warnings && !headFault && headReads == 0
    {
      this.warnings := warnings;
      headFault := false;
      headReads := 0;
    }

    /** Statement.getWarnings(): the head of the chain, or the pending SQLException. */
    method GetWarnings() returns (r: Result<Option<nat>, SqlException>)
      modifies this`headFault, this`headReads
      ensures r == if old(headFault) then Failure(SqlException) else Success(Head(warnings))
      ensures !headFault && headReads == old(headReads) + 1
    {
      headReads := headReads + 1;
      if headFault {
        headFault := false;
        r := Failure(SqlException);
      } else {
        r := Success(Head(warnings));
      }
    }

    /** The driver reports new warnings: they are linked after the last node. */
    method AddWarnings(ws: seq<Warning>)
      modifies this`warnings
      ensures warnings == old(warnings) + ws
    {
      warnings := warnings + ws;
    }

    /** The statement becomes unable to answer the next getWarnings() call. */
    method FailNextGetWarnings()
      modifies this`headFault
      ensures headFault
    {
      headFault := true;
    }
  }
}
