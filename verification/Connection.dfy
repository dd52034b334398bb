/** A caller-provided SQLite connection: the visible tables, and the snapshot each
    open BEGIN or SAVEPOINT would restore. */
module Connections {
  import opened Wrappers
  import opened LedgerTables

  /** What a caller sees after an operation: tables, open snapshots, and the outcome. */
  datatype Seen<T> = Seen(tables: Tables, open: seq<Tables>, outcome: Result<T, Fault>)

  /** A store-owned write: `with db: BEGIN IMMEDIATE ...`. Arguments are checked first. BEGIN
      inside an open transaction raises, and leaving the with-block then rolls the caller's
      transaction back; otherwise success commits and failure restores the tables. */
  function Owned<T>(tables: Tables, open: seq<Tables>, args: Result<(), Fault>,
                    body: Result<(Tables, T), Fault>): Seen<T>
  {
    if args.Err? then Seen(tables, open, Err(args.error))
    else if open != [] then Seen(open[0], [], Err(NestedTransaction))
    else match body
      case Ok((u, v)) => Seen(u, [], Ok(v))
      case Err(e) => Seen(tables, [], Err(e))
  }

  /** A transaction-joining write: a SAVEPOINT undoes a failed write and nothing else. */
  function Joined<T>(tables: Tables, open: seq<Tables>, args: Result<(), Fault>,
                     body: Result<(Tables, T), Fault>): Seen<T>
  {
    if args.Err? then Seen(tables, open, Err(args.error))
    else if open == [] then Seen(tables, open, Err(NoTransaction))
    else match body
      case Ok((u, v)) => Seen(u, open, Ok(v))
      case Err(e) => Seen(tables, open, Err(e))
  }

  class Connection {
    var tables: Tables
    var open: seq<Tables>

    constructor (t: Tables)
      ensures tables == t && open == []
    {
      tables, open := t, [];
    }

    /** Entering a store-owned write; a nested BEGIN fails and loses the caller's transaction. */
    method Enter() returns (entered: bool)
      modifies this
      ensures entered == (old(open) == [])
      ensures entered ==> tables == old(tables) && open == [old(tables)]
      ensures !entered ==> tables == old(open[0]) && open == []
    {
      entered := open == [];
      if entered {
        open := [tables];
      } else {
        Rollback();
      }
    }

    /** Leaving a store-owned write: commit after success, roll back after an exception. */
    method Leave(failed: bool)
      requires |open| == 1
      modifies this
      ensures open == []
      ensures tables == if failed then old(open[0]) else old(tables)
    {
      if failed {
        Rollback();
      } else {
        Commit();
      }
    }

    /** Leaving a joined write: undo to the savepoint after an exception, then release it. */
    method LeaveSavepoint(failed: bool)
      requires |open| > 1
      modifies this
      ensures open == old(open[..|open|-1])
      ensures tables == if failed then old(open[|open|-1]) else old(tables)
    {
      if failed {
        RollbackToSavepoint();
      }
      Release();
    }

    method Commit()
      requires |open| > 0
      modifies this
      ensures tables == old(tables) && open == []
    {
      open := [];
    }

    /** ROLLBACK: the tables as they were at BEGIN, whatever savepoints lie above it. */
    method Rollback()
      requires |open| > 0
      modifies this
      ensures tables == old(open[0]) && open == []
    {
      tables, open := open[0], [];
    }

    method Savepoint()
      requires |open| > 0
      modifies this
      ensures tables == old(tables) && open == old(open) + [old(tables)]
    {
      open := open + [tables];
    }

    method RollbackToSavepoint()
      requires |open| > 1
      modifies this
      ensures tables == old(open[|open|-1]) && open == old(open)
    {
      tables := open[|open|-1];
    }

    method Release()
      requires |open| > 1
      modifies this
      ensures tables == old(tables) && open == old(open[..|open|-1])
    {
      open := open[..|open|-1];
    }
  }
}
