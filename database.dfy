/**
 * The database connection as the job runner drives it: a settable
 * autocommit mode, `rollback`, `commit` and the execution of a job's SQL.
 * Every call is recorded in order; the connection is given the set of SQL
 * texts whose execution raises.
 */
module Database {

  /** One call the runner makes on the connection. */
  datatype Call = Autocommit(on: bool) | Rollback | Execute(sql: string) | Commit

  class Connection {
    var autocommit: bool
    /** Every call made on this connection, oldest first. */
    var calls: seq<Call>
    /** The SQL texts whose execution raises. */
    const failing: set<string>

    /** A fresh connection, in psycopg's default transactional mode. */
    constructor (failing: set<string>)
      ensures this.failing == failing && !autocommit && calls == []
    {
      this.failing := failing;
      autocommit := false;
      calls := [];
    }

    /** `conn.autocommit = on`. */
    method SetAutocommit(on: bool)
      modifies this
      ensures autocommit == on
      ensures calls == old(calls) + [Autocommit(on)]
    {
      autocommit := on;
      calls := calls + [Autocommit(on)];
    }

    /** `conn.rollback()`. */
    method Rollback()
      modifies this`calls
      ensures calls == old(calls) + [Call.Rollback]
    {
      calls := calls + [Call.Rollback];
    }

    /** `conn.commit()`. */
    method Commit()
      modifies this`calls
      ensures calls == old(calls) + [Call.Commit]
    {
      calls := calls + [Call.Commit];
    }

    /** `cur.execute(sql)` on a cursor of this connection; `ok` is false when it raises. */
    method Execute(sql: string) returns (ok: bool)
      modifies this`calls
      ensures ok <==> sql !in failing
      ensures calls == old(calls) + [Call.Execute(sql)]
    {
      ok := sql !in failing;
      calls := calls + [Call.Execute(sql)];
    }
  }
}
