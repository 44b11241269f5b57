/** The migration runner and the pool configuration of
    backend/src/postgres.rs.  The database is the `migrations` table (a set
    of names, `name` being UNIQUE) and the log of scripts whose SQL has executed;
    the success of each statement is an input. */
module Postgres {
  import opened Wrappers

  /** An entry of `SCRIPTS_UP`: the migration's name and its SQL file. */
  datatype Script = Script(name: string, sqlFile: string)

  /** `SCRIPTS_UP`, in its fixed order. */
  const SCRIPTS_UP: seq<Script> := [
    Script("0001_create-customers", "migrations/0001_create-customers.sql"),
    Script("0002_create-nctns", "migrations/0002_create-nctns.sql"),
    Script("0003_create_users", "migrations/0003_create_users.sql"),
    Script("0004_create_blacklisted_tokens", "migrations/0004_create_blacklisted_tokens.sql"),
    Script("0005_create_user_logs", "migrations/0005_create_user_logs.sql"),
    Script("0006_create_emails_table", "migrations/0006_create_emails_table.sql"),
    Script("0007_add_is_sent_to_emails", "migrations/0007_add_is_sent_to_emails.sql"),
    Script("0008_create_tickets_table", "migrations/0008_create_tickets_table.sql"),
    Script("0009_create_email_tickets_table", "migrations/0009_create_email_tickets_table.sql"),
    Script("0010_remove_email_id_from_tickets", "migrations/0010_remove_email_id_from_tickets.sql"),
    Script("0011_change_email_id_to_uuid", "migrations/0011_change_email_id_to_uuid.sql")
  ]

  /** The database state the runner reads and writes: the recorded names
      and, in order, the names of the scripts whose SQL has executed. */
  datatype Db = Db(applied: set<string>, executed: seq<string>)

  /** Which statement of the run failed. */
  datatype MigrationError =
    | CreateTableFailed
    | CountFailed(name: string)
    | ExecuteFailed(name: string)
    | RecordFailed(name: string)

  /** Which statements succeed: the `CREATE TABLE IF NOT EXISTS`, and, per
      migration name, the `SELECT COUNT(*)`, the script, the `INSERT`. */
  datatype MigrationEnv = MigrationEnv(
    createTableOk: bool,
    countOk: string -> bool,
    executeOk: string -> bool,
    recordOk: string -> bool)

  datatype Outcome = Outcome(result: Result<(), MigrationError>, db: Db)

  /** The loop of `run_migrations` over `scripts`: a recorded migration is
      skipped; a pending one is run and then recorded; the first failing
      statement ends the run. */
  function RunFrom(scripts: seq<Script>, db: Db, env: MigrationEnv): Outcome
    decreases |scripts|
  {
    if scripts == [] then Outcome(Ok(()), db)
    else
      var name := scripts[0].name;
      if !env.countOk(name) then Outcome(Err(CountFailed(name)), db)
      else if name in db.applied then RunFrom(scripts[1..], db, env)
      else if !env.executeOk(name) then Outcome(Err(ExecuteFailed(name)), db)
      else if !env.recordOk(name) then
        Outcome(Err(RecordFailed(name)), db.(executed := db.executed + [name]))
      else RunFrom(scripts[1..], Db(db.applied + {name}, db.executed + [name]), env)
  }

  /** `run_migrations`: create the table, then run the loop over
      `SCRIPTS_UP`. */
  function RunMigrationsSpec(db: Db, env: MigrationEnv): Outcome {
    if !env.createTableOk then Outcome(Err(CreateTableFailed), db)
    else RunFrom(SCRIPTS_UP, db, env)
  }

  /** The names the loop runs, in order, starting from the recorded
      `applied`: each name not yet recorded, once. */
  function Pending(scripts: seq<Script>, applied: set<string>): seq<string>
    decreases |scripts|
  {
    if scripts == [] then []
    else if scripts[0].name in applied then Pending(scripts[1..], applied)
    else [scripts[0].name] + Pending(scripts[1..], applied + {scripts[0].name})
  }

  function NamesOf(scripts: seq<Script>): set<string> {
    set s | s in scripts :: s.name
  }

  /** Every statement of the loop succeeds for these scripts. */
  predicate AllSucceed(scripts: seq<Script>, env: MigrationEnv) {
    forall s :: s in scripts ==> env.countOk(s.name) && env.executeOk(s.name) && env.recordOk(s.name)
  }

  predicate NoDuplicates(names: seq<string>) {
    forall i, j :: 0 <= i < j < |names| ==> names[i] != names[j]
  }

  /** The names of `SCRIPTS_UP` are distinct. */
  lemma ScriptNamesDistinct()
    ensures forall i, j :: 0 <= i < j < |SCRIPTS_UP| ==> SCRIPTS_UP[i].name != SCRIPTS_UP[j].name
  {
  }

  /** The run only adds: the log before the run stays a prefix, and the
      recorded names before the run stay recorded. */
  lemma {:induction false} RunOnlyAdds(scripts: seq<Script>, db: Db, env: MigrationEnv)
    ensures var out := RunFrom(scripts, db, env).db;
            db.applied <= out.applied && db.executed <= out.executed
    decreases |scripts|
  {
    if scripts != [] {
      var name := scripts[0].name;
      if env.countOk(name) && name in db.applied {
        RunOnlyAdds(scripts[1..], db, env);
      } else if env.countOk(name) && env.executeOk(name) && env.recordOk(name) {
        RunOnlyAdds(scripts[1..], Db(db.applied + {name}, db.executed + [name]), env);
      }
    }
  }

  /** A script is run only when its name was not recorded, and a name is
      recorded only when its script has been run in this same call. */
  lemma {:induction false} RunOnlyPending(scripts: seq<Script>, db: Db, env: MigrationEnv)
    ensures var out := RunFrom(scripts, db, env).db;
            && |db.executed| <= |out.executed|
            && (forall k :: |db.executed| <= k < |out.executed| ==> out.executed[k] !in db.applied)
            && (forall n :: n in out.applied && n !in db.applied ==> n in out.executed[|db.executed|..])
    decreases |scripts|
  {
    RunOnlyAdds(scripts, db, env);
    if scripts != [] {
      var name := scripts[0].name;
      if env.countOk(name) && name in db.applied {
        RunOnlyPending(scripts[1..], db, env);
      } else if env.countOk(name) && env.executeOk(name) && env.recordOk(name) {
        var db1 := Db(db.applied + {name}, db.executed + [name]);
        RunOnlyPending(scripts[1..], db1, env);
        RunOnlyAdds(scripts[1..], db1, env);
        var out := RunFrom(scripts, db, env).db;
        assert out.executed[|db.executed|] == name;
        forall n | n in out.applied && n !in db.applied
          ensures n in out.executed[|db.executed|..]
        {
          if n != name {
            assert n in out.executed[|db1.executed|..];
          }
        }
      }
    }
  }

  /** Within one call each script is run at most once: the log the run
      appends has no duplicates. */
  lemma {:induction false} RunOnceEach(scripts: seq<Script>, db: Db, env: MigrationEnv)
    ensures var out := RunFrom(scripts, db, env).db;
            |db.executed| <= |out.executed| && NoDuplicates(out.executed[|db.executed|..])
    decreases |scripts|
  {
    RunOnlyAdds(scripts, db, env);
    if scripts != [] {
      var name := scripts[0].name;
      if env.countOk(name) && name in db.applied {
        RunOnceEach(scripts[1..], db, env);
      } else if env.countOk(name) && env.executeOk(name) && env.recordOk(name) {
        var db1 := Db(db.applied + {name}, db.executed + [name]);
        RunOnceEach(scripts[1..], db1, env);
        RunOnlyPending(scripts[1..], db1, env);
        RunOnlyAdds(scripts[1..], db1, env);
        var out := RunFrom(scripts, db, env).db;
        var tail := out.executed[|db1.executed|..];
        assert out.executed[|db.executed|] == name;
        assert out.executed[|db.executed|..] == [name] + tail;
        assert forall k :: 0 <= k < |tail| ==> tail[k] != name;
      }
    }
  }

  /** When every statement succeeds, the run appends exactly the pending
      names, in script order, and records every script's name. */
  lemma {:induction false} SuccessfulRun(scripts: seq<Script>, db: Db, env: MigrationEnv)
    requires AllSucceed(scripts, env)
    ensures RunFrom(scripts, db, env) ==
            Outcome(Ok(()), Db(db.applied + NamesOf(scripts), db.executed + Pending(scripts, db.applied)))
    decreases |scripts|
  {
    if scripts != [] {
      var s := scripts[0];
      assert AllSucceed(scripts[1..], env) by {
        forall t | t in scripts[1..] ensures t in scripts { }
      }
      assert NamesOf(scripts) == {s.name} + NamesOf(scripts[1..]) by {
        assert scripts == [s] + scripts[1..];
        forall n | n in NamesOf(scripts) ensures n in {s.name} + NamesOf(scripts[1..]) {
          var t :| t in scripts && t.name == n;
          if t != s {
            assert t in scripts[1..];
          }
        }
      }
      if s.name in db.applied {
        SuccessfulRun(scripts[1..], db, env);
      } else {
        var db1 := Db(db.applied + {s.name}, db.executed + [s.name]);
        SuccessfulRun(scripts[1..], db1, env);
      }
    }
  }

  /** With every name recorded, a run executes and records nothing: a
      second run after a successful one is a no-op, as long as its count
      queries succeed. */
  lemma {:induction false} RecordedRunIsNoOp(scripts: seq<Script>, db: Db, env: MigrationEnv)
    requires NamesOf(scripts) <= db.applied
    requires forall s :: s in scripts ==> env.countOk(s.name)
    ensures RunFrom(scripts, db, env) == Outcome(Ok(()), db)
    decreases |scripts|
  {
    if scripts != [] {
      assert scripts[0] in scripts;
      assert NamesOf(scripts[1..]) <= NamesOf(scripts) by {
        forall n | n in NamesOf(scripts[1..]) ensures n in NamesOf(scripts) {
          var t :| t in scripts[1..] && t.name == n;
          assert t in scripts;
        }
      }
      RecordedRunIsNoOp(scripts[1..], db, env);
    }
  }

  /** `run_migrations` is idempotent: after a successful run every name of
      `SCRIPTS_UP` is recorded, and a second run changes nothing. */
  lemma MigrationsIdempotent(db: Db, env: MigrationEnv, env2: MigrationEnv)
    requires AllSucceed(SCRIPTS_UP, env) && env.createTableOk
    requires env2.createTableOk && forall s :: s in SCRIPTS_UP ==> env2.countOk(s.name)
    ensures var first := RunMigrationsSpec(db, env);
            && first.result.Ok?
            && NamesOf(SCRIPTS_UP) <= first.db.applied
            && RunMigrationsSpec(first.db, env2) == Outcome(Ok(()), first.db)
  {
    SuccessfulRun(SCRIPTS_UP, db, env);
    var first := RunMigrationsSpec(db, env);
    RecordedRunIsNoOp(SCRIPTS_UP, first.db, env2);
  }

  /** The run is sequential: a prefix that fails is where the whole run
      fails, and later scripts are neither run nor recorded; a prefix that
      succeeds hands its database to the rest. */
  lemma {:induction false} RunSplits(a: seq<Script>, b: seq<Script>, db: Db, env: MigrationEnv)
    ensures RunFrom(a, db, env).result.Err? ==> RunFrom(a + b, db, env) == RunFrom(a, db, env)
    ensures RunFrom(a, db, env).result.Ok? ==>
              RunFrom(a + b, db, env) == RunFrom(b, RunFrom(a, db, env).db, env)
    decreases |a|
  {
    if a == [] {
      assert a + b == b;
    } else {
      assert (a + b)[0] == a[0];
      assert (a + b)[1..] == a[1..] + b;
      var name := a[0].name;
      if env.countOk(name) && name in db.applied {
        RunSplits(a[1..], b, db, env);
      } else if env.countOk(name) && env.executeOk(name) && env.recordOk(name) {
        RunSplits(a[1..], b, Db(db.applied + {name}, db.executed + [name]), env);
      }
    }
  }

  /** A migration whose script ran but whose name could not be recorded is
      left run and unrecorded, so the next call runs its SQL again. */
  lemma RecordFailureLeavesScriptUnrecorded(scripts: seq<Script>, db: Db, env: MigrationEnv)
    requires scripts != [] && scripts[0].name !in db.applied
    requires env.countOk(scripts[0].name) && env.executeOk(scripts[0].name)
    requires !env.recordOk(scripts[0].name)
    ensures var out := RunFrom(scripts, db, env);
            && out.result == Err(RecordFailed(scripts[0].name))
            && out.db.executed == db.executed + [scripts[0].name]
            && scripts[0].name !in out.db.applied
  {
  }

  /** The migrations database. */
  class MigrationDb {
    var applied: set<string>
    var executed: seq<string>

    function State(): Db
      reads this
    {
      Db(applied, executed)
    }

    constructor (applied: set<string>)
      ensures State() == Db(applied, [])
    {
      this.applied := applied;
      executed := [];
    }

    /** `run_migrations`. */
    method RunMigrations(env: MigrationEnv) returns (r: Result<(), MigrationError>)
      modifies this
      ensures Outcome(r, State()) == RunMigrationsSpec(old(State()), env)
    {
      if !env.createTableOk {
        return Err(CreateTableFailed);
      }
      for i := 0 to |SCRIPTS_UP|
        invariant RunFrom(SCRIPTS_UP[i..], State(), env) == RunFrom(SCRIPTS_UP, old(State()), env)
      {
        var name := SCRIPTS_UP[i].name;
        assert SCRIPTS_UP[i..][0] == SCRIPTS_UP[i];
        assert SCRIPTS_UP[i..][1..] == SCRIPTS_UP[i + 1..];
        if !env.countOk(name) {
          return Err(CountFailed(name));
        }
        if name !in applied {
          if !env.executeOk(name) {
            return Err(ExecuteFailed(name));
          }
          executed := executed + [name];
          if !env.recordOk(name) {
            return Err(RecordFailed(name));
          }
          applied := applied + {name};
        }
      }
      r := Ok(());
    }
  }

  /** The four fields `create_config` sets on `deadpool_postgres::Config`;
      `Config::new()` leaves all of them unset. */
  datatype PgConfig = PgConfig(
    host: Option<string>, dbname: Option<string>, user: Option<string>, password: Option<string>)

  /** The value of an environment variable, if it is set. */
  function EnvVar(environment: map<string, string>, key: string): Option<string> {
    if key in environment then Some(environment[key]) else None
  }

  /** What `create_config` builds from the environment. */
  function ConfigFrom(environment: map<string, string>): PgConfig {
    PgConfig(EnvVar(environment, "PG_HOST"), EnvVar(environment, "PG_DBNAME"),
             EnvVar(environment, "PG_USER"), EnvVar(environment, "PG_PASSWORD"))
  }

  /** `create_config`: start from the default and set each field whose
      variable is present. */
  method CreateConfig(environment: map<string, string>) returns (cfg: PgConfig)
    ensures cfg == ConfigFrom(environment)
  {
    cfg := PgConfig(None, None, None, None);
    if "PG_HOST" in environment {
      cfg := cfg.(host := Some(environment["PG_HOST"]));
    }
    if "PG_DBNAME" in environment {
      cfg := cfg.(dbname := Some(environment["PG_DBNAME"]));
    }
    if "PG_USER" in environment {
      cfg := cfg.(user := Some(environment["PG_USER"]));
    }
    if "PG_PASSWORD" in environment {
      cfg := cfg.(password := Some(environment["PG_PASSWORD"]));
    }
  }

  /** Each field depends on its own variable only: any other variable, set
      or removed, leaves it as it was; with none set, the default stays. */
  lemma ConfigFieldsIndependent(environment: map<string, string>, key: string, value: string)
    ensures key != "PG_HOST" ==> ConfigFrom(environment[key := value]).host == ConfigFrom(environment).host
    ensures key != "PG_DBNAME" ==> ConfigFrom(environment[key := value]).dbname == ConfigFrom(environment).dbname
    ensures key != "PG_USER" ==> ConfigFrom(environment[key := value]).user == ConfigFrom(environment).user
    ensures key != "PG_PASSWORD" ==>
              ConfigFrom(environment[key := value]).password == ConfigFrom(environment).password
    ensures ConfigFrom(map[]) == PgConfig(None, None, None, None)
  {
  }
}
