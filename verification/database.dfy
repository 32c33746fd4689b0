/** `DBInit`: opening the result database with one blind retry. */
module Database {
  import opened Config

  /** An open database session. */
  datatype Handle = Handle(session: nat)

  /** What one call of the database initializer returns. */
  datatype Connection = Connected(db: Handle) | Refused(reason: string)

  /** How `DBInit` ends: with a handle, or with a diagnostic and a process exit. */
  datatype DbOutcome = Ready(db: Handle) | Fatal(diagnostic: string, exitCode: int)

  /** The retry policy: two attempts, no delay between them. */
  const MaxAttempts: nat := 2

  /** The argument passed to `os.Exit` when both attempts fail. */
  const FatalExitCode: int := -1

  const DiagnosticPrefix: string := "[panic] Can't connect to DB at "

  /** The line printed before exiting, naming the configured database path. */
  function Diagnostic(dbPath: string): string {
    DiagnosticPrefix + dbPath + "\n"
  }

  /** The exit status a parent process observes: only the low eight bits of
      the code passed to `exit` survive. */
  function ExitStatus(code: int): (status: nat)
    ensures status < 256
    ensures (code - status) % 256 == 0
  {
    code % 256
  }

  /** The fatal exit is observed as status 255, a failure. */
  lemma FatalExitIsFailure()
    ensures ExitStatus(FatalExitCode) == 255
  {
  }

  /** The printed diagnostic contains the database path. */
  lemma DiagnosticNamesPath(dbPath: string)
    ensures var msg := Diagnostic(dbPath);
            msg[|DiagnosticPrefix|..|DiagnosticPrefix| + |dbPath|] == dbPath
  {
  }

  /** Opens the database. `initDB(k)` is what the k-th call of the
      initializer returns (the same options are passed every time, but a
      failure may be transient). Returns the outcome and the number of calls. */
  method DBInit(o: Options, initDB: nat -> Connection) returns (outcome: DbOutcome, attempts: nat)
    ensures 1 <= attempts <= MaxAttempts
    ensures attempts == 1 <==> initDB(1).Connected?
    ensures outcome.Ready? <==> initDB(1).Connected? || initDB(2).Connected?
    ensures initDB(1).Connected? ==> outcome == Ready(initDB(1).db)
    ensures initDB(1).Refused? && initDB(2).Connected? ==> outcome == Ready(initDB(2).db)
    ensures initDB(1).Refused? && initDB(2).Refused? ==>
              outcome == Fatal(Diagnostic(o.server.dbPath), FatalExitCode)
  {
    attempts := 1;
    var result := initDB(attempts);
    while result.Refused? && attempts < MaxAttempts
      invariant 1 <= attempts <= MaxAttempts
      invariant result == initDB(attempts)
      invariant forall k :: 1 <= k < attempts ==> initDB(k).Refused?
      decreases MaxAttempts - attempts
    {
      attempts := attempts + 1;
      result := initDB(attempts);
    }
    if result.Connected? {
      outcome := Ready(result.db);
    } else {
      outcome := Fatal(Diagnostic(o.server.dbPath), FatalExitCode);
    }
  }
}
