/**
  The one-off setup route (app/api/setup-database/route.ts): checks the environment,
  tests the connection, then runs the schema SQL and the signup-trigger SQL, each
  through a chain of fallbacks that ends in running the text statement by statement.
 */
module SetupDatabase {
  import opened Wrappers
  import opened Types
  import opened Strings
  import Listing

  /** The two environment variables the route needs. */
  datatype Env = Env(supabaseUrl: Option<string>, serviceRoleKey: Option<string>)

  /** The outcomes of the two connection probes: the `pg_execute` RPC, then a query on `_dummy_query`. */
  datatype Probe = Probe(rpc: Call, dummyQuery: Call)

  /** The outcomes of the three whole-text attempts of one fallback chain. */
  datatype ChainCalls = ChainCalls(sqlApi: Call, pgql: Call, pgExecute: Call)

  /** The method that ran the SQL text. */
  datatype ExecPath = SqlApi | Pgql | PgExecute | PerStatement

  const ConnectionFailedPrefix: string := "Connection test failed: "
  const MissingEnvironment: string := "Missing required environment variables"
  const SetupCompleted: string := "Database setup completed successfully"

  function NonEmpty(s: string): bool { s != "" }

  /** Trims every piece, keeping positions. */
  function TrimAll(parts: seq<string>): (r: seq<string>)
    ensures |r| == |parts|
    ensures forall k :: 0 <= k < |r| ==> r[k] == Trim(parts[k])
  {
    if parts == [] then []
    else
      var rest := TrimAll(parts[1..]);
      assert forall k :: 1 <= k < |parts| ==> parts[k] == parts[1..][k - 1];
      [Trim(parts[0])] + rest
  }

  lemma {:induction false} TrimAllConcat(a: seq<string>, b: seq<string>)
    ensures TrimAll(a + b) == TrimAll(a) + TrimAll(b)
  {
    if a == [] {
      assert a + b == b;
    } else {
      assert (a + b)[0] == a[0] && (a + b)[1..] == a[1..] + b;
      TrimAllConcat(a[1..], b);
    }
  }

  /** `sql.split(";").map((s) => s.trim()).filter((s) => s.length > 0)`. */
  function SplitStatements(sql: string): (r: seq<string>)
    ensures forall k :: 0 <= k < |r| ==> r[k] != "" && ';' !in r[k] && Trim(r[k]) == r[k]
  {
    var pieces := Split(sql, ';');
    var r := Listing.Filter(TrimAll(pieces), NonEmpty);
    forall k | 0 <= k < |r| ensures r[k] != "" && ';' !in r[k] && Trim(r[k]) == r[k] {
      assert NonEmpty(r[k]);
      assert r[k] in TrimAll(pieces);
      var j :| 0 <= j < |pieces| && r[k] == Trim(pieces[j]);
      TrimKeepsCharacters(pieces[j], ';');
      TrimIdempotent(pieces[j]);
    }
    r
  }

  /** Statements keep their source order: the pieces before a `;` come before those after it. */
  lemma SplitStatementsConcat(a: string, b: string)
    ensures SplitStatements(a + ";" + b) == SplitStatements(a) + SplitStatements(b)
  {
    assert a + ";" + b == a + [';'] + b;
    SplitConcat(a, b, ';');
    TrimAllConcat(Split(a, ';'), Split(b, ';'));
    Listing.FilterConcat(TrimAll(Split(a, ';')), TrimAll(Split(b, ';')), NonEmpty);
  }

  /** Text without `;` is one statement, its trim, unless it is blank. */
  lemma SplitStatementsSingle(sql: string)
    requires ';' !in sql
    ensures SplitStatements(sql) == if Trim(sql) == "" then [] else [Trim(sql)]
  {
    SplitWithoutSeparator(sql, ';');
    assert TrimAll([sql]) == [Trim(sql)];
    assert Listing.Filter([Trim(sql)], NonEmpty) == (if NonEmpty(Trim(sql)) then [Trim(sql)] else []) by {
      assert [Trim(sql)][1..] == [];
    }
  }

  /** A filter that every element passes keeps the whole sequence. */
  lemma {:induction false} FilterKeepsAll(s: seq<string>)
    requires forall k :: 0 <= k < |s| ==> NonEmpty(s[k])
    ensures Listing.Filter(s, NonEmpty) == s
  {
    if s != [] {
      FilterKeepsAll(s[1..]);
      assert NonEmpty(s[0]);
      assert Listing.Filter(s, NonEmpty) == [s[0]] + Listing.Filter(s[1..], NonEmpty);
      assert [s[0]] + s[1..] == s;
    }
  }

  /** Trimming pieces that are already trimmed changes nothing. */
  lemma TrimAllTrimmed(s: seq<string>)
    requires forall k :: 0 <= k < |s| ==> Trim(s[k]) == s[k]
    ensures TrimAll(s) == s
  {
  }

  /**
    The splitter inverts joining with `;`: statements that are non-empty, trimmed and free
    of `;` come back exactly, in order.
   */
  lemma SplitStatementsJoin(stmts: seq<string>)
    requires |stmts| >= 1
    requires forall k :: 0 <= k < |stmts| ==> stmts[k] != "" && ';' !in stmts[k] && Trim(stmts[k]) == stmts[k]
    ensures SplitStatements(Join(stmts, ';')) == stmts
  {
    SplitJoin(stmts, ';');
    TrimAllTrimmed(stmts);
    FilterKeepsAll(stmts);
  }

  /**
    The connection test: None when the connection counts as working, otherwise the
    error message. A failing RPC (returned or thrown) falls back to the dummy query,
    whose "does not exist" error counts as success. Any other returned error is
    wrapped once by the inner check and once more by the handler around it.
   */
  function ConnectionTest(p: Probe): (r: Option<string>)
    ensures p.rpc.Answered? ==> r == None
    ensures r.Some? ==> ConnectionFailedPrefix <= r.value
    ensures !p.rpc.Answered? ==>
      (r == None <==> p.dummyQuery.Answered? || (p.dummyQuery.ErrorReply? && Contains(p.dummyQuery.message, "does not exist")))
  {
    if p.rpc.Answered? then None
    else match p.dummyQuery
      case Answered => None
      case ErrorReply(msg) =>
        if Contains(msg, "does not exist") then None
        else Some(ConnectionFailedPrefix + (ConnectionFailedPrefix + msg))
      case Thrown(msg) => Some(ConnectionFailedPrefix + msg)
  }

  /**
    Whenever the RPC probe fails (by an error reply or a throw, with any message), a
    returned dummy-query error other than a missing relation gets the prefix twice.
   */
  lemma ConnectionErrorPrefixedTwice(p: Probe)
    requires !p.rpc.Answered? && p.dummyQuery.ErrorReply? && !Contains(p.dummyQuery.message, "does not exist")
    ensures ConnectionTest(p) == Some(ConnectionFailedPrefix + (ConnectionFailedPrefix + p.dummyQuery.message))
  {
  }

  /**
    One fallback chain. The SQL API fails only by throwing (its result is not read); the
    two RPCs fail by returning or throwing an error. When all three fail, every statement
    of the split text is sent with a `;` appended, and the chain reports success whatever
    the statements' outcomes, which `statementCall` gives and the route ignores.
   */
  method ExecuteWithFallbacks(sql: string, calls: ChainCalls, statementCall: string -> Call)
    returns (success: bool, path: ExecPath, sent: seq<string>)
    ensures success
    ensures path == SqlApi <==> !calls.sqlApi.Thrown?
    ensures path == Pgql <==> calls.sqlApi.Thrown? && calls.pgql.Answered?
    ensures path == PgExecute <==> calls.sqlApi.Thrown? && !calls.pgql.Answered? && calls.pgExecute.Answered?
    ensures path != PerStatement ==> sent == []
    ensures path == PerStatement ==>
      var stmts := SplitStatements(sql);
      |sent| == |stmts| && forall k :: 0 <= k < |stmts| ==> sent[k] == stmts[k] + ";"
  {
    sent := [];
    if !calls.sqlApi.Thrown? {
      return true, SqlApi, sent;
    }
    if calls.pgql.Answered? {
      return true, Pgql, sent;
    }
    if calls.pgExecute.Answered? {
      return true, PgExecute, sent;
    }
    sent := RunStatements(SplitStatements(sql), statementCall);
    return true, PerStatement, sent;
  }

  /**
    The per-statement loop: sends each statement with a `;` appended, in order. A
    failing statement is skipped over, so its outcome does not affect what follows.
   */
  method RunStatements(statements: seq<string>, statementCall: string -> Call) returns (sent: seq<string>)
    ensures |sent| == |statements|
    ensures forall k :: 0 <= k < |statements| ==> sent[k] == statements[k] + ";"
  {
    sent := [];
    for i := 0 to |statements|
      invariant |sent| == i
      invariant forall k :: 0 <= k < i ==> sent[k] == statements[k] + ";"
    {
      var outcome := statementCall(statements[i] + ";");
      sent := sent + [statements[i] + ";"];
    }
  }

  /** What the route did: the answer, and the path of each fallback chain it ran. */
  datatype SetupOutcome = SetupOutcome(response: Response<string>, setupPath: Option<ExecPath>, triggerPath: Option<ExecPath>)

  /**
    POST /api/setup-database. Missing variables and a failed connection test are errors
    answered with status 500 before any SQL runs; otherwise the schema SQL and then the
    trigger SQL go through their fallback chains, and the setup succeeds.
   */
  method Setup(env: Env, probe: Probe, setupSql: string, setupCalls: ChainCalls, triggerSql: string,
               triggerCalls: ChainCalls, statementCall: string -> Call)
    returns (outcome: SetupOutcome)
    ensures outcome.response.Success? <==>
      Truthy(env.supabaseUrl) && Truthy(env.serviceRoleKey) && ConnectionTest(probe).None?
    ensures outcome.response.Success? ==> outcome.response.data == SetupCompleted
    ensures !Truthy(env.supabaseUrl) || !Truthy(env.serviceRoleKey) ==>
      outcome == SetupOutcome(Failure(500, MissingEnvironment), None, None)
    ensures Truthy(env.supabaseUrl) && Truthy(env.serviceRoleKey) && ConnectionTest(probe).Some? ==>
      outcome == SetupOutcome(Failure(500, ConnectionTest(probe).value), None, None)
    ensures outcome.response.Success? ==> outcome.setupPath.Some? && outcome.triggerPath.Some?
    ensures outcome.response.Success? ==>
      (outcome.setupPath == Some(SqlApi) <==> !setupCalls.sqlApi.Thrown?) &&
      (outcome.triggerPath == Some(SqlApi) <==> !triggerCalls.sqlApi.Thrown?)
  {
    if !Truthy(env.supabaseUrl) || !Truthy(env.serviceRoleKey) {
      return SetupOutcome(Failure(500, MissingEnvironment), None, None);
    }
    var connection := ConnectionTest(probe);
    if connection.Some? {
      return SetupOutcome(Failure(500, connection.value), None, None);
    }
    var setupSuccess, setupPath, _ := ExecuteWithFallbacks(setupSql, setupCalls, statementCall);
    var triggerSuccess, triggerPath, _ := ExecuteWithFallbacks(triggerSql, triggerCalls, statementCall);
    return SetupOutcome(Success(SetupCompleted), Some(setupPath), Some(triggerPath));
  }
}
