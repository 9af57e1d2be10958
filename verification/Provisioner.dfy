/** EnsureDatabase and DropDatabase in the form of the program (internal/mysql/provisioner.go):
    validate, then send the statements in order and stop at the first error. */
module Provisioner {
  import opened Api
  import opened Client
  import opened Convergence
  import opened Interference
  import opened Mysql
  import opened Names
  import opened Operator
  import opened Store
  import opened Wrappers

  /** Sending the statements from number `from` on: the world, the calls made, and the first error. */
  function Sent(w: World, stmts: seq<Statement>, from: nat, o: Oracle, others: Others, i: nat): (World, nat, Option<string>)
    decreases |stmts| - from
  {
    if from >= |stmts| then (w, i, None)
    else
      var r := Respond(others(i, w), ExecuteSql(others(i, w), stmts[from]), o(i).outcome);
      if r.1.Err? then (r.0, i + 1, Some(Describe(r.1.error))) else Sent(r.0, stmts, from + 1, o, others, i + 1)
  }

  method Send(servers: Servers, stmts: seq<Statement>) returns (err: Option<string>)
    modifies servers
    ensures (servers.w, servers.calls, err) == Sent(old(servers.w), stmts, 0, servers.oracle, servers.others, old(servers.calls))
  {
    for k := 0 to |stmts|
      invariant Sent(old(servers.w), stmts, 0, servers.oracle, servers.others, old(servers.calls))
                == Sent(servers.w, stmts, k, servers.oracle, servers.others, servers.calls)
    {
      var r := servers.Exec(stmts[k]);
      if r.Err? { return Some(Describe(r.error)); }
    }
    err := None;
  }

  method EnsureDatabase(servers: Servers, db: string, user: string, host: string, password: string)
      returns (err: Option<string>)
    modifies servers
    ensures ValidIdent(db) && ValidIdent(user) ==>
              (servers.w, servers.calls, err)
              == Sent(old(servers.w), EnsureStatements(db, Account(user, host), password), 0,
                      servers.oracle, servers.others, old(servers.calls))
    ensures !(ValidIdent(db) && ValidIdent(user)) ==>
              err == Some("invalid identifier") && servers.w == old(servers.w) && servers.calls == old(servers.calls)
  {
    var ok := ValidateIdent(db);
    if !ok { return Some("invalid identifier"); }
    ok := ValidateIdent(user);
    if !ok { return Some("invalid identifier"); }
    err := Send(servers, EnsureStatements(db, Account(user, host), password));
  }

  method DropDatabase(servers: Servers, db: string, user: string, host: string) returns (err: Option<string>)
    modifies servers
    ensures ValidIdent(db) && ValidIdent(user) ==>
              (servers.w, servers.calls, err)
              == Sent(old(servers.w), DropStatements(db, Account(user, host)), 0, servers.oracle, servers.others, old(servers.calls))
    ensures !(ValidIdent(db) && ValidIdent(user)) ==>
              err == Some("invalid identifier") && servers.w == old(servers.w) && servers.calls == old(servers.calls)
  {
    var ok := ValidateIdent(db);
    if !ok { return Some("invalid identifier"); }
    ok := ValidateIdent(user);
    if !ok { return Some("invalid identifier"); }
    err := Send(servers, DropStatements(db, Account(user, host)));
  }

  /** The loop is the machine's sequence of SQL effects. */
  lemma {:induction false} SentIsAmid(c: Config, w: World, l: Site, password: string, next: nat, o: Oracle, others: Others, i: nat,
                                        end: World, j: nat, err: Option<string>)
    requires next < 5 && Sent(w, EnsureOf(l, password), next, o, others, i) == (end, j, err)
    ensures Amid(c, w, RunSql(l, password, next), o, others, i)
            == Amid(c, end, if err.None? then Apply(l, 0) else NoDatabase(l, err.value), o, others, j)
    decreases 5 - next
  {
    var (w', pc') := DoRunSql(others(i, w), l, password, next, o(i));
    AmidOne(c, w, RunSql(l, password, next), o, others, i, w', pc');
    if pc'.RunSql? {
      SentIsAmid(c, w', l, password, next + 1, o, others, i + 1, end, j, err);
    }
  }

  lemma {:induction false} DropIsAmid(c: Config, w: World, l: Site, next: nat, o: Oracle, others: Others, i: nat,
                                        end: World, j: nat, err: Option<string>)
    requires next < 3 && Sent(w, DropOf(l), next, o, others, i) == (end, j, err)
    ensures Amid(c, w, DropSql(l, next), o, others, i)
            == Amid(c, end, if err.None? then RemoveFinalizer(l) else Stopped(true), o, others, j)
    decreases 3 - next
  {
    var (w', pc') := DoDropSql(others(i, w), l, next, o(i));
    AmidOne(c, w, DropSql(l, next), o, others, i, w', pc');
    if pc'.DropSql? {
      DropIsAmid(c, w', l, next + 1, o, others, i + 1, end, j, err);
    }
  }

  /** What is sent is text; with a plain host the server reads each text of a site as the statement
      that was meant, whatever its password is. */
  lemma TextsAreUnderstood(l: Site, password: string)
    requires UsableNames(l) && Plain(DatabaseHost(l))
    ensures forall s :: s in EnsureOf(l, password) + DropOf(l) ==> ReadText(Text(s)) == Some(s)
  {
    forall s | s in EnsureOf(l, password) + DropOf(l) ensures ReadText(Text(s)) == Some(s) {
      TextMeansStatement(s);
    }
  }
}
