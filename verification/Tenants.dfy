/** Sites without database overrides, named by short dot-free labels: what their MySQL users can reach. */
module Tenants {
  import opened Api
  import opened BaseSafety
  import opened Convergence
  import opened Edits
  import opened Isolation
  import opened Mysql
  import opened Names
  import opened Operator
  import opened Recovery
  import opened Schedules
  import opened Store
  import opened System
  import opened Tenancy
  import opened Theorems

  /** A site whose generated database and user no other such site has: its name is a dot-free label of
      at most 28 characters and it overrides nothing (see Names). */
  predicate Tenant(n: string, db: DatabaseSpec) { Label(n) && |n| <= 28 && NoOverrides(db) }

  ghost predicate Tenants(p: Plan, names: set<string>) {
    forall n {:trigger Tenant(n, p(n))} :: n in names ==> Tenant(n, p(n))
  }

  lemma TenantsAreSeparate(p: Plan, names: set<string>)
    requires Tenants(p, names)
    ensures Separate(p, names)
  {
    forall a, b | a in names && b in names && a != b
      ensures DbOf(p, a) != DbOf(p, b) && UserOf(p, a) != UserOf(p, b)
    {
      assert Tenant(a, p(a)) && Tenant(b, p(b));
      if DbOf(p, a) == DbOf(p, b) { DerivedInjective("wp_", MAX_DATABASE, a, b); }
      if UserOf(p, a) == UserOf(p, b) { DerivedInjective("wpu_", MAX_USER, a, b); }
    }
  }

  /** Whatever any other site does next in such a run, nothing of this site changes, on either server. */
  lemma TenantIsolation(c: Config, p: Plan, names: set<string>, moves: seq<Move>, s: System, next: Move, s': System,
                        n: string)
    requires Tenants(p, names) && PlannedRun(p, moves)
    requires Reaches(c, names, moves, s) && Reaches(c, names, moves + [next], s') && n in names && next.name != n
    ensures ShareOf(p, s'.w.mysql, n) == ShareOf(p, s.w.mysql, n) && Untouched(s.w, s'.w, n)
  {
    ReachesIsRun(c, names, moves, s);
    ReachesIsRun(c, names, moves + [next], s');
    assert (moves + [next])[..|moves|] == moves;
    TenantsAreSeparate(p, names);
    RunKeepsBase(c, names, moves);
    RunKeepsPlan(c, p, names, moves);
    StepKeepsOtherShares(c, p, s, next, n);
    StepIsOwn(c, s, next, n);
  }

  // ---- What a tenant's grant covers ----

  /** The first name is the second, but perhaps for what stands at its dashes. */
  predicate Overlaps(a: string, b: string) {
    |a| == |b| && forall i :: 0 <= i < |a| ==> a[i] == '-' || a[i] == b[i]
  }

  lemma GeneratedName(n: string, db: DatabaseSpec)
    requires Tenant(n, db)
    ensures DatabaseNameFor(n, db) == "wp_" + Sanitize(n) && |Sanitize(n)| == |n|
    ensures forall i :: 0 <= i < |n| ==> Sanitize(n)[i] == if n[i] == '-' then '_' else n[i]
    ensures ValidIdent(DatabaseNameFor(n, db))
  {
    LabelIsSubdomain(n);
    SanitizeName(n);
    DerivedNamesAreUsable(n, db);
  }

  lemma FitsIff(a: string, b: string)
    requires Label(a) && Label(b) && |Sanitize(a)| == |a| && |Sanitize(b)| == |b|
    requires forall i :: 0 <= i < |a| ==> Sanitize(a)[i] == if a[i] == '-' then '_' else a[i]
    requires forall i :: 0 <= i < |b| ==> Sanitize(b)[i] == if b[i] == '-' then '_' else b[i]
    ensures Fits("wp_" + Sanitize(a), "wp_" + Sanitize(b)) <==> Overlaps(a, b)
  {
    var x, y := "wp_" + Sanitize(a), "wp_" + Sanitize(b);
    if Fits(x, y) {
      forall i | 0 <= i < |a| ensures a[i] == '-' || a[i] == b[i] {
        assert x[i + 3] == Sanitize(a)[i] && y[i + 3] == Sanitize(b)[i];
      }
    }
    if Overlaps(a, b) {
      forall i | 0 <= i < |x| ensures x[i] == '_' || x[i] == y[i] {
        if i >= 3 { assert x[i] == Sanitize(a)[i - 3] && y[i] == Sanitize(b)[i - 3]; }
      }
    }
  }

  /** The grant a site asks for covers another site's database exactly when the names overlap: the
      underscores that stand for its dashes are wildcards. */
  lemma TenantCovers(p: Plan, a: string, b: string)
    requires Tenant(a, p(a)) && Tenant(b, p(b))
    ensures Covers(DbOf(p, a), DbOf(p, b)) <==> Overlaps(a, b)
  {
    GeneratedName(a, p(a));
    GeneratedName(b, p(b));
    FitsIff(a, b);
    IdentCovers(DbOf(p, a), DbOf(p, b));
  }

  /** Every generated name has an underscore: no generated grant is scoped to only its database. */
  lemma GeneratedScope(n: string, db: DatabaseSpec)
    requires db.name == "" && db.user == ""
    ensures exists d :: Covers(DatabaseNameFor(n, db), d) && d != DatabaseNameFor(n, db)
  {
    var name := DatabaseNameFor(n, db);
    DerivedNamesAreUsable(n, db);
    assert name[2] == '_';
    ScopeIff(name);
  }

  /** In every reachable state, a site's user can use a site's database exactly when its own grant is
      there and its name overlaps the other's; every name overlaps itself. */
  lemma TenantGrants(c: Config, p: Plan, names: set<string>, moves: seq<Move>, s: System, a: string, b: string)
    requires Tenants(p, names) && PlannedRun(p, moves) && Reaches(c, names, moves, s) && a in names && b in names
    ensures CanUse(s.w.mysql, UserOf(p, a), DbOf(p, b)) <==>
            (DbOf(p, a), UserOf(p, a)) in s.w.mysql.grants && Overlaps(a, b)
  {
    ReachesIsRun(c, names, moves, s);
    TenantsAreSeparate(p, names);
    RunKeepsOwnGrants(c, p, names, moves);
    assert Tenant(a, p(a)) && Tenant(b, p(b));
    TenantCovers(p, a, b);
  }

  // ---- When tenants' data is private ----

  /** No user of one site can ever use the database of another. */
  ghost predicate Private(c: Config, p: Plan, names: set<string>) {
    forall moves, s, a, b :: PlannedRun(p, moves) && Reaches(c, names, moves, s) && a in names && b in names && a != b
                             ==> !CanUse(s.w.mysql, UserOf(p, a), DbOf(p, b))
  }

  ghost predicate Apart(names: set<string>) { forall a, b :: a in names && b in names && a != b ==> !Overlaps(a, b) }

  const CALM: Oracle := (i: nat) => Tick(Done, 0, k => "x", Fresh)

  function TenantContent(db: DatabaseSpec): Content { Content(NO_SPEC.(database := db), map[]) }

  lemma {:induction false} ReconcilingIsOwn(c: Config, s: System, n: string, moves: seq<Move>, m: string)
    requires AllBase(s) && Reconciling(n, moves) && m != n && m in s.ctl
    ensures SameObjects(s, Run(c, s, moves), m)
  {
    if moves != [] {
      var before := moves[..|moves| - 1];
      assert moves[|moves| - 1] in moves && forall x :: x in before ==> x in moves;
      ReconcilingIsOwn(c, s, n, before, m);
      RunKeepsAllBase(c, s, before);
      StepIsOwn(c, Run(c, s, before), moves[|moves| - 1], m);
    }
  }

  lemma CreateIsOwn(c: Config, s: System, n: string, namespace: string, x: Content, m: string)
    requires AllBase(s) && m != n && m in s.ctl && n in s.ctl
    ensures SameObjects(s, Run(c, s, [Move(n, Create(namespace, x))]), m)
  {
    RunOne(c, s, Move(n, Create(namespace, x)));
    StepIsOwn(c, s, Move(n, Create(namespace, x)), m);
  }

  /** To every site but n the two states look the same. */
  ghost predicate OnlyMoved(s: System, s': System, n: string) {
    forall m :: m != n && m in s.ctl ==> SameObjects(s, s', m)
  }

  lemma OnlyMovedTwice(s: System, s1: System, s2: System, n: string)
    requires OnlyMoved(s, s1, n) && OnlyMoved(s1, s2, n)
    ensures OnlyMoved(s, s2, n)
  {
    forall m | m != n && m in s.ctl ensures SameObjects(s, s2, m) {
      assert SameObjects(s, s1, m) && SameObjects(s1, s2, m);
    }
  }

  /** What provisioning a tenant adds to the server. */
  ghost predicate Added(p: Plan, srv: Server, srv': Server, n: string) {
    srv'.databases == srv.databases + {DbOf(p, n)} && srv'.grants == srv.grants + {(DbOf(p, n), UserOf(p, n))}
  }

  lemma ReconcileAdds(c: Config, p: Plan, w: World, n: string)
    requires Live(w, n) && !w.sites[n].spec.suspend && UsableNames(w.sites[n])
    requires Derives(p, n, w.sites[n].spec.database)
    ensures Added(p, w.mysql, Reconciled(c, w, n, CALM).mysql, n)
  {
    Recover(c, w, n, CALM);
  }

  lemma CreatesTenant(c: Config, p: Plan, s: System, n: string, x: Content) returns (s': System)
    requires AllBase(s) && n in s.ctl && n !in s.w.sites && s.ctl[n].pc.Stopped? && Tenant(n, p(n))
    requires x == TenantContent(p(n))
    ensures s' == Run(c, s, [Move(n, Create("", x))])
    ensures Idle(s', n) && Live(s'.w, n) && !s'.w.sites[n].spec.suspend && UsableNames(s'.w.sites[n])
    ensures Derives(p, n, s'.w.sites[n].spec.database)
    ensures s'.ctl.Keys == s.ctl.Keys && OnlyMoved(s, s', n) && s'.w.mysql == s.w.mysql
  {
    DerivedNamesAreUsable(n, p(n));
    s' := CreatedAfresh(c, s, n, "", x);
    forall m | m != n && m in s.ctl ensures SameObjects(s, s', m) { CreateIsOwn(c, s, n, "", x, m); }
  }

  lemma ReconcilesTenant(c: Config, p: Plan, s: System, n: string) returns (moves: seq<Move>, s': System)
    requires Idle(s, n) && Live(s.w, n) && !s.w.sites[n].spec.suspend && UsableNames(s.w.sites[n])
    requires Derives(p, n, s.w.sites[n].spec.database)
    ensures s' == Run(c, s, moves) && Reconciling(n, moves)
    ensures AllBase(s') && s'.ctl.Keys == s.ctl.Keys && OnlyMoved(s, s', n) && Added(p, s.w.mysql, s'.w.mysql, n)
  {
    assert Sees(CALM, Fresh);
    moves := ReconcileIsRun(c, s, n, CALM, Fresh);
    s' := Run(c, s, moves);
    forall m | m != n && m in s.ctl ensures SameObjects(s, s', m) { ReconcilingIsOwn(c, s, n, moves, m); }
    ReconcileAdds(c, p, s.w, n);
  }

  lemma PlannedMoves(p: Plan, n: string, acts: seq<Move>, create: Move)
    requires Reconciling(n, acts) && create == Move(n, Create("", TenantContent(p(n))))
    ensures PlannedRun(p, [create] + acts)
  {
    forall i | 0 <= i < |[create] + acts| ensures Planned(p, ([create] + acts)[i]) {
      if i > 0 { assert ([create] + acts)[i] in acts; }
    }
  }

  /** A tenant not stored is created and provisioned, and the other sites do not notice. */
  lemma Provisions(c: Config, p: Plan, s: System, n: string) returns (moves: seq<Move>, s': System)
    requires AllBase(s) && n in s.ctl && n !in s.w.sites && s.ctl[n].pc.Stopped? && Tenant(n, p(n))
    ensures s' == Run(c, s, moves) && PlannedRun(p, moves)
    ensures AllBase(s') && s'.ctl.Keys == s.ctl.Keys && OnlyMoved(s, s', n) && Added(p, s.w.mysql, s'.w.mysql, n)
  {
    var create := Move(n, Create("", TenantContent(p(n))));
    var s1 := CreatesTenant(c, p, s, n, TenantContent(p(n)));
    var acts;
    acts, s' := ReconcilesTenant(c, p, s1, n);
    moves := [create] + acts;
    RunAppend(c, s, [create], acts);
    PlannedMoves(p, n, acts, create);
    OnlyMovedTwice(s, s1, s', n);
  }

  lemma UnstoredAtFirst(names: set<string>, s: System, a: string, b: string)
    requires a != b && b in names && OnlyMoved(Init(names), s, a)
    ensures b in s.ctl && b !in s.w.sites && s.ctl[b].pc.Stopped?
  {
    assert SameObjects(Init(names), s, b);
  }

  lemma BothProvisioned(c: Config, p: Plan, names: set<string>, a: string, b: string) returns (moves: seq<Move>, s: System)
    requires a in names && b in names && a != b && Tenant(a, p(a)) && Tenant(b, p(b))
    ensures s == Run(c, Init(names), moves) && PlannedRun(p, moves)
    ensures (DbOf(p, a), UserOf(p, a)) in s.w.mysql.grants && DbOf(p, b) in s.w.mysql.databases
  {
    InitIsBase(names);
    var first, s1 := Provisions(c, p, Init(names), a);
    UnstoredAtFirst(names, s1, a, b);
    var second;
    second, s := Provisions(c, p, s1, b);
    moves := first + second;
    RunAppend(c, Init(names), first, second);
  }

  /** Overlapping names: a run after which the one site's user can use the other's database. */
  lemma OverlapIsReached(c: Config, p: Plan, names: set<string>, a: string, b: string) returns (moves: seq<Move>, s: System)
    requires Tenants(p, names) && a in names && b in names && a != b && Overlaps(a, b)
    ensures PlannedRun(p, moves) && Reaches(c, names, moves, s)
    ensures CanUse(s.w.mysql, UserOf(p, a), DbOf(p, b)) && DbOf(p, b) in s.w.mysql.databases
  {
    assert Tenant(a, p(a)) && Tenant(b, p(b));
    moves, s := BothProvisioned(c, p, names, a, b);
    ReachesIsRun(c, names, moves, s);
    TenantCovers(p, a, b);
  }

  /** The tenants' data is private in every run exactly when no two of their names overlap. */
  lemma PrivateIff(c: Config, p: Plan, names: set<string>)
    requires Tenants(p, names)
    ensures Private(c, p, names) <==> Apart(names)
  {
    if Apart(names) {
      forall moves, s, a, b | PlannedRun(p, moves) && Reaches(c, names, moves, s) && a in names && b in names && a != b
        ensures !CanUse(s.w.mysql, UserOf(p, a), DbOf(p, b))
      {
        TenantGrants(c, p, names, moves, s, a, b);
      }
    } else {
      var a, b :| a in names && b in names && a != b && Overlaps(a, b);
      var moves, s := OverlapIsReached(c, p, names, a, b);
    }
  }

  lemma DashNames(p: Plan)
    requires p("a-b") == p("axb") == DatabaseSpec("", "", "")
    ensures UserOf(p, "a-b") == Account("wpu_a_b", "%") && DbOf(p, "axb") == "wp_axb"
    ensures Tenants(p, {"a-b", "axb"})
  {
    GeneratedName("a-b", p("a-b"));
    GeneratedName("axb", p("axb"));
    assert Sanitize("a-b") == "a_b" && Sanitize("axb") == "axb";
  }

  /** The sites "a-b" and "axb": after two reconciles the first one's user can use the second's database. */
  lemma DashReachesAcross(c: Config) returns (moves: seq<Move>, s: System)
    ensures Reaches(c, {"a-b", "axb"}, moves, s)
    ensures CanUse(s.w.mysql, Account("wpu_a_b", "%"), "wp_axb") && "wp_axb" in s.w.mysql.databases
  {
    var p: Plan := _ => DatabaseSpec("", "", "");
    DashNames(p);
    moves, s := OverlapIsReached(c, p, {"a-b", "axb"}, "a-b", "axb");
  }
}
