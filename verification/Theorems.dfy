/** The promises of the operator, over every run of the whole system. */
module Theorems {
  import opened Api
  import opened BaseSafety
  import opened Convergence
  import opened Credentials
  import opened Honesty
  import opened Isolation
  import opened Keyring
  import opened Mysql
  import opened Names
  import opened Operator
  import opened Recovery
  import opened Rendering
  import opened Resources
  import opened Store
  import opened System
  import opened Tenancy
  import opened Trust
  import opened Versions
  import opened Wrappers

  ghost predicate PlannedRun(p: Plan, moves: seq<Move>) { forall i :: 0 <= i < |moves| ==> Planned(p, moves[i]) }

  lemma {:induction false} RunKeepsAllOnPlan(c: Config, p: Plan, s: System, moves: seq<Move>)
    requires AllBase(s) && AllOnPlan(p, s) && PlannedRun(p, moves)
    ensures AllOnPlan(p, Run(c, s, moves))
  {
    if moves != [] {
      var before := moves[..|moves| - 1];
      RunKeepsAllOnPlan(c, p, s, before);
      RunKeepsAllBase(c, s, before);
      StepKeepsAllOnPlan(c, p, Run(c, s, before), moves[|moves| - 1]);
    }
  }

  lemma StepKeepsAllOnPlan(c: Config, p: Plan, s: System, m: Move)
    requires AllBase(s) && AllOnPlan(p, s) && Planned(p, m)
    ensures AllOnPlan(p, Step(c, s, m))
  {
    StepKeepsNames(c, s, m);
    forall n | n in s.ctl ensures OnPlan(p, Step(c, s, m), n) { StepKeepsPlan(c, p, s, m, n); }
  }

  lemma RunKeepsPlan(c: Config, p: Plan, names: set<string>, moves: seq<Move>)
    requires PlannedRun(p, moves)
    ensures AllOnPlan(p, Run(c, Init(names), moves))
  {
    InitIsBase(names);
    RunKeepsAllOnPlan(c, p, Init(names), moves);
  }

  lemma {:induction false} RunKeepsTenure(c: Config, p: Plan, names: set<string>, moves: seq<Move>, n: string)
    requires n in names && Separate(p, names) && PlannedRun(p, moves)
    ensures n in Run(c, Init(names), moves).ctl && Tenure(c, p, Run(c, Init(names), moves), n)
  {
    RunKeepsBase(c, names, moves);
    if moves != [] {
      var before := moves[..|moves| - 1];
      RunKeepsTenure(c, p, names, before, n);
      RunKeepsBase(c, names, before);
      RunKeepsPlan(c, p, names, before);
      var s, m := Run(c, Init(names), before), moves[|moves| - 1];
      if m.name == n {
        OwnStepKeepsTenure(c, p, s, n, m.action);
      } else {
        StepIsOwn(c, s, m, n);
        StepKeepsOtherShares(c, p, s, m, n);
      }
    }
  }

  // ---- Honest Ready ----

  lemma StepKeepsTrust(c: Config, p: Plan, s: System, m: Move, n: string)
    requires AllBase(s) && AllOnPlan(p, s) && Good(c, p, s, n) && (m.name == n ==> CleanMove(s, m))
    requires n in s.ctl && Separate(p, s.ctl.Keys)
    ensures TrustedAt(c, p, Step(c, s, m), n)
  {
    if m.name == n {
      OwnStepKeepsTrust(c, p, s, n, m.action);
    } else {
      StepIsOwn(c, s, m, n);
      StepKeepsOtherShares(c, p, s, m, n);
      TrustFrame(c, p, s, Step(c, s, m), n);
    }
  }

  lemma TrustFrame(c: Config, p: Plan, s: System, s': System, n: string)
    requires TrustedAt(c, p, s, n) && SameObjects(s, s', n) && ShareOf(p, s'.w.mysql, n) == ShareOf(p, s.w.mysql, n)
    ensures TrustedAt(c, p, s', n)
  { }

  lemma {:induction false} RunKeepsTrust(c: Config, p: Plan, s: System, moves: seq<Move>, n: string)
    requires AllBase(s) && AllOnPlan(p, s) && Separate(p, s.ctl.Keys) && PlannedRun(p, moves)
    requires Held(s, n) && HonorAt(c, s, n) && TrustedAt(c, p, s, n) && CleanSince(c, s, moves, n)
    ensures TrustedAt(c, p, Run(c, s, moves), n)
  {
    if moves != [] {
      var before, m := moves[..|moves| - 1], moves[|moves| - 1];
      CleanPrefix(c, s, moves, n);
      RunKeepsTrust(c, p, s, before, n);
      RunKeepsAllBase(c, s, before);
      RunKeepsAllOnPlan(c, p, s, before);
      RunKeepsHeld(c, s, before, n);
      RunKeepsHonor(c, s, before, n);
      StepKeepsTrust(c, p, Run(c, s, before), m, n);
    }
  }

  /** Before, site n was not stored; since then, that is for all the life of its present incarnation, no
      reconcile of it has adopted a Secret. What came earlier, and what other sites do, is free. */
  ghost predicate Unadopted(c: Config, names: set<string>, before: seq<Move>, birth: System, since: seq<Move>, s: System,
                            n: string)
  {
    && n in names && Reaches(c, names, before, birth) && n !in birth.w.sites
    && Reaches(c, names, before + since, s) && CleanSince(c, birth, since, n)
  }

  lemma UnadoptedIsRun(c: Config, names: set<string>, before: seq<Move>, birth: System, since: seq<Move>, s: System,
                       n: string)
    requires Unadopted(c, names, before, birth, since, s, n)
    ensures birth == Run(c, Init(names), before) && s == Run(c, birth, since)
    ensures AllBase(birth) && birth.ctl.Keys == names && Held(birth, n) && HonorAt(c, birth, n)
  {
    ReachesIsRun(c, names, before, birth);
    ReachesIsRun(c, names, before + since, s);
    RunAppend(c, Init(names), before, since);
    RunKeepsBase(c, names, before);
    RunHolds(c, names, before, n);
    UnstoredIsHonored(c, birth, n);
  }

  lemma ShownIsAll(c: Config, w: World, l: Site)
    requires Shown(c, w, l, 4)
    ensures forall kind :: Matches(c, w, l, kind)
  {
    forall kind ensures Matches(c, w, l, kind) {
      assert Matches(c, w, l, KINDS[0]) && Matches(c, w, l, KINDS[1])
             && Matches(c, w, l, KINDS[2]) && Matches(c, w, l, KINDS[3]);
      match kind
      case ConfigMapKind =>
      case DeploymentKind =>
      case ServiceKind =>
      case IngressKind =>
    }
  }

  /** In every reachable state, a site that reports Ready for its current generation, and of whose present
      incarnation no reconcile has adopted a Secret, has exactly the children its current spec renders, all
      its credentials in a Secret of its own, and a true summary. */
  lemma HonestReady(c: Config, names: set<string>, before: seq<Move>, birth: System, since: seq<Move>, s: System, n: string)
    requires Unadopted(c, names, before, birth, since, s, n)
    ensures n in s.w.sites && UpToDate(s.w.sites[n]) ==>
              (forall kind :: Matches(c, s.w, s.w.sites[n], kind)) && OwnSecret(s.w, s.w.sites[n]) && TrueSummary(s.w.sites[n])
  {
    UnadoptedIsRun(c, names, before, birth, since, s, n);
    RunKeepsAllBase(c, birth, since);
    RunKeepsHonor(c, birth, since, n);
    if n in s.w.sites && UpToDate(s.w.sites[n]) {
      ShownIsAll(c, s.w, s.w.sites[n]);
      assert StatusFor(s.w.sites[n], Ready, READY_MESSAGE, 0) == s.w.sites[n].status;
    }
  }

  /** If moreover every site keeps its derived names and no two share one, such a site has (unless its
      data is being dropped with it) a database it can log in to with the password in its Secret. */
  lemma HonestLogin(c: Config, p: Plan, names: set<string>, before: seq<Move>, birth: System, since: seq<Move>, s: System,
                    n: string)
    requires Separate(p, names) && PlannedRun(p, before + since) && Unadopted(c, names, before, birth, since, s, n)
    ensures n in s.w.sites && UpToDate(s.w.sites[n]) && !(s.w.sites[n].deleting && c.dropDataOnDelete) ==>
              && DbOf(p, n) in s.w.mysql.databases && UserOf(p, n) in s.w.mysql.users
              && SecretOf(s.w, n).Some?
              && s.w.mysql.users[UserOf(p, n)] == Password(SecretOf(s.w, n).value.data)
              && CanUse(s.w.mysql, UserOf(p, n), DbOf(p, n))
  {
    ReachableIsGood(c, p, names, before, birth, since, s, n);
    if n in s.w.sites && UpToDate(s.w.sites[n]) && !(s.w.sites[n].deleting && c.dropDataOnDelete) {
      IdentCovers(DbOf(p, n), DbOf(p, n));
      assert (DbOf(p, n), UserOf(p, n)) in s.w.mysql.grants;
    }
  }

  /** What the container of the stored Deployment is told lets it log in: the account named by its user
      variable has the password that its Secret reference resolves to, and can use the existing database
      named by its database variable, on the configured server. */
  ghost predicate CanLogIn(c: Config, w: World, env: seq<EnvVar>, host: string) {
    exists db, user, secret, key ::
      && Effective(env, "WORDPRESS_DB_HOST") == Some(EnvValue("WORDPRESS_DB_HOST", c.dbHost + ":" + c.dbPort))
      && Effective(env, "WORDPRESS_DB_NAME") == Some(EnvValue("WORDPRESS_DB_NAME", db))
      && Effective(env, "WORDPRESS_DB_USER") == Some(EnvValue("WORDPRESS_DB_USER", user))
      && Effective(env, "WORDPRESS_DB_PASSWORD") == Some(EnvSecret("WORDPRESS_DB_PASSWORD", secret, key))
      && secret in w.secrets && key in w.secrets[secret].data
      && LetsIn(w.mysql, Account(user, host), w.secrets[secret].data[key], db)
  }

  ghost predicate LetsIn(srv: Server, a: Account, password: string, db: string) {
    a in srv.users && srv.users[a] == password && db in srv.databases && CanUse(srv, a, db)
  }

  /** A site as in HonestLogin whose own variables leave those four alone: its container can log in. */
  lemma ContainerCanLogIn(c: Config, p: Plan, names: set<string>, before: seq<Move>, birth: System, since: seq<Move>,
                          s: System, n: string)
    requires Separate(p, names) && PlannedRun(p, before + since) && Unadopted(c, names, before, birth, since, s, n)
    ensures n in s.w.sites && UpToDate(s.w.sites[n]) && !(s.w.sites[n].deleting && c.dropDataOnDelete) ==>
              var site := s.w.sites[n];
              && ChildOf(s.w, n, DeploymentKind).Some? && ChildOf(s.w, n, DeploymentKind).value.data.Deployment?
              && (Leaves(site.spec.env, {"WORDPRESS_DB_HOST", "WORDPRESS_DB_NAME", "WORDPRESS_DB_USER",
                                         "WORDPRESS_DB_PASSWORD"}) ==>
                    CanLogIn(c, s.w, ChildOf(s.w, n, DeploymentKind).value.data.container.env,
                             if site.spec.database.host == "" then "%" else site.spec.database.host))
  {
    if n in s.w.sites && UpToDate(s.w.sites[n]) && !(s.w.sites[n].deleting && c.dropDataOnDelete) {
      var site := s.w.sites[n];
      HonestReady(c, names, before, birth, since, s, n);
      HonestLogin(c, p, names, before, birth, since, s, n);
      ReachableIsGood(c, p, names, before, birth, since, s, n);
      StoredDerives(p, s, n);
      assert Matches(c, s.w, site, DeploymentKind);
      if Leaves(site.spec.env, {"WORDPRESS_DB_HOST", "WORDPRESS_DB_NAME", "WORDPRESS_DB_USER", "WORDPRESS_DB_PASSWORD"}) {
        LoginVariables(c, site);
        CredentialIsRead(s.w, n);
        assert LetsIn(s.w.mysql, Account(DatabaseUser(site), DatabaseHost(site)),
                      s.w.secrets[n + "-wp"].data["WORDPRESS_DB_PASSWORD"], DatabaseName(site));
      }
    }
  }

  lemma StoredDerives(p: Plan, s: System, n: string)
    requires BaseAt(s, n) && OnPlan(p, s, n) && n in s.w.sites
    ensures s.w.sites[n].name == n && DatabaseName(s.w.sites[n]) == DbOf(p, n)
    ensures Account(DatabaseUser(s.w.sites[n]), DatabaseHost(s.w.sites[n])) == UserOf(p, n)
  {
    assert s.w.sites[n] in s.ctl[n].versions;
  }

  /** The password that goes to MySQL is the one under the key the container reads. */
  lemma CredentialIsRead(w: World, n: string)
    requires SecretComplete(w, n)
    ensures n + "-wp" in w.secrets && "WORDPRESS_DB_PASSWORD" in w.secrets[n + "-wp"].data
    ensures Password(SecretOf(w, n).value.data) == w.secrets[n + "-wp"].data["WORDPRESS_DB_PASSWORD"] != ""
  {
    assert Present(SecretOf(w, n).value.data, DB_PASSWORD_KEY);
  }

  /** The status tells the site's own database, user, Secret and URL, and the site is not suspended. */
  predicate TrueSummary(s: Site) {
    && !s.spec.suspend && s.status.url == URL(s) && s.status.secretName == SecretKey(s.name)
    && s.status.databaseName == DatabaseName(s) && s.status.databaseUser == DatabaseUser(s)
  }

  lemma PlannedParts(p: Plan, before: seq<Move>, since: seq<Move>)
    requires PlannedRun(p, before + since)
    ensures PlannedRun(p, before) && PlannedRun(p, since)
  {
    forall i | 0 <= i < |before| ensures Planned(p, before[i]) { assert (before + since)[i] == before[i]; }
    forall i | 0 <= i < |since| ensures Planned(p, since[i]) { assert (before + since)[|before| + i] == since[i]; }
  }

  lemma ReachableIsGood(c: Config, p: Plan, names: set<string>, before: seq<Move>, birth: System, since: seq<Move>,
                        s: System, n: string)
    requires Separate(p, names) && PlannedRun(p, before + since) && Unadopted(c, names, before, birth, since, s, n)
    ensures Good(c, p, s, n)
  {
    UnadoptedIsRun(c, names, before, birth, since, s, n);
    PlannedParts(p, before, since);
    RunKeepsPlan(c, p, names, before);
    RunKeepsTenure(c, p, names, before, n);
    UnstoredIsTrusted(c, p, birth, n);
    RunKeepsAllBase(c, birth, since);
    RunKeepsAllOnPlan(c, p, birth, since);
    RunKeepsHeld(c, birth, since, n);
    RunKeepsHonor(c, birth, since, n);
    RunKeepsTrust(c, p, birth, since, n);
  }

  /** No hot loop: in every such state, a fault-free reconcile with fresh reads of such a site, if it is
      live, leaves both servers as they are, whatever happened before. */
  lemma ReadyIsQuiet(c: Config, p: Plan, names: set<string>, before: seq<Move>, birth: System, since: seq<Move>, s: System,
                     n: string, o: Oracle)
    requires Separate(p, names) && PlannedRun(p, before + since) && Unadopted(c, names, before, birth, since, s, n) && Calm(o)
    ensures n in s.w.sites && UpToDate(s.w.sites[n]) && !s.w.sites[n].deleting
            ==> SameServers(s.w, Reconciled(c, s.w, n, o))
  {
    ReachableIsGood(c, p, names, before, birth, since, s, n);
    if n in s.w.sites && UpToDate(s.w.sites[n]) && !s.w.sites[n].deleting {
      assert s.w.sites[n] in s.ctl[n].versions;
      ReadyIsSettled(c, p, s, n);
      SettledIsQuiet(c, s.w, n, o);
    }
  }

  lemma ReadyIsSettled(c: Config, p: Plan, s: System, n: string)
    requires Good(c, p, s, n) && n in s.w.sites && UpToDate(s.w.sites[n]) && !s.w.sites[n].deleting
    requires Derives(p, n, s.w.sites[n].spec.database)
    ensures Settled(c, s.w, n)
  {
    var site, srv := s.w.sites[n], s.w.mysql;
    var password := Password(SecretOf(s.w, n).value.data);
    assert StatusFor(site, Ready, READY_MESSAGE, 0) == site.status;
    var f :| f in site.finalizers;
    assert site in s.ctl[n].versions && f == FINALIZER;
    ServedIsEnsured(p, srv, n, site, password);
  }

  lemma ServedIsEnsured(p: Plan, srv: Server, n: string, site: Site, password: string)
    requires site.name == n && Derives(p, n, site.spec.database)
    requires ShareOf(p, srv, n) == Share(true, Some(password), true)
    ensures Ensured(srv, site, password) == srv
  { }

  // ---- No orphan data ----

  lemma {:induction false} RunKeepsOwnGrants(c: Config, p: Plan, names: set<string>, moves: seq<Move>)
    requires PlannedRun(p, moves)
    ensures OwnGrantsOnly(p, names, Run(c, Init(names), moves).w.mysql)
  {
    if moves != [] {
      var before := moves[..|moves| - 1];
      RunKeepsOwnGrants(c, p, names, before);
      RunKeepsBase(c, names, before);
      RunKeepsPlan(c, p, names, before);
      var s, m := Run(c, Init(names), before), moves[|moves| - 1];
      StepSends(c, p, s, m);
      if Step(c, s, m).w.mysql != s.w.mysql {
        StatementKeepsOwnGrants(p, names, s.w.mysql, m.name, SentBy(s.ctl[m.name].pc).value);
      }
    }
  }

  /** With data dropped on delete, every database, user and grant on the server belongs to a site that
      is still stored and still has the finalizer, across crashes, partial drops and racing deletes. */
  lemma NoOrphanData(c: Config, p: Plan, names: set<string>, moves: seq<Move>, s: System)
    requires c.dropDataOnDelete && Separate(p, names) && PlannedRun(p, moves) && Reaches(c, names, moves, s)
    ensures var w := s.w;
            && (forall d :: d in w.mysql.databases ==> exists n :: Guarded(w, n) && d == DbOf(p, n))
            && (forall u :: u in w.mysql.users ==> exists n :: Guarded(w, n) && u == UserOf(p, n))
            && (forall g :: g in w.mysql.grants ==> exists n :: Guarded(w, n) && g == (DbOf(p, n), UserOf(p, n)))
  {
    ReachesIsRun(c, names, moves, s);
    RunKeepsOwnGrants(c, p, names, moves);
    var w := s.w;
    forall n | n in names ensures ShareOf(p, w.mysql, n) != NOTHING ==> Guarded(w, n) {
      RunKeepsTenure(c, p, names, moves, n);
    }
    forall d | d in w.mysql.databases ensures exists n :: Guarded(w, n) && d == DbOf(p, n) {
      var n :| n in names && d == DbOf(p, n);
      assert ShareOf(p, w.mysql, n).database;
    }
    forall u | u in w.mysql.users ensures exists n :: Guarded(w, n) && u == UserOf(p, n) {
      var n :| n in names && u == UserOf(p, n);
      assert ShareOf(p, w.mysql, n).password.Some?;
    }
    forall g | g in w.mysql.grants ensures exists n :: Guarded(w, n) && g == (DbOf(p, n), UserOf(p, n)) {
      var n :| n in names && g == (DbOf(p, n), UserOf(p, n));
      assert ShareOf(p, w.mysql, n).granted;
    }
  }

  predicate Guarded(w: World, n: string) { n in w.sites && FINALIZER in w.sites[n].finalizers }
}
