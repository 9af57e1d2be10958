/** The shared MySQL server as the sites see it: every statement an operator sends concerns its own
    site's database and user only. */
module Tenancy {
  import opened Api
  import opened BaseSafety
  import opened Edits
  import opened Isolation
  import opened Mysql
  import opened Names
  import opened NoLostUpdates
  import opened Operator
  import opened Store
  import opened System
  import opened Versions
  import opened Wrappers

  /** The database section each site name keeps over its lifetime. */
  type Plan = string -> DatabaseSpec

  function DbOf(p: Plan, n: string): string { DatabaseNameFor(n, p(n)) }

  function UserOf(p: Plan, n: string): Account { Account(DatabaseUserFor(n, p(n)), DatabaseHostFor(p(n))) }

  /** A database section under which site n gets the planned database, user and host. */
  predicate Derives(p: Plan, n: string, db: DatabaseSpec) {
    DatabaseNameFor(n, db) == DbOf(p, n) && Account(DatabaseUserFor(n, db), DatabaseHostFor(db)) == UserOf(p, n)
  }

  ghost predicate Separate(p: Plan, names: set<string>) {
    forall a, b :: a in names && b in names && a != b ==> DbOf(p, a) != DbOf(p, b) && UserOf(p, a) != UserOf(p, b)
  }

  /** A move that leaves its site's derived database, user and host as planned. */
  ghost predicate Planned(p: Plan, m: Move) {
    && (m.action.Create? ==> Derives(p, m.name, m.action.content.spec.database))
    && (m.action.Commit? && m.action.edit.YamlEdit? ==> Derives(p, m.name, m.action.edit.spec.database))
  }

  ghost predicate OnPlan(p: Plan, s: System, n: string) {
    n in s.ctl && forall v :: v in s.ctl[n].versions ==> Derives(p, n, v.spec.database)
  }

  lemma CommitKeepsPlan(p: Plan, s: System, n: string, copy: Site, e: Edit)
    requires BaseAt(s, n) && OnPlan(p, s, n) && (e.YamlEdit? ==> Derives(p, n, e.spec.database))
    ensures var s' := DoCommit(s, n, copy, e);
            n in s'.w.sites ==> Derives(p, n, s'.w.sites[n].spec.database)
  { }

  lemma ActKeepsPlan(c: Config, p: Plan, s: System, n: string, k: Tick)
    requires BaseAt(s, n) && OnPlan(p, s, n)
    ensures var w' := DoAct(c, s, n, k).w;
            n in w'.sites ==> Derives(p, n, w'.sites[n].spec.database)
  {
    EffectKeepsContent(c, s, n, k);
    if n in s.w.sites { assert s.w.sites[n] in s.ctl[n].versions; }
  }

  lemma OthersKeepPlan(c: Config, p: Plan, s: System, m: Move)
    requires BaseAt(s, m.name) && OnPlan(p, s, m.name) && Planned(p, m) && !m.action.Act? && !m.action.Commit?
    ensures var w' := Step(c, s, m).w;
            m.name in w'.sites ==> Derives(p, m.name, w'.sites[m.name].spec.database)
  {
    OthersKeepContent(c, s, m.name, m.action);
    if m.name in s.w.sites { assert s.w.sites[m.name] in s.ctl[m.name].versions; }
  }

  lemma OwnStepKeepsPlan(c: Config, p: Plan, s: System, m: Move, s': System)
    requires BaseAt(s, m.name) && OnPlan(p, s, m.name) && Planned(p, m) && s' == Step(c, s, m)
    ensures OnPlan(p, s', m.name)
  {
    var n := m.name;
    StepSees(c, s, m);
    match m.action
    case Act(k) => if Possible(s, n, k) { ActKeepsPlan(c, p, s, n, k); }
    case Commit(copy, e) => CommitKeepsPlan(p, s, n, copy, e);
    case _ => OthersKeepPlan(c, p, s, m);
  }

  /** A move stores at most one new version. */
  lemma StepSees(c: Config, s: System, m: Move)
    requires m.name in s.ctl
    ensures var n, s' := m.name, Step(c, s, m);
            && n in s'.ctl
            && s'.ctl[n].versions <= s.ctl[n].versions + (if n in s'.w.sites then {s'.w.sites[n]} else {})
  { }

  lemma StepKeepsPlan(c: Config, p: Plan, s: System, m: Move, n: string)
    requires AllBase(s) && OnPlan(p, s, n) && Planned(p, m)
    ensures OnPlan(p, Step(c, s, m), n)
  {
    if m.name != n {
      StepIsOwn(c, s, m, n);
    } else {
      OwnStepKeepsPlan(c, p, s, m, Step(c, s, m));
    }
  }

  // ---- One site's part of the server ----

  datatype Share = Share(database: bool, password: Option<string>, granted: bool)

  function ShareOf(p: Plan, srv: Server, n: string): Share {
    Share(DbOf(p, n) in srv.databases,
          if UserOf(p, n) in srv.users then Some(srv.users[UserOf(p, n)]) else None,
          (DbOf(p, n), UserOf(p, n)) in srv.grants)
  }

  /** The effect of one statement of the site's own on its share; None when the server refuses. */
  function ShareAfter(h: Share, s: Statement): Option<Share> {
    match s
    case CreateDatabase(_) => Some(h.(database := true))
    case CreateUser(_, w) => Some(if h.password.Some? then h else h.(password := Some(w)))
    case AlterUser(_, w) => if h.password.Some? then Some(h.(password := Some(w))) else None
    case GrantAll(_, _) => if h.password.Some? then Some(h.(granted := true)) else None
    case FlushPrivileges => Some(h)
    case DropDatabase(_) => Some(h.(database := false))
    case DropUser(_) => Some(h.(password := None, granted := false))
  }

  ghost predicate Concerns(p: Plan, n: string, s: Statement) {
    match s
    case CreateDatabase(db) => db == DbOf(p, n)
    case CreateUser(a, _) => a == UserOf(p, n)
    case AlterUser(a, _) => a == UserOf(p, n)
    case GrantAll(db, a) => db == DbOf(p, n) && a == UserOf(p, n)
    case FlushPrivileges => true
    case DropDatabase(db) => db == DbOf(p, n)
    case DropUser(a) => a == UserOf(p, n)
  }

  lemma OwnStatement(p: Plan, srv: Server, n: string, s: Statement)
    requires Concerns(p, n, s)
    ensures match Execute(srv, s)
            case None => ShareAfter(ShareOf(p, srv, n), s) == None
            case Some(srv') => ShareAfter(ShareOf(p, srv, n), s) == Some(ShareOf(p, srv', n))
  { }

  lemma OtherStatement(p: Plan, names: set<string>, srv: Server, n: string, m: string, s: Statement)
    requires Separate(p, names) && n in names && m in names && n != m && Concerns(p, n, s) && Execute(srv, s).Some?
    ensures ShareOf(p, Execute(srv, s).value, m) == ShareOf(p, srv, m)
  { }

  lemma EffectConcernsOwn(p: Plan, site: Site, password: string)
    requires Derives(p, site.name, site.spec.database)
    ensures forall i :: 0 <= i < 5 ==> Concerns(p, site.name, EnsureOf(site, password)[i])
    ensures forall i :: 0 <= i < 3 ==> Concerns(p, site.name, DropOf(site)[i])
  { }

  /** Only the SQL effects reach the MySQL server. */
  function SentBy(pc: Pc): Option<Statement> {
    if pc.RunSql? && pc.next < 5 then Some(EnsureOf(pc.site, pc.password)[pc.next])
    else if pc.DropSql? && pc.next < 3 then Some(DropOf(pc.site)[pc.next])
    else None
  }

  lemma ServerAfterSql(w: World, site: Site, password: string, next: nat, k: Tick)
    ensures next < 5 ==>
              var srv := DoRunSql(w, site, password, next, k).0.mysql;
              srv == w.mysql || Execute(w.mysql, EnsureOf(site, password)[next]) == Some(srv)
    ensures next < 3 ==>
              var srv := DoDropSql(w, site, next, k).0.mysql;
              srv == w.mysql || Execute(w.mysql, DropOf(site)[next]) == Some(srv)
  { }

  lemma ApplySendsNothing(c: Config, w: World, l: Site, next: nat, k: Tick)
    requires next < 4
    ensures DoApply(c, w, l, next, k).0.mysql == w.mysql
  { }

  lemma WritesSendNothing(w: World, l: Site, phase: Phase, message: string, k: Tick)
    ensures DoAddFinalizer(w, l, k).0.mysql == w.mysql && DoRemoveFinalizer(w, l, k).0.mysql == w.mysql
    ensures DoWriteStatus(w, l, phase, message, k).0.mysql == w.mysql
  { }

  lemma ServerAfter(c: Config, w: World, pc: Pc, k: Tick)
    ensures var srv := Effect(c, w, pc, k).0.mysql;
            srv == w.mysql || (SentBy(pc).Some? && Execute(w.mysql, SentBy(pc).value) == Some(srv))
  {
    match pc
    case Stopped(_) =>
    case AddFinalizer(l) => WritesSendNothing(w, l, Error, "", k);
    case GetSecret(_) =>
    case PutSecret(_, _, _) =>
    case RunSql(site, password, next) => ServerAfterSql(w, site, password, next, k);
    case Apply(l, next) => if next < 4 { ApplySendsNothing(c, w, l, next, k); }
    case WriteStatus(l, phase, message) => WritesSendNothing(w, l, phase, message, k);
    case DropSql(site, next) => ServerAfterSql(w, site, "", next, k);
    case RemoveFinalizer(l) => WritesSendNothing(w, l, Error, "", k);
  }

  ghost predicate AllOnPlan(p: Plan, s: System) { forall n :: n in s.ctl ==> OnPlan(p, s, n) }

  lemma ActSends(c: Config, p: Plan, s: System, n: string, k: Tick)
    requires BaseAt(s, n) && OnPlan(p, s, n)
    ensures var srv, pc := DoAct(c, s, n, k).w.mysql, s.ctl[n].pc;
            srv == s.w.mysql
            || (SentBy(pc).Some? && Concerns(p, n, SentBy(pc).value) && Execute(s.w.mysql, SentBy(pc).value) == Some(srv))
  {
    var pc := s.ctl[n].pc;
    ServerAfter(c, s.w, pc, k);
    if !pc.Stopped? {
      assert pc.site in s.ctl[n].versions;
      EffectConcernsOwn(p, pc.site, if pc.RunSql? then pc.password else "");
    }
  }

  lemma OthersSendNothing(c: Config, s: System, m: Move)
    requires !m.action.Act?
    ensures Step(c, s, m).w.mysql == s.w.mysql
  { }

  /** A move leaves the server as it is or executes one statement of the moving site's own. */
  lemma StepSends(c: Config, p: Plan, s: System, m: Move)
    requires m.name in s.ctl ==> BaseAt(s, m.name) && OnPlan(p, s, m.name)
    ensures var srv := Step(c, s, m).w.mysql;
            srv == s.w.mysql
            || (m.name in s.ctl && m.action.Act? && SentBy(s.ctl[m.name].pc).Some?
                && Concerns(p, m.name, SentBy(s.ctl[m.name].pc).value)
                && Execute(s.w.mysql, SentBy(s.ctl[m.name].pc).value) == Some(srv))
  {
    if !m.action.Act? {
      OthersSendNothing(c, s, m);
    } else if m.name in s.ctl && Possible(s, m.name, m.action.tick) {
      ActSends(c, p, s, m.name, m.action.tick);
    }
  }

  /** No move of one site changes another site's database, user, password or grant. */
  lemma StepKeepsOtherShares(c: Config, p: Plan, s: System, m: Move, n: string)
    requires AllBase(s) && AllOnPlan(p, s) && Separate(p, s.ctl.Keys) && n in s.ctl && m.name != n
    ensures ShareOf(p, Step(c, s, m).w.mysql, n) == ShareOf(p, s.w.mysql, n)
  {
    StepSends(c, p, s, m);
    if Step(c, s, m).w.mysql != s.w.mysql {
      OtherStatement(p, s.ctl.Keys, s.w.mysql, m.name, n, SentBy(s.ctl[m.name].pc).value);
    }
  }

  /** Everything on the server belongs to some site, and every grant pairs a site's own user with
      its own database. */
  ghost predicate OwnGrantsOnly(p: Plan, names: set<string>, srv: Server) {
    && (forall d :: d in srv.databases ==> exists n :: n in names && d == DbOf(p, n))
    && (forall u :: u in srv.users ==> exists n :: n in names && u == UserOf(p, n))
    && (forall g :: g in srv.grants ==> exists n :: n in names && g == (DbOf(p, n), UserOf(p, n)))
  }

  lemma StatementKeepsOwnGrants(p: Plan, names: set<string>, srv: Server, n: string, s: Statement)
    requires OwnGrantsOnly(p, names, srv) && n in names && Concerns(p, n, s) && Execute(srv, s).Some?
    ensures OwnGrantsOnly(p, names, Execute(srv, s).value)
  { }

  // ---- Whose data may exist ----

  const NOTHING := Share(false, None, false)

  ghost predicate Tenure(c: Config, p: Plan, s: System, n: string)
    requires n in s.ctl
  {
    var h, pc := ShareOf(p, s.w.mysql, n), s.ctl[n].pc;
    && (c.dropDataOnDelete && h != NOTHING ==> n in s.w.sites && FINALIZER in s.w.sites[n].finalizers)
    && (pc.DropSql? ==> c.dropDataOnDelete && (pc.next >= 1 ==> !h.database)
                        && (pc.next >= 2 ==> h.password.None? && !h.granted))
    && (pc.RemoveFinalizer? && c.dropDataOnDelete ==> h == NOTHING)
  }

  /** Nobody lost the finalizer and the reconcile did not enter the deletion path. */
  lemma TenureStays(c: Config, p: Plan, s: System, s': System, n: string)
    requires n in s.ctl && n in s'.ctl && Tenure(c, p, s, n)
    requires ShareOf(p, s'.w.mysql, n) == ShareOf(p, s.w.mysql, n)
    requires n in s.w.sites && FINALIZER in s.w.sites[n].finalizers
             ==> n in s'.w.sites && FINALIZER in s'.w.sites[n].finalizers
    requires s'.ctl[n].pc == s.ctl[n].pc || !Removing(s'.ctl[n].pc)
    ensures Tenure(c, p, s', n)
  { }

  lemma RunSqlKeepsTenure(c: Config, p: Plan, s: System, n: string, k: Tick)
    requires BaseAt(s, n) && Tenure(c, p, s, n) && s.ctl[n].pc.RunSql?
    ensures Tenure(c, p, DoAct(c, s, n, k), n)
  {
    QuietEffect(c, s.w, s.ctl[n].pc, k);
  }

  lemma DropSqlKeepsTenure(c: Config, p: Plan, s: System, n: string, k: Tick)
    requires BaseAt(s, n) && OnPlan(p, s, n) && Tenure(c, p, s, n)
    requires s.ctl[n].pc.DropSql? && s.ctl[n].pc.next < 3
    ensures Tenure(c, p, DoAct(c, s, n, k), n)
  {
    var pc := s.ctl[n].pc;
    assert pc.site in s.ctl[n].versions;
    QuietSql(s.w, pc.site, "", pc.next, k);
    EffectConcernsOwn(p, pc.site, "");
    OwnStatement(p, s.w.mysql, n, DropOf(pc.site)[pc.next]);
    ServerAfterSql(s.w, pc.site, "", pc.next, k);
    DropProgress(p, s.w, n, pc.site, pc.next, k);
  }

  /** A drop goes on only when its statement took effect. */
  lemma DropProgress(p: Plan, w: World, n: string, site: Site, next: nat, k: Tick)
    requires next < 3 && site.name == n && Derives(p, n, site.spec.database)
    ensures var r := DoDropSql(w, site, next, k);
            && (Removing(r.1) ==> Execute(w.mysql, DropOf(site)[next]) == Some(r.0.mysql)
                                  && (if next < 2 then r.1 == DropSql(site, next + 1) else r.1 == RemoveFinalizer(site)))
            && var h, h' := ShareOf(p, w.mysql, n), ShareOf(p, r.0.mysql, n);
               Removing(r.1) ==> Some(h') == ShareAfter(h, DropOf(site)[next])
  { }

  lemma BeginKeepsTenure(c: Config, p: Plan, s: System, n: string, read: Site)
    requires n in s.ctl && Tenure(c, p, s, n)
    ensures Tenure(c, p, DoBegin(c, s, n, read), n)
  { }

  lemma ActKeepsTenure(c: Config, p: Plan, s: System, n: string, k: Tick)
    requires BaseAt(s, n) && OnPlan(p, s, n) && Tenure(c, p, s, n)
    ensures Tenure(c, p, DoAct(c, s, n, k), n)
  {
    var pc := s.ctl[n].pc;
    if pc.RunSql? {
      RunSqlKeepsTenure(c, p, s, n, k);
    } else if pc.DropSql? {
      if pc.next < 3 { DropSqlKeepsTenure(c, p, s, n, k); }
    } else {
      ServerAfter(c, s.w, pc, k);
      ActKeepsFinalizer(c, s, n, k);
    }
  }

  lemma OwnStepKeepsTenure(c: Config, p: Plan, s: System, n: string, a: Action)
    requires BaseAt(s, n) && OnPlan(p, s, n) && Tenure(c, p, s, n)
    ensures Tenure(c, p, Step(c, s, Move(n, a)), n)
  {
    if a.Begin? {
      BeginKeepsTenure(c, p, s, n, a.read);
    } else if a.Act? {
      if Possible(s, n, a.tick) { ActKeepsTenure(c, p, s, n, a.tick); }
    } else {
      OthersKeepFinalizer(c, s, n, a);
      TenureStays(c, p, s, Step(c, s, Move(n, a)), n);
    }
  }

  /** Administrators, crashes and the collector send no SQL and take no finalizer away. */
  lemma OthersKeepFinalizer(c: Config, s: System, n: string, a: Action)
    requires n in s.ctl && !a.Begin? && !a.Act?
    requires BaseAt(s, n)
    ensures var s' := Step(c, s, Move(n, a));
            && s'.w.mysql == s.w.mysql && KeepsFinalizer(s.w, s'.w, n)
            && (s'.ctl[n].pc == s.ctl[n].pc || s'.ctl[n].pc.Stopped?)
  {
    match a
    case Commit(copy, e) => RequestKeepsFinalizer(s, n, copy, e);
    case _ =>
  }

  lemma RequestKeepsFinalizer(s: System, n: string, copy: Site, e: Edit)
    requires BaseAt(s, n)
    ensures var s' := DoCommit(s, n, copy, e);
            s'.w.mysql == s.w.mysql && KeepsFinalizer(s.w, s'.w, n) && n in s'.ctl && s'.ctl[n].pc == s.ctl[n].pc
  {
    if copy in s.ctl[n].versions && n in s.w.sites { assert Ordered(copy, s.w.sites[n]); }
  }

  ghost predicate KeepsFinalizer(w: World, w': World, n: string) {
    n in w.sites && FINALIZER in w.sites[n].finalizers ==> n in w'.sites && FINALIZER in w'.sites[n].finalizers
  }

  lemma AddKeepsFinalizer(w: World, l: Site, k: Tick)
    requires Faithful(w, l)
    ensures KeepsFinalizer(w, DoAddFinalizer(w, l, k).0, l.name) && !Removing(DoAddFinalizer(w, l, k).1)
  { }

  lemma ReportKeepsFinalizer(w: World, l: Site, phase: Phase, message: string, k: Tick)
    requires Faithful(w, l) && FINALIZER in l.finalizers
    ensures KeepsFinalizer(w, DoWriteStatus(w, l, phase, message, k).0, l.name)
  { }

  lemma ActKeepsFinalizer(c: Config, s: System, n: string, k: Tick)
    requires BaseAt(s, n) && !s.ctl[n].pc.RunSql? && !s.ctl[n].pc.DropSql?
    ensures var s' := DoAct(c, s, n, k);
            && (s'.ctl[n].pc == s.ctl[n].pc || !Removing(s'.ctl[n].pc))
            && (!s.ctl[n].pc.RemoveFinalizer? ==> KeepsFinalizer(s.w, s'.w, n))
  {
    var pc := s.ctl[n].pc;
    if !pc.Stopped? && n in s.w.sites { assert Ordered(pc.site, s.w.sites[n]); }
    match pc
    case Stopped(_) =>
    case AddFinalizer(l) => AddKeepsFinalizer(s.w, l, k);
    case WriteStatus(l, phase, message) => ReportKeepsFinalizer(s.w, l, phase, message, k);
    case RemoveFinalizer(_) =>
    case _ => QuietEffect(c, s.w, pc, k);
  }
}
