/** Every move keeps the version invariants of every site. */
module BaseSafety {
  import opened Api
  import opened Credentials
  import opened Edits
  import opened Isolation
  import opened Operator
  import opened Store
  import opened System
  import opened Versions
  import opened Wrappers

  /** The stored site did not change; the reconcile goes where it may go without a write. */
  lemma KeepsBase(s: System, n: string, w: World, t: Ctl)
    requires BaseAt(s, n) && SiteOf(w, n) == SiteOf(s.w, n) && s.w.revision <= w.revision
    requires t.versions == s.ctl[n].versions && t.cursor == s.ctl[n].cursor
    requires t.pc.Stopped? || t.pc == s.ctl[n].pc
             || (Working(t.pc) && Working(s.ctl[n].pc) && t.pc.site == s.ctl[n].pc.site)
             || (Removing(t.pc) && Removing(s.ctl[n].pc) && t.pc.site == s.ctl[n].pc.site)
    ensures BaseAt(With(w, s, n, t), n)
    ensures With(w, s, n, t).ctl[n] == t
  {
    var site := SiteOf(w, n);
    if site.Some? { assert t.versions + {site.value} == t.versions; }
    assert Base(n, site, t, w.revision);
  }

  lemma AddFinalizerKeepsBase(c: Config, s: System, n: string, k: Tick)
    requires BaseAt(s, n) && s.ctl[n].pc.AddFinalizer?
    ensures BaseAt(DoAct(c, s, n, k), n)
  {
    var t := s.ctl[n];
    var l := t.pc.site;
    var r := DoAddFinalizer(s.w, l, k);
    if k.outcome.Refused? || n !in s.w.sites || s.w.sites[n].resourceVersion != l.resourceVersion {
      KeepsBase(s, n, r.0, t.(pc := r.1));
    } else {
      assert Ordered(l, s.w.sites[n]);
      BaseFinalizer(n, l, t, r.0.sites[n], s.w.revision);
    }
  }

  lemma StatusKeepsBase(c: Config, s: System, n: string, k: Tick)
    requires BaseAt(s, n) && s.ctl[n].pc.WriteStatus?
    ensures BaseAt(DoAct(c, s, n, k), n)
  {
    var t := s.ctl[n];
    var l := t.pc.site;
    var r := DoWriteStatus(s.w, l, t.pc.phase, t.pc.message, k);
    if SiteOf(r.0, n) == SiteOf(s.w, n) {
      KeepsBase(s, n, r.0, t.(pc := r.1));
    } else {
      assert Ordered(l, s.w.sites[n]);
      BaseReport(n, l, t, r.0.sites[n], s.w.revision, r.1.retry);
    }
  }

  lemma RemoveFinalizerKeepsBase(c: Config, s: System, n: string, k: Tick)
    requires BaseAt(s, n) && s.ctl[n].pc.RemoveFinalizer?
    ensures BaseAt(DoAct(c, s, n, k), n)
  {
    var t := s.ctl[n];
    var l := t.pc.site;
    var r := DoRemoveFinalizer(s.w, l, k);
    if k.outcome.Refused? || n !in s.w.sites || s.w.sites[n].resourceVersion != l.resourceVersion {
      KeepsBase(s, n, r.0, t.(pc := r.1));
    } else {
      assert Ordered(l, s.w.sites[n]);
      assert l.finalizers - {FINALIZER} == {};
      BaseGone(n, l, t, r.1, s.w.revision);
    }
  }

  /** The reconcile ends or stays on its path, with the same copy of the site. */
  ghost predicate SamePath(pc: Pc, pc': Pc)
    requires !pc.Stopped?
  {
    pc'.Stopped? || (pc'.site == pc.site && ((Working(pc) && Working(pc')) || (Removing(pc) && Removing(pc'))))
  }

  lemma QuietSecret(w: World, site: Site, existing: Option<SecretObject>, desired: SecretData, k: Tick)
    ensures var r := DoGetSecret(w, site, k);
            r.0.sites == w.sites && w.revision <= r.0.revision && SamePath(GetSecret(site), r.1)
    ensures var r := DoPutSecret(w, site, existing, desired, k);
            r.0.sites == w.sites && w.revision <= r.0.revision && SamePath(PutSecret(site, existing, desired), r.1)
  { }

  lemma QuietSql(w: World, site: Site, password: string, next: nat, k: Tick)
    ensures next < 5 ==> var r := DoRunSql(w, site, password, next, k);
                         r.0.sites == w.sites && w.revision <= r.0.revision && SamePath(RunSql(site, password, next), r.1)
    ensures next < 3 ==> var r := DoDropSql(w, site, next, k);
                         r.0.sites == w.sites && w.revision <= r.0.revision && SamePath(DropSql(site, next), r.1)
  { }

  lemma QuietApply(c: Config, w: World, site: Site, next: nat, k: Tick)
    requires next < 4
    ensures var r := DoApply(c, w, site, next, k);
            r.0.sites == w.sites && w.revision <= r.0.revision && SamePath(Apply(site, next), r.1)
  {
  }

  /** Effects other than the three site writes leave every site alone. */
  lemma QuietEffect(c: Config, w: World, pc: Pc, k: Tick)
    requires !pc.Stopped? && !pc.AddFinalizer? && !pc.WriteStatus? && !pc.RemoveFinalizer?
    ensures var r := Effect(c, w, pc, k);
            r.0.sites == w.sites && w.revision <= r.0.revision && SamePath(pc, r.1)
  {
    match pc
    case GetSecret(site) => QuietSecret(w, site, None, map[], k);
    case PutSecret(site, existing, desired) => QuietSecret(w, site, existing, desired, k);
    case RunSql(site, password, next) => QuietSql(w, site, password, next, k);
    case Apply(site, next) => if next < 4 { QuietApply(c, w, site, next, k); }
    case DropSql(site, next) => QuietSql(w, site, "", next, k);
  }

  lemma QuietKeepsBase(c: Config, s: System, n: string, k: Tick)
    requires BaseAt(s, n)
    requires var pc := s.ctl[n].pc; !pc.Stopped? && !pc.AddFinalizer? && !pc.WriteStatus? && !pc.RemoveFinalizer?
    ensures BaseAt(DoAct(c, s, n, k), n)
  {
    var t := s.ctl[n];
    var (w', pc') := Effect(c, s.w, t.pc, k);
    QuietEffect(c, s.w, t.pc, k);
    KeepsBase(s, n, w', t.(pc := pc'));
  }

  lemma ActKeepsBase(c: Config, s: System, n: string, k: Tick)
    requires BaseAt(s, n)
    ensures BaseAt(DoAct(c, s, n, k), n)
  {
    match s.ctl[n].pc
    case AddFinalizer(_) => AddFinalizerKeepsBase(c, s, n, k);
    case WriteStatus(_, _, _) => StatusKeepsBase(c, s, n, k);
    case RemoveFinalizer(_) => RemoveFinalizerKeepsBase(c, s, n, k);
    case Stopped(_) => KeepsBase(s, n, s.w, s.ctl[n]);
    case _ => QuietKeepsBase(c, s, n, k);
  }

  lemma CommitKeepsBase(s: System, n: string, copy: Site, e: Edit)
    requires BaseAt(s, n)
    ensures BaseAt(DoCommit(s, n, copy, e), n)
  {
    var t := s.ctl[n];
    var s' := DoCommit(s, n, copy, e);
    if copy in t.versions && Accepted(e) && n in s.w.sites && s.w.sites[n].resourceVersion == copy.resourceVersion {
      assert Ordered(copy, s.w.sites[n]);
      if s'.w.sites[n] == s.w.sites[n] {
        KeepsBase(s, n, s'.w, t.(log := t.log + [e]));
      } else {
        BaseEdit(n, copy, t, s'.w.sites[n], s.w.revision);
      }
    }
  }

  lemma DeleteKeepsBase(s: System, n: string)
    requires BaseAt(s, n)
    ensures BaseAt(With(DeleteSite(s.w, n), s, n, s.ctl[n]), n)
  {
    var t := s.ctl[n];
    var w := DeleteSite(s.w, n);
    if n !in s.w.sites || s.w.sites[n].deleting {
      KeepsBase(s, n, w, t);
    } else if s.w.sites[n].finalizers == {} {
      BaseGone(n, s.w.sites[n], t, t.pc, s.w.revision);
    } else {
      BaseEdit(n, s.w.sites[n], t, w.sites[n], s.w.revision);
    }
  }

  lemma BeginKeepsBase(c: Config, s: System, n: string, read: Site)
    requires BaseAt(s, n)
    ensures BaseAt(DoBegin(c, s, n, read), n)
  {
    var t := s.ctl[n];
    if t.pc.Stopped? && read in t.versions && t.cursor <= read.resourceVersion {
      BaseBegin(c, n, SiteOf(s.w, n), t, s.w.revision, read);
      var t' := t.(pc := Start(c, read), cursor := read.resourceVersion);
      KeepsBase(s.(ctl := s.ctl[n := t']), n, s.w, t');
    }
  }

  lemma CreateKeepsBase(s: System, n: string, namespace: string, x: Content)
    requires BaseAt(s, n)
    ensures BaseAt(DoCreate(s, n, namespace, x), n)
  {
    if n !in s.w.sites {
      var w := CreateSite(s.w, namespace, n, x.spec, x.annotations);
      BaseCreate(n, s.ctl[n].(origin := x, log := []), w.sites[n], s.w.revision);
    }
  }

  lemma OwnStepKeepsBase(c: Config, s: System, n: string, a: Action)
    requires BaseAt(s, n)
    ensures BaseAt(Step(c, s, Move(n, a)), n)
  {
    var t := s.ctl[n];
    match a
    case Begin(read) => BeginKeepsBase(c, s, n, read);
    case Act(k) => ActKeepsBase(c, s, n, k);
    case Crash => KeepsBase(s, n, s.w, t.(pc := Stopped(true)));
    case Create(namespace, x) => CreateKeepsBase(s, n, namespace, x);
    case Commit(copy, e) => CommitKeepsBase(s, n, copy, e);
    case Delete => DeleteKeepsBase(s, n);
    case CollectTheSecret => KeepsBase(s, n, Step(c, s, Move(n, a)).w, t);
    case CollectAChild(_) => KeepsBase(s, n, Step(c, s, Move(n, a)).w, t);
  }

  ghost predicate AllBase(s: System) { forall n :: n in s.ctl ==> BaseAt(s, n) }

  lemma StepKeepsNames(c: Config, s: System, m: Move)
    ensures Step(c, s, m).ctl.Keys == s.ctl.Keys
  { }

  lemma BaseFrame(s: System, s': System, n: string)
    requires BaseAt(s, n) && SameObjects(s, s', n) && s.w.revision <= s'.w.revision
    ensures BaseAt(s', n)
  { }

  lemma StepKeepsBaseAt(c: Config, s: System, m: Move, n: string, s': System)
    requires AllBase(s) && n in s.ctl && m.name in s.ctl && s' == Step(c, s, m)
    ensures BaseAt(s', n)
  {
    if n == m.name {
      OwnStepKeepsBase(c, s, n, m.action);
    } else {
      StepIsOwn(c, s, m, n);
      BaseFrame(s, s', n);
    }
  }

  lemma StepKeepsBase(c: Config, s: System, m: Move)
    requires AllBase(s)
    ensures AllBase(Step(c, s, m)) && Step(c, s, m).ctl.Keys == s.ctl.Keys
  {
    StepKeepsNames(c, s, m);
    if m.name in s.ctl {
      forall n | n in s.ctl ensures BaseAt(Step(c, s, m), n) { StepKeepsBaseAt(c, s, m, n, Step(c, s, m)); }
    }
  }

  lemma {:induction false} RunKeepsAllBase(c: Config, s: System, moves: seq<Move>)
    requires AllBase(s)
    ensures AllBase(Run(c, s, moves)) && Run(c, s, moves).ctl.Keys == s.ctl.Keys
  {
    if moves != [] {
      RunKeepsAllBase(c, s, moves[..|moves| - 1]);
      StepKeepsBase(c, Run(c, s, moves[..|moves| - 1]), moves[|moves| - 1]);
    }
  }

  lemma InitIsBase(names: set<string>)
    ensures AllBase(Init(names)) && Init(names).ctl.Keys == names
  { }

  /** In every reachable state the version invariants hold of every site. */
  lemma RunKeepsBase(c: Config, names: set<string>, moves: seq<Move>)
    ensures AllBase(Run(c, Init(names), moves)) && Run(c, Init(names), moves).ctl.Keys == names
  {
    InitIsBase(names);
    RunKeepsAllBase(c, Init(names), moves);
  }
}
