/** A site that reports Ready for its current generation can log in to its own database with the
    password of its own Secret. */
module Trust {
  import opened Api
  import opened BaseSafety
  import opened Edits
  import opened Honesty
  import opened Keyring
  import opened Names
  import opened NoLostUpdates
  import opened Operator
  import opened Store
  import opened System
  import opened Tenancy
  import opened Versions
  import opened Wrappers

  /** The share a finished EnsureDatabase with the stored password leaves. */
  ghost predicate Served(h: Share, secret: Option<SecretObject>) {
    secret.Some? && h == Share(true, Some(Password(secret.value.data)), true)
  }

  /** A deleting site's data may already be on its way out. */
  predicate Counts(c: Config, s: Site) { UpToDate(s) && !(s.deleting && c.dropDataOnDelete) }

  /** The provisioner accepts the site's derived names. */
  predicate Usable(p: Plan, n: string) { ValidIdent(DbOf(p, n)) && ValidIdent(UserOf(p, n).user) }

  /** Only usable names get as far as the server. */
  predicate PastValidation(pc: Pc) {
    pc.RunSql? || (pc.Apply? && !pc.site.spec.suspend) || (pc.WriteStatus? && pc.phase == Ready)
  }

  ghost predicate ServedProgress(h: Share, secret: Option<SecretObject>, pc: Pc) {
    match pc
    case RunSql(_, password, next) =>
      && (next >= 1 ==> h.database)
      && (next >= 2 ==> h.password.Some?)
      && (next >= 3 ==> h.password == Some(password))
      && (next >= 4 ==> h.granted)
    case Apply(l, _) => !l.spec.suspend ==> Served(h, secret)
    case WriteStatus(l, phase, _) => phase == Ready ==> Served(h, secret)
    case _ => true
  }

  ghost predicate Trusted(c: Config, p: Plan, w: World, n: string, pc: Pc) {
    var h := ShareOf(p, w.mysql, n);
    && ServedProgress(h, SecretOf(w, n), pc)
    && (PastValidation(pc) ==> Usable(p, n))
    && (SiteOf(w, n).Some? && Counts(c, SiteOf(w, n).value) ==> Usable(p, n) && Served(h, SecretOf(w, n)))
    && (pc.DropSql? ==> c.dropDataOnDelete)
  }

  ghost predicate TrustedAt(c: Config, p: Plan, s: System, n: string) {
    n in s.ctl && Trusted(c, p, s.w, n, s.ctl[n].pc)
  }

  ghost predicate Good(c: Config, p: Plan, s: System, n: string) {
    BaseAt(s, n) && OnPlan(p, s, n) && Held(s, n) && HonorAt(c, s, n) && TrustedAt(c, p, s, n)
  }

  /** A site that is not stored has nothing to answer for. */
  lemma UnstoredIsTrusted(c: Config, p: Plan, s: System, n: string)
    requires BaseAt(s, n) && n !in s.w.sites && Tenure(c, p, s, n)
    ensures TrustedAt(c, p, s, n)
  { }

  lemma RunSqlProgress(p: Plan, w: World, n: string, site: Site, password: string, next: nat, k: Tick)
    requires next < 5 && site.name == n && Derives(p, n, site.spec.database)
    requires ServedProgress(ShareOf(p, w.mysql, n), SecretOf(w, n), RunSql(site, password, next))
    requires SecretOf(w, n).Some? && password == Password(SecretOf(w, n).value.data)
    ensures var r := DoRunSql(w, site, password, next, k);
            var h, h' := ShareOf(p, w.mysql, n), ShareOf(p, r.0.mysql, n);
            && ServedProgress(h', SecretOf(r.0, n), r.1)
            && (h' == h || ShareAfter(h, EnsureOf(site, password)[next]) == Some(h'))
  {
    EffectConcernsOwn(p, site, password);
    OwnStatement(p, w.mysql, n, EnsureOf(site, password)[next]);
    ServerAfterSql(w, site, password, next, k);
  }

  /** Provisioning again with the same password changes nothing. */
  lemma ServedIsFixed(h: Share, secret: Option<SecretObject>, site: Site, next: nat)
    requires next < 5 && Served(h, secret)
    ensures ShareAfter(h, EnsureOf(site, Password(secret.value.data))[next]) == Some(h)
  { }

  lemma RunSqlKeepsTrust(c: Config, p: Plan, s: System, n: string, k: Tick)
    requires Good(c, p, s, n) && s.ctl[n].pc.RunSql? && s.ctl[n].pc.next < 5
    ensures var r := DoRunSql(s.w, s.ctl[n].pc.site, s.ctl[n].pc.password, s.ctl[n].pc.next, k);
            Trusted(c, p, r.0, n, r.1)
  {
    var RunSql(site, password, next) := s.ctl[n].pc;
    assert site in s.ctl[n].versions;
    var r := DoRunSql(s.w, site, password, next, k);
    RunSqlProgress(p, s.w, n, site, password, next, k);
    QuietSql(s.w, site, password, next, k);
    SqlLeads(s.w, site, password, next, k);
    if Served(ShareOf(p, s.w.mysql, n), SecretOf(s.w, n)) {
      ServedIsFixed(ShareOf(p, s.w.mysql, n), SecretOf(s.w, n), site, next);
    }
    RunSqlStays(c, p, s.w, r.0, n, s.ctl[n].pc, r.1);
  }

  lemma SqlLeads(w: World, l: Site, password: string, next: nat, k: Tick)
    requires next < 5
    ensures var r := DoRunSql(w, l, password, next, k);
            r.0.secrets == w.secrets && (r.1.RunSql? || r.1 == Apply(l, 0) || (r.1.WriteStatus? && r.1.phase == Provisioning))
  { }

  /** A statement left a share that serves as it was, and the reconcile where it may be. */
  lemma RunSqlStays(c: Config, p: Plan, w: World, w': World, n: string, pc: Pc, pc': Pc)
    requires Trusted(c, p, w, n, pc) && PastValidation(pc) && w'.sites == w.sites && w'.secrets == w.secrets
    requires ServedProgress(ShareOf(p, w'.mysql, n), SecretOf(w', n), pc') && !pc'.DropSql?
    requires Served(ShareOf(p, w.mysql, n), SecretOf(w, n)) ==> ShareOf(p, w'.mysql, n) == ShareOf(p, w.mysql, n)
    ensures Trusted(c, p, w', n, pc')
  { }

  lemma DropSqlKeepsTrust(c: Config, p: Plan, s: System, n: string, k: Tick)
    requires Good(c, p, s, n) && s.ctl[n].pc.DropSql? && s.ctl[n].pc.next < 3
    ensures var pc := s.ctl[n].pc;
            var r := DoDropSql(s.w, pc.site, pc.next, k);
            Trusted(c, p, r.0, n, r.1)
  {
    var pc := s.ctl[n].pc;
    var l := pc.site;
    QuietSql(s.w, l, "", pc.next, k);
    if n in s.w.sites {
      assert Ordered(l, s.w.sites[n]);
      assert !Counts(c, s.w.sites[n]);
    }
  }

  /** Neither the server nor the Secret changed, and the site claims no more than before. */
  lemma TrustStays(c: Config, p: Plan, w: World, w': World, n: string, pc: Pc, pc': Pc)
    requires Trusted(c, p, w, n, pc) && w'.mysql == w.mysql && SecretOf(w', n) == SecretOf(w, n)
    requires SiteOf(w', n).Some? && Counts(c, SiteOf(w', n).value) ==>
               SiteOf(w, n).Some? && Counts(c, SiteOf(w, n).value)
    requires pc'.Stopped? || pc' == pc || pc'.GetSecret? || pc'.PutSecret? || pc'.AddFinalizer? || pc'.RemoveFinalizer?
             || (pc'.Apply? && pc'.site.spec.suspend)
             || (pc'.WriteStatus? && pc'.phase != Ready)
             || (pc'.RunSql? && pc'.next == 0 && Usable(p, n))
    ensures Trusted(c, p, w', n, pc')
  { }

  ghost predicate ClaimsNoMore(c: Config, w: World, w': World, n: string) {
    SiteOf(w', n).Some? && Counts(c, SiteOf(w', n).value) ==> SiteOf(w, n).Some? && Counts(c, SiteOf(w, n).value)
  }

  lemma FinalizersClaimNoMore(c: Config, w: World, l: Site, k: Tick)
    requires Faithful(w, l)
    ensures ClaimsNoMore(c, w, DoAddFinalizer(w, l, k).0, l.name)
    ensures ClaimsNoMore(c, w, DoRemoveFinalizer(w, l, k).0, l.name)
  {
  }

  lemma AddFinalizerLeads(w: World, l: Site, k: Tick)
    ensures var r := DoAddFinalizer(w, l, k);
            && r.0.mysql == w.mysql && r.0.secrets == w.secrets
            && (r.1.Stopped? || r.1.GetSecret? || (r.1.Apply? && r.1.site.spec.suspend))
  { }

  lemma AddFinalizerKeepsTrust(c: Config, p: Plan, w: World, l: Site, k: Tick)
    requires Faithful(w, l) && Trusted(c, p, w, l.name, AddFinalizer(l))
    ensures var r := DoAddFinalizer(w, l, k);
            Trusted(c, p, r.0, l.name, r.1)
  {
    FinalizersClaimNoMore(c, w, l, k);
    AddFinalizerLeads(w, l, k);
    var (w', pc') := DoAddFinalizer(w, l, k);
    TrustStays(c, p, w, w', l.name, AddFinalizer(l), pc');
  }

  lemma RemoveFinalizerKeepsTrust(c: Config, p: Plan, w: World, l: Site, k: Tick)
    requires Faithful(w, l) && Trusted(c, p, w, l.name, RemoveFinalizer(l))
    ensures var r := DoRemoveFinalizer(w, l, k);
            Trusted(c, p, r.0, l.name, r.1)
  {
    var r := DoRemoveFinalizer(w, l, k);
    FinalizersClaimNoMore(c, w, l, k);
    TrustStays(c, p, w, r.0, l.name, RemoveFinalizer(l), r.1);
  }

  lemma GetSecretKeepsTrust(c: Config, p: Plan, s: System, n: string, k: Tick)
    requires Good(c, p, s, n) && s.ctl[n].pc.GetSecret?
    ensures var r := DoGetSecret(s.w, s.ctl[n].pc.site, k);
            Trusted(c, p, r.0, n, r.1)
  {
    var r := DoGetSecret(s.w, s.ctl[n].pc.site, k);
    assert s.ctl[n].pc.site in s.ctl[n].versions;
    TrustStays(c, p, s.w, r.0, n, s.ctl[n].pc, r.1);
  }

  lemma PutSecretKeepsTrust(c: Config, p: Plan, s: System, n: string, k: Tick)
    requires Good(c, p, s, n) && s.ctl[n].pc.PutSecret?
    ensures var pc := s.ctl[n].pc;
            var r := DoPutSecret(s.w, pc.site, pc.existing, pc.desired, k);
            Trusted(c, p, r.0, n, r.1)
  {
    var pc := s.ctl[n].pc;
    var r := DoPutSecret(s.w, pc.site, pc.existing, pc.desired, k);
    assert pc.site in s.ctl[n].versions;
    PutSecretLeads(s.w, pc.site, pc.existing, pc.desired, k);
    if !PutHappened(s.w, r.0, pc.site, pc.existing, pc.desired) {
      TrustStays(c, p, s.w, r.0, n, pc, r.1);
    } else {
      assert !SecretComplete(s.w, n);
    }
  }

  lemma ApplyKeepsTrust(c: Config, p: Plan, s: System, n: string, k: Tick)
    requires Good(c, p, s, n) && s.ctl[n].pc.Apply? && s.ctl[n].pc.next < 4
    ensures var r := DoApply(c, s.w, s.ctl[n].pc.site, s.ctl[n].pc.next, k);
            Trusted(c, p, r.0, n, r.1)
  {
    var Apply(l, next) := s.ctl[n].pc;
    ApplyLeads(c, s.w, l, next, k);
  }

  lemma ApplyLeads(c: Config, w: World, l: Site, next: nat, k: Tick)
    requires next < 4
    ensures var r := DoApply(c, w, l, next, k);
            && r.0.mysql == w.mysql && r.0.secrets == w.secrets && r.0.sites == w.sites
            && (r.1.Stopped? || r.1 == Apply(l, next + 1) || (r.1.WriteStatus? && (r.1.phase == Ready ==> !l.spec.suspend)))
  {
  }

  lemma ReportKeepsTrust(c: Config, p: Plan, s: System, n: string, k: Tick)
    requires Good(c, p, s, n) && s.ctl[n].pc.WriteStatus?
    ensures var pc := s.ctl[n].pc;
            var r := DoWriteStatus(s.w, pc.site, pc.phase, pc.message, k);
            Trusted(c, p, r.0, n, r.1)
  {
    var WriteStatus(l, phase, message) := s.ctl[n].pc;
    var (w', pc') := DoWriteStatus(s.w, l, phase, message, k);
    assert Ordered(l, s.w.sites[n]);
    assert w'.mysql == s.w.mysql && w'.secrets == s.w.secrets && pc'.Stopped?;
    if phase != Ready || SiteOf(w', n) == SiteOf(s.w, n) {
      TrustStays(c, p, s.w, w', n, s.ctl[n].pc, pc');
    }
  }

  lemma ActKeepsTrust(c: Config, p: Plan, s: System, n: string, k: Tick)
    requires Good(c, p, s, n)
    ensures var r := Effect(c, s.w, s.ctl[n].pc, k);
            Trusted(c, p, r.0, n, r.1)
  {
    var pc := s.ctl[n].pc;
    if !pc.Stopped? && n in s.w.sites { assert Ordered(pc.site, s.w.sites[n]); }
    match pc
    case Stopped(_) =>
    case AddFinalizer(l) => AddFinalizerKeepsTrust(c, p, s.w, l, k);
    case GetSecret(_) => GetSecretKeepsTrust(c, p, s, n, k);
    case PutSecret(_, _, _) => PutSecretKeepsTrust(c, p, s, n, k);
    case RunSql(_, _, next) => if next < 5 { RunSqlKeepsTrust(c, p, s, n, k); }
    case Apply(_, next) => if next < 4 { ApplyKeepsTrust(c, p, s, n, k); }
    case WriteStatus(_, _, _) => ReportKeepsTrust(c, p, s, n, k);
    case DropSql(_, next) => if next < 3 { DropSqlKeepsTrust(c, p, s, n, k); }
    case RemoveFinalizer(l) => RemoveFinalizerKeepsTrust(c, p, s.w, l, k);
  }

  lemma CommitClaimsNoMore(c: Config, s: System, n: string, copy: Site, e: Edit)
    requires BaseAt(s, n)
    ensures ClaimsNoMore(c, s.w, DoCommit(s, n, copy, e).w, n)
  { }

  lemma CommitKeepsTrust(c: Config, p: Plan, s: System, n: string, copy: Site, e: Edit)
    requires Good(c, p, s, n)
    ensures TrustedAt(c, p, DoCommit(s, n, copy, e), n)
  {
    CommitClaimsNoMore(c, s, n, copy, e);
    TrustStays(c, p, s.w, DoCommit(s, n, copy, e).w, n, s.ctl[n].pc, s.ctl[n].pc);
  }

  lemma BeginKeepsTrust(c: Config, p: Plan, s: System, n: string, read: Site)
    requires Good(c, p, s, n)
    ensures TrustedAt(c, p, DoBegin(c, s, n, read), n)
  {
  }

  lemma CollectKeepsTrust(c: Config, p: Plan, s: System, n: string)
    requires Good(c, p, s, n)
    ensures Trusted(c, p, CollectSecret(s.w, n, SecretKey(n)), n, s.ctl[n].pc)
  { }

  lemma DeleteKeepsTrust(c: Config, p: Plan, s: System, n: string)
    requires Good(c, p, s, n)
    ensures Trusted(c, p, DeleteSite(s.w, n), n, s.ctl[n].pc)
  {
    TrustStays(c, p, s.w, DeleteSite(s.w, n), n, s.ctl[n].pc, s.ctl[n].pc);
  }

  lemma OwnStepKeepsTrust(c: Config, p: Plan, s: System, n: string, a: Action)
    requires Good(c, p, s, n) && CleanMove(s, Move(n, a))
    ensures TrustedAt(c, p, Step(c, s, Move(n, a)), n)
  {
    var pc := s.ctl[n].pc;
    var w' := Step(c, s, Move(n, a)).w;
    match a
    case Begin(read) => BeginKeepsTrust(c, p, s, n, read);
    case Act(k) => if Possible(s, n, k) { ActKeepsTrust(c, p, s, n, k); }
    case Crash => TrustStays(c, p, s.w, w', n, pc, Stopped(true));
    case Create(_, _) => TrustStays(c, p, s.w, w', n, pc, pc);
    case Commit(copy, e) => CommitKeepsTrust(c, p, s, n, copy, e);
    case Delete => DeleteKeepsTrust(c, p, s, n);
    case CollectTheSecret => CollectKeepsTrust(c, p, s, n);
    case CollectAChild(_) => TrustStays(c, p, s.w, w', n, pc, pc);
  }
}
