/** A site that reports Ready for its current generation is what its children render. */
module Honesty {
  import opened Api
  import opened BaseSafety
  import opened Conditions
  import opened Credentials
  import opened Edits
  import opened Isolation
  import opened Keyring
  import opened Names
  import opened NoLostUpdates
  import opened Operator
  import opened Resources
  import opened Store
  import opened System
  import opened Versions
  import opened Wrappers

  /** The stored child is what the builders render for this site, owned by this incarnation. */
  ghost predicate Matches(c: Config, w: World, l: Site, kind: Kind) {
    var o := ChildOf(w, l.name, kind);
    o.Some? && o.value.owner == l.uid && o.value.data == Desired(c, l, kind)
  }

  ghost predicate Shown(c: Config, w: World, l: Site, count: nat) {
    forall j :: 0 <= j < count && j < |KINDS| ==> Matches(c, w, l, KINDS[j])
  }

  /** The builders read nothing of a site but its name, namespace and spec. */
  lemma RenderingReadsSpec(c: Config, a: Site, b: Site, kind: Kind)
    requires a.name == b.name && a.namespace == b.namespace && a.spec == b.spec
    ensures Desired(c, a, kind) == Desired(c, b, kind)
  { }

  /** The same incarnation with the same content and generation. */
  ghost predicate SameSite(a: Site, b: Site) {
    && a.name == b.name && a.namespace == b.namespace && a.uid == b.uid && a.generation == b.generation
    && a.spec == b.spec && a.annotations == b.annotations && a.deleting == b.deleting
  }

  lemma StatusIsStable(l: Site, s: Site, phase: Phase, message: string, now: int)
    requires SameSite(l, s) && s.status == StatusFor(l, phase, message, now)
    ensures forall later :: StatusFor(s, phase, message, later) == s.status
  {
    var base := if phase == Ready then
                  l.status.(databaseName := DatabaseName(l), databaseUser := DatabaseUser(l),
                            secretName := SecretName(l), url := URL(l), observedGeneration := l.generation)
                else l.status;
    forall later ensures StatusFor(s, phase, message, later) == s.status {
      SamePhaseIsStable(base, l.generation, phase, message, now, later);
    }
  }

  predicate UpToDate(s: Site) { s.status.phase == Ready && s.status.observedGeneration == s.generation }

  ghost predicate SecretComplete(w: World, n: string) { SecretOf(w, n).Some? && Complete(SecretOf(w, n).value.data) }

  /** The site has a complete Secret of its own, not one of an earlier site of its name. */
  ghost predicate OwnSecret(w: World, l: Site) {
    SecretComplete(w, l.name) && SecretOf(w, l.name).value.owner == l.uid
  }

  /** What the reconcile in flight has already established. */
  ghost predicate Progress(c: Config, w: World, pc: Pc) {
    match pc
    case PutSecret(_, _, desired) => Complete(desired)
    case RunSql(l, password, _) => OwnSecret(w, l) && password == Password(SecretOf(w, l.name).value.data)
    case Apply(l, next) => Shown(c, w, l, next) && (!l.spec.suspend ==> OwnSecret(w, l))
    case WriteStatus(l, phase, message) =>
      && (phase in {Ready, Suspended} ==> Shown(c, w, l, 4))
      && (phase == Ready ==> !l.spec.suspend && message == READY_MESSAGE && OwnSecret(w, l))
    case _ => true
  }

  ghost predicate Honest(c: Config, w: World, n: string) {
    SiteOf(w, n).Some? && UpToDate(SiteOf(w, n).value) ==>
      Shown(c, w, SiteOf(w, n).value, 4) && OwnSecret(w, SiteOf(w, n).value) && StandsByReport(SiteOf(w, n).value)
  }

  const READY_MESSAGE := "Site reconciled"

  /** The site is active, and the same report made again, at any time, would change nothing. */
  ghost predicate StandsByReport(s: Site) {
    !s.spec.suspend && forall later :: StatusFor(s, Ready, READY_MESSAGE, later) == s.status
  }

  ghost predicate Honor(c: Config, w: World, n: string, pc: Pc) { Progress(c, w, pc) && Honest(c, w, n) }

  ghost predicate HonorAt(c: Config, s: System, n: string) { n in s.ctl && Honor(c, s.w, n, s.ctl[n].pc) }

  /** While a site is up to date, the reconcile in flight works from the same spec. */
  lemma SameSpecInFlight(c: Config, s: System, n: string, kind: Kind)
    requires BaseAt(s, n) && Working(s.ctl[n].pc) && UpToDate(SiteOf(s.w, n).value)
    ensures var l, stored := s.ctl[n].pc.site, SiteOf(s.w, n).value;
            && l.uid == stored.uid && l.name == stored.name && l.spec == stored.spec
            && Desired(c, l, kind) == Desired(c, stored, kind)
  {
    var l, stored := s.ctl[n].pc.site, SiteOf(s.w, n).value;
    assert Ordered(l, stored);
    RenderingReadsSpec(c, l, stored, kind);
  }

  /** An application leaves what was shown before, and shows one more kind. */
  lemma ApplyShows(c: Config, w: World, l: Site, next: nat)
    requires next < 4 && Shown(c, w, l, next)
    ensures Shown(c, ApplyChild(w, ChildKey(l.name, KINDS[next]), l.uid, Desired(c, l, KINDS[next])), l, next + 1)
  {
  }

  /** Applying what a site already renders keeps it. */
  lemma ApplyKeeps(c: Config, w: World, l: Site, s: Site, kind: Kind, count: nat)
    requires l.name == s.name && l.uid == s.uid && Desired(c, l, kind) == Desired(c, s, kind)
    requires Shown(c, w, s, count)
    ensures Shown(c, ApplyChild(w, ChildKey(l.name, kind), l.uid, Desired(c, l, kind)), s, count)
  { }

  lemma ShownFrame(c: Config, w: World, w': World, l: Site, count: nat)
    requires forall kind :: ChildOf(w, l.name, kind) == ChildOf(w', l.name, kind)
    ensures Shown(c, w, l, count) <==> Shown(c, w', l, count)
  { }

  lemma ApplyKeepsHonest(c: Config, s: System, n: string, kind: Kind)
    requires BaseAt(s, n) && Working(s.ctl[n].pc) && Honest(c, s.w, n)
    ensures var l := s.ctl[n].pc.site;
            Honest(c, ApplyChild(s.w, ChildKey(n, kind), l.uid, Desired(c, l, kind)), n)
  {
    var l, stored := s.ctl[n].pc.site, SiteOf(s.w, n).value;
    if UpToDate(stored) {
      SameSpecInFlight(c, s, n, kind);
      ApplyKeeps(c, s.w, l, stored, kind, 4);
    }
  }

  lemma ApplyProgresses(c: Config, w: World, l: Site, next: nat, k: Tick)
    requires next < 4 && Progress(c, w, Apply(l, next))
    ensures var r := DoApply(c, w, l, next, k);
            Progress(c, r.0, r.1)
  {
    ApplyShows(c, w, l, next);
    ShownFrame(c, w, Tock(w), l, next);
  }

  lemma HonestFrame(c: Config, w: World, w': World, n: string)
    requires SiteOf(w, n) == SiteOf(w', n) && (SiteOf(w, n).Some? ==> SiteOf(w, n).value.name == n)
    requires SecretOf(w, n) == SecretOf(w', n) && forall kind :: ChildOf(w, n, kind) == ChildOf(w', n, kind)
    ensures Honest(c, w, n) <==> Honest(c, w', n)
  { }

  lemma ApplyKeepsHonor(c: Config, s: System, n: string, k: Tick)
    requires BaseAt(s, n) && HonorAt(c, s, n) && s.ctl[n].pc.Apply? && s.ctl[n].pc.next < 4
    ensures var r := DoApply(c, s.w, s.ctl[n].pc.site, s.ctl[n].pc.next, k);
            Honor(c, r.0, n, r.1)
  {
    var Apply(l, next) := s.ctl[n].pc;
    var r := DoApply(c, s.w, l, next, k);
    ApplyProgresses(c, s.w, l, next, k);
    ApplyKeepsHonest(c, s, n, KINDS[next]);
    HonestFrame(c, s.w, Tock(s.w), n);
    assert Honest(c, r.0, n);
  }

  /** Only the revision counter and the MySQL server moved on. */
  ghost predicate SameApi(w: World, w': World) {
    w'.sites == w.sites && w'.secrets == w.secrets && w'.children == w.children && w.revision <= w'.revision
  }

  lemma HonorFrame(c: Config, s: System, w': World, n: string, pc: Pc)
    requires BaseAt(s, n) && Honor(c, s.w, n, pc) && SameApi(s.w, w')
    requires !pc.Stopped? ==> pc.site.name == n
    ensures Honor(c, w', n, pc)
  { }

  /** The read is of a complete Secret of another incarnation. */
  ghost predicate Foreign(x: Option<SecretObject>, l: Site) {
    x.Some? && Complete(x.value.data) && x.value.owner != l.uid
  }

  /** This effect keeps a complete Secret of another incarnation for the site's own. */
  ghost predicate Adopts(w: World, pc: Pc, k: Tick) {
    pc.GetSecret? && k.outcome.Done? && Foreign(SecretRead(w, SecretKey(pc.site.name), k.view), pc.site)
  }

  /** A complete Secret that a reconcile reads and does not adopt is the stored one. */
  lemma ReadIsStored(s: System, n: string, v: View)
    requires BaseAt(s, n) && Held(s, n) && s.ctl[n].pc.GetSecret? && Readable(CacheOf(s, n), v)
    requires var x := SecretRead(s.w, SecretKey(n), v);
             x.Some? && Complete(x.value.data) && x.value.owner == s.ctl[n].pc.site.uid
    ensures SecretOf(s.w, n) == SecretRead(s.w, SecretKey(n), v) && OwnSecret(s.w, s.ctl[n].pc.site)
  {
    ReadIsGenuine(s, n, v);
  }

  lemma GetSecretLeads(w: World, l: Site, k: Tick)
    requires NonEmpty(k.random)
    ensures var r, x := DoGetSecret(w, l, k), SecretRead(w, SecretKey(l.name), k.view);
            && r.0 == Tock(w)
            && (if !k.outcome.Done? then r.1 == Fail(l, "secret", Unavailable(k.outcome.reason))
                else if x.Some? && Complete(x.value.data) then r.1 == Provision(l, Password(x.value.data))
                else r.1.PutSecret? && Complete(r.1.desired))
  {
    var x := SecretRead(w, SecretKey(l.name), k.view);
    FillKeepsAndCompletes(if x.Some? then x.value.data else map[], CredentialKeys(), k.random);
  }

  lemma GetSecretKeepsHonor(c: Config, s: System, n: string, k: Tick)
    requires BaseAt(s, n) && Held(s, n) && HonorAt(c, s, n) && s.ctl[n].pc.GetSecret? && Possible(s, n, k)
    requires NonEmpty(k.random) && !Adopts(s.w, s.ctl[n].pc, k)
    ensures var r := DoGetSecret(s.w, s.ctl[n].pc.site, k);
            Honor(c, r.0, n, r.1)
  {
    var l := s.ctl[n].pc.site;
    var r, x := DoGetSecret(s.w, l, k), SecretRead(s.w, SecretKey(n), k.view);
    GetSecretLeads(s.w, l, k);
    HonorFrame(c, s, r.0, n, GetSecret(l));
    if k.outcome.Done? && x.Some? && Complete(x.value.data) { ReadIsStored(s, n, k.view); }
  }

  ghost predicate PutHappened(w: World, w': World, l: Site, existing: Option<SecretObject>, desired: SecretData) {
    && SecretOf(w', l.name) == Some(Owned(l.uid, w.revision, desired))
    && (if existing.None? then SecretOf(w, l.name).None?
        else SecretOf(w, l.name).Some? && SecretOf(w, l.name).value.version == existing.value.version)
  }

  /** Either the Secrets stay and the reconcile fails, or the desired data is there, as the site's own. */
  lemma PutSecretLeads(w: World, l: Site, existing: Option<SecretObject>, desired: SecretData, k: Tick)
    ensures var r := DoPutSecret(w, l, existing, desired, k);
            && r.0.sites == w.sites && r.0.children == w.children && r.0.mysql == w.mysql && w.revision <= r.0.revision
            && (r.1 == Provision(l, Password(desired)) || (r.1.WriteStatus? && r.1.phase == Error))
            && (PutHappened(w, r.0, l, existing, desired) || (r.0.secrets == w.secrets && r.1.WriteStatus?))
  { }

  /** A Secret is written only where no honest report stands, and becomes the site's own. */
  lemma PutSecretKeepsHonor(c: Config, s: System, n: string, k: Tick)
    requires BaseAt(s, n) && Held(s, n) && HonorAt(c, s, n) && s.ctl[n].pc.PutSecret?
    ensures var p := s.ctl[n].pc;
            var r := DoPutSecret(s.w, p.site, p.existing, p.desired, k);
            && Honor(c, r.0, n, r.1)
            && (r.0.secrets != s.w.secrets ==> !UpToDate(SiteOf(s.w, n).value) && OwnSecret(r.0, p.site))
  {
    var PutSecret(l, existing, desired) := s.ctl[n].pc;
    var r := DoPutSecret(s.w, l, existing, desired, k);
    PutSecretLeads(s.w, l, existing, desired, k);
    if !PutHappened(s.w, r.0, l, existing, desired) {
      HonorFrame(c, s, r.0, n, Stopped(true));
    } else {
      assert !SecretComplete(s.w, n);
    }
  }

  lemma RunSqlKeepsHonor(c: Config, s: System, n: string, k: Tick)
    requires BaseAt(s, n) && HonorAt(c, s, n) && s.ctl[n].pc.RunSql? && s.ctl[n].pc.next < 5
    ensures var p := s.ctl[n].pc;
            var r := DoRunSql(s.w, p.site, p.password, p.next, k);
            Honor(c, r.0, n, r.1)
  {
    var p := s.ctl[n].pc;
    HonorFrame(c, s, DoRunSql(s.w, p.site, p.password, p.next, k).0, n, p);
  }

  lemma DropSqlKeepsHonor(c: Config, s: System, n: string, k: Tick)
    requires BaseAt(s, n) && HonorAt(c, s, n) && s.ctl[n].pc.DropSql? && s.ctl[n].pc.next < 3
    ensures var p := s.ctl[n].pc;
            var r := DoDropSql(s.w, p.site, p.next, k);
            Honor(c, r.0, n, r.1)
  {
    var p := s.ctl[n].pc;
    HonorFrame(c, s, DoDropSql(s.w, p.site, p.next, k).0, n, p);
  }

  /** The stored site moved on to a version of the same incarnation that claims no more. */
  ghost predicate ClaimsLess(w: World, w': World, n: string) {
    && w'.secrets == w.secrets && w'.children == w.children && w.revision <= w'.revision
    && (n in w'.sites ==>
          && n in w.sites
          && var a, b := w.sites[n], w'.sites[n];
             && b.name == a.name && b.uid == a.uid && b.namespace == a.namespace
             && (UpToDate(b) ==> UpToDate(a) && b.spec == a.spec && b.status == a.status && b.generation == a.generation))
  }

  lemma HonorMoves(c: Config, s: System, w': World, n: string, pc: Pc)
    requires BaseAt(s, n) && Honor(c, s.w, n, pc) && (!pc.Stopped? ==> pc.site.name == n)
    requires ClaimsLess(s.w, w', n)
    ensures Honor(c, w', n, pc)
  {
    if pc.Apply? { ShownFrame(c, s.w, w', pc.site, pc.next); }
    if pc.WriteStatus? { ShownFrame(c, s.w, w', pc.site, 4); }
    if n in w'.sites && UpToDate(w'.sites[n]) {
      var a, b := s.w.sites[n], w'.sites[n];
      forall kind ensures Desired(c, a, kind) == Desired(c, b, kind) { RenderingReadsSpec(c, a, b, kind); }
      ShownFrame(c, s.w, w', a, 4);
      assert Shown(c, w', b, 4);
      StandsWithContent(a, b);
    }
  }

  lemma StandsWithContent(a: Site, b: Site)
    requires StandsByReport(a) && a.name == b.name && a.spec == b.spec && a.status == b.status && a.generation == b.generation
    ensures StandsByReport(b)
  {
    forall later ensures StatusFor(b, Ready, READY_MESSAGE, later) == b.status {
      assert StatusFor(a, Ready, READY_MESSAGE, later) == a.status;
    }
  }

  lemma FinalizersClaimLess(w: World, l: Site, finalizers: set<string>, o: Outcome)
    requires Faithful(w, l)
    ensures ClaimsLess(w, Respond(w, UpdateSite(w, l.(finalizers := finalizers)), o).0, l.name)
  { }

  lemma AddFinalizerKeepsHonor(c: Config, s: System, n: string, k: Tick)
    requires BaseAt(s, n) && HonorAt(c, s, n) && s.ctl[n].pc.AddFinalizer?
    ensures var r := DoAddFinalizer(s.w, s.ctl[n].pc.site, k);
            Honor(c, r.0, n, r.1)
  {
    var l := s.ctl[n].pc.site;
    if n in s.w.sites { assert Ordered(l, s.w.sites[n]); }
    FinalizersClaimLess(s.w, l, l.finalizers + {FINALIZER}, k.outcome);
    HonorMoves(c, s, DoAddFinalizer(s.w, l, k).0, n, Stopped(true));
  }

  lemma RemoveFinalizerKeepsHonor(c: Config, s: System, n: string, k: Tick)
    requires BaseAt(s, n) && HonorAt(c, s, n) && s.ctl[n].pc.RemoveFinalizer?
    ensures var r := DoRemoveFinalizer(s.w, s.ctl[n].pc.site, k);
            Honor(c, r.0, n, r.1)
  {
    var l := s.ctl[n].pc.site;
    if n in s.w.sites { assert Ordered(l, s.w.sites[n]); }
    FinalizersClaimLess(s.w, l, l.finalizers - {FINALIZER}, k.outcome);
    HonorMoves(c, s, DoRemoveFinalizer(s.w, l, k).0, n, Stopped(true));
  }

  lemma ReportKeepsHonor(c: Config, s: System, n: string, k: Tick)
    requires BaseAt(s, n) && HonorAt(c, s, n) && s.ctl[n].pc.WriteStatus?
    ensures var p := s.ctl[n].pc;
            var r := DoWriteStatus(s.w, p.site, p.phase, p.message, k);
            Honor(c, r.0, n, r.1)
  {
    var WriteStatus(l, phase, message) := s.ctl[n].pc;
    var w' := DoWriteStatus(s.w, l, phase, message, k).0;
    var stored := SiteOf(s.w, n).value;
    assert Ordered(l, stored);
    if SiteOf(w', n) == SiteOf(s.w, n) || phase != Ready {
      HonorMoves(c, s, w', n, Stopped(true));
    } else {
      var now := SiteOf(w', n).value;
      forall kind ensures Desired(c, l, kind) == Desired(c, now, kind) { RenderingReadsSpec(c, l, now, kind); }
      ShownFrame(c, s.w, w', l, 4);
      assert Shown(c, w', now, 4);
      StatusIsStable(l, now, Ready, READY_MESSAGE, k.now);
    }
  }

  lemma ActKeepsHonor(c: Config, s: System, n: string, k: Tick)
    requires BaseAt(s, n) && Held(s, n) && HonorAt(c, s, n) && Possible(s, n, k)
    requires NonEmpty(k.random) && !Adopts(s.w, s.ctl[n].pc, k)
    ensures var r := Effect(c, s.w, s.ctl[n].pc, k);
            Honor(c, r.0, n, r.1)
  {
    match s.ctl[n].pc
    case Stopped(_) =>
    case AddFinalizer(_) => AddFinalizerKeepsHonor(c, s, n, k);
    case GetSecret(_) => GetSecretKeepsHonor(c, s, n, k);
    case PutSecret(_, _, _) => PutSecretKeepsHonor(c, s, n, k);
    case RunSql(_, _, next) => if next < 5 { RunSqlKeepsHonor(c, s, n, k); }
    case Apply(_, next) => if next < 4 { ApplyKeepsHonor(c, s, n, k); }
    case WriteStatus(_, _, _) => ReportKeepsHonor(c, s, n, k);
    case DropSql(_, next) => if next < 3 { DropSqlKeepsHonor(c, s, n, k); }
    case RemoveFinalizer(_) => RemoveFinalizerKeepsHonor(c, s, n, k);
  }

  lemma CommitClaimsLess(s: System, n: string, copy: Site, e: Edit)
    requires BaseAt(s, n)
    ensures ClaimsLess(s.w, DoCommit(s, n, copy, e).w, n)
  { }

  lemma CommitKeepsHonor(c: Config, s: System, n: string, copy: Site, e: Edit)
    requires BaseAt(s, n) && HonorAt(c, s, n)
    ensures HonorAt(c, DoCommit(s, n, copy, e), n)
  {
    CommitClaimsLess(s, n, copy, e);
    HonorMoves(c, s, DoCommit(s, n, copy, e).w, n, s.ctl[n].pc);
  }

  lemma DeleteKeepsHonor(c: Config, s: System, n: string)
    requires BaseAt(s, n) && HonorAt(c, s, n)
    ensures HonorAt(c, With(DeleteSite(s.w, n), s, n, s.ctl[n]), n)
  {
    HonorMoves(c, s, DeleteSite(s.w, n), n, s.ctl[n].pc);
  }

  lemma CollectKeepsSecret(w: World, n: string, l: Site)
    requires l.name == n && n in w.sites && w.sites[n].uid == l.uid && OwnSecret(w, l)
    ensures CollectSecret(w, n, SecretKey(n)) == Tock(w)
  { }

  lemma CollectSecretKeepsHonor(c: Config, s: System, n: string)
    requires BaseAt(s, n) && HonorAt(c, s, n)
    ensures Honor(c, CollectSecret(s.w, n, SecretKey(n)), n, s.ctl[n].pc)
  {
    var pc, w' := s.ctl[n].pc, CollectSecret(s.w, n, SecretKey(n));
    if w' == Tock(s.w) {
      HonorFrame(c, s, w', n, pc);
    } else {
      if Working(pc) && OwnSecret(s.w, pc.site) { CollectKeepsSecret(s.w, n, pc.site); }
      if n in s.w.sites && OwnSecret(s.w, s.w.sites[n]) { CollectKeepsSecret(s.w, n, s.w.sites[n]); }
      if Working(pc) { ShownFrame(c, s.w, w', pc.site, if pc.Apply? then pc.next else 4); }
    }
  }

  lemma CollectChildKeepsHonor(c: Config, s: System, n: string, kind: Kind)
    requires BaseAt(s, n) && HonorAt(c, s, n)
    ensures Honor(c, CollectChild(s.w, n, ChildKey(n, kind)), n, s.ctl[n].pc)
  {
    var pc, w' := s.ctl[n].pc, CollectChild(s.w, n, ChildKey(n, kind));
    if n in s.w.sites {
      if pc.Apply? { CollectKeepsShown(c, s.w, pc.site, pc.next, kind); }
      if pc.WriteStatus? { CollectKeepsShown(c, s.w, pc.site, 4, kind); }
      CollectKeepsShown(c, s.w, s.w.sites[n], 4, kind);
    }
  }

  lemma CollectKeepsShown(c: Config, w: World, l: Site, count: nat, kind: Kind)
    requires l.name in w.sites && w.sites[l.name].uid == l.uid
    ensures Shown(c, w, l, count) ==> Shown(c, CollectChild(w, l.name, ChildKey(l.name, kind)), l, count)
  { }

  /** No reconcile adopts a Secret, and random values are not empty. */
  ghost predicate CleanMove(s: System, m: Move) {
    m.action.Act? ==> NonEmpty(m.action.tick.random) && (m.name in s.ctl ==> !Adopts(s.w, s.ctl[m.name].pc, m.action.tick))
  }

  lemma OwnStepKeepsHonor(c: Config, s: System, n: string, a: Action)
    requires BaseAt(s, n) && Held(s, n) && HonorAt(c, s, n) && CleanMove(s, Move(n, a))
    ensures HonorAt(c, Step(c, s, Move(n, a)), n)
  {
    match a
    case Act(k) => if Possible(s, n, k) { ActKeepsHonor(c, s, n, k); }
    case Commit(copy, e) => CommitKeepsHonor(c, s, n, copy, e);
    case Delete => DeleteKeepsHonor(c, s, n);
    case CollectTheSecret => CollectSecretKeepsHonor(c, s, n);
    case CollectAChild(kind) => CollectChildKeepsHonor(c, s, n, kind);
    case _ => QuietMoveKeepsHonor(c, s, n, a);
  }

  lemma QuietMoveKeepsHonor(c: Config, s: System, n: string, a: Action)
    requires BaseAt(s, n) && HonorAt(c, s, n) && (a.Begin? || a.Crash? || a.Create?)
    ensures HonorAt(c, Step(c, s, Move(n, a)), n)
  { }

  lemma OtherStepKeepsHonor(c: Config, s: System, m: Move, n: string)
    requires AllBase(s) && HonorAt(c, s, n) && m.name != n
    ensures HonorAt(c, Step(c, s, m), n)
  {
    StepIsOwn(c, s, m, n);
    HonorStays(c, s, Step(c, s, m), n);
  }

  lemma HonorStays(c: Config, s: System, s': System, n: string)
    requires BaseAt(s, n) && HonorAt(c, s, n) && SameObjects(s, s', n)
    ensures HonorAt(c, s', n)
  {
    var pc := s.ctl[n].pc;
    HonestFrame(c, s.w, s'.w, n);
    if pc.Apply? { ShownFrame(c, s.w, s'.w, pc.site, pc.next); }
    if pc.WriteStatus? { ShownFrame(c, s.w, s'.w, pc.site, 4); }
  }

  /** From this state on, no reconcile of site n adopts a Secret. */
  ghost predicate CleanSince(c: Config, s: System, moves: seq<Move>, n: string) {
    forall i :: 0 <= i < |moves| && moves[i].name == n ==> CleanMove(Run(c, s, moves[..i]), moves[i])
  }

  lemma CleanPrefix(c: Config, s: System, moves: seq<Move>, n: string)
    requires CleanSince(c, s, moves, n) && moves != []
    ensures CleanSince(c, s, moves[..|moves| - 1], n)
    ensures moves[|moves| - 1].name == n ==> CleanMove(Run(c, s, moves[..|moves| - 1]), moves[|moves| - 1])
  {
    var before := moves[..|moves| - 1];
    assert forall i :: 0 <= i < |before| ==> before[..i] == moves[..i];
  }

  lemma UnstoredIsHonored(c: Config, s: System, n: string)
    requires BaseAt(s, n) && n !in s.w.sites
    ensures HonorAt(c, s, n)
  { }

  /** Neither what other sites' reconciles adopt nor what happened before matters. */
  lemma {:induction false} RunKeepsHonor(c: Config, s: System, moves: seq<Move>, n: string)
    requires AllBase(s) && Held(s, n) && HonorAt(c, s, n) && CleanSince(c, s, moves, n)
    ensures HonorAt(c, Run(c, s, moves), n)
  {
    if moves != [] {
      var before, m := moves[..|moves| - 1], moves[|moves| - 1];
      CleanPrefix(c, s, moves, n);
      RunKeepsHonor(c, s, before, n);
      RunKeepsAllBase(c, s, before);
      RunKeepsHeld(c, s, before, n);
      if m.name == n {
        OwnStepKeepsHonor(c, Run(c, s, before), n, m.action);
      } else {
        OtherStepKeepsHonor(c, Run(c, s, before), m, n);
      }
    }
  }
}
