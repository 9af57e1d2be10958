/** What a reconcile reports: what the status says after a report, and which report a failed call leads to. */
module Reports {
  import opened Api
  import opened BaseSafety
  import opened Conditions
  import opened Convergence
  import opened Credentials
  import opened Mysql
  import opened Names
  import opened Operator
  import opened Recovery
  import opened Retry
  import opened Store
  import opened Versions
  import opened Wrappers

  // ---- One report ----

  /** The first condition of a kind, its other fields aside from the time as given. */
  ghost predicate Tells(conds: seq<Condition>, i: nat, ready: bool, reason: Phase, message: string, generation: int) {
    && First(conds, "Ready", i) && conds[i].status == ready && conds[i].reason == reason
    && conds[i].message == message && conds[i].observedGeneration == generation
  }

  /** The Ready condition is at `i`, in place of the old one or at the end; it is as old as the old one if that
      told the same readiness; all other conditions are as they were. */
  ghost predicate Updated(old': seq<Condition>, conds: seq<Condition>, i: nat, ready: bool, now: int) {
    && i < |conds| && |conds| == (if First(old', "Ready", i) then |old'| else |old'| + 1)
    && (forall j :: 0 <= j < |conds| && j != i ==> j < |old'| && conds[j] == old'[j])
    && conds[i].lastTransitionTime
       == (if First(old', "Ready", i) && old'[i].status == ready then old'[i].lastTransitionTime else now)
  }

  lemma ConditionIsSet(conds: seq<Condition>, generation: int, phase: Phase, message: string, now: int) returns (i: nat)
    ensures var conds' := SetCondition(conds, PhaseCondition(generation, phase, message, now));
            Tells(conds', i, phase == Ready, phase, message, generation) && Updated(conds, conds', i, phase == Ready, now)
  {
    var c := PhaseCondition(generation, phase, message, now);
    if k: nat :| First(conds, READY_KIND, k) {
      i := k;
      SetAtFirst(conds, c, k, 0);
    } else {
      i := |conds|;
      NoneIsFirst(conds, READY_KIND, 0);
      SetAtEnd(conds, c, 0);
    }
  }

  /** A report of Ready fills in the summary; any other leaves it as it was. */
  ghost predicate Summary(s: Site, status: Status, ready: bool) {
    if ready then
      && status.url == (if s.spec.tls.enabled then "https://" else "http://") + s.spec.domain
      && status.databaseName == DatabaseName(s) && status.databaseUser == DatabaseUser(s)
      && status.secretName == s.name + "-wp" && status.observedGeneration == s.generation
    else
      && status.url == s.status.url && status.databaseName == s.status.databaseName
      && status.databaseUser == s.status.databaseUser && status.secretName == s.status.secretName
      && status.observedGeneration == s.status.observedGeneration
  }

  ghost predicate Reports(s: Site, s': Site, phase: Phase, message: string, now: int) {
    && s'.status.phase == phase && Summary(s, s'.status, phase == Ready)
    && s'.spec == s.spec && s'.annotations == s.annotations && s'.finalizers == s.finalizers
    && s'.generation == s.generation && s'.uid == s.uid && s'.deleting == s.deleting
    && Told(s.status.conditions, s'.status.conditions, phase == Ready, phase, message, s.generation, now)
  }

  ghost predicate Told(old': seq<Condition>, conds: seq<Condition>, ready: bool, reason: Phase, message: string, generation: int,
                       now: int)
  {
    exists i: nat :: Tells(conds, i, ready, reason, message, generation) && Updated(old', conds, i, ready, now)
  }

  /** The same for some message that begins so. */
  ghost predicate ReportsOf(s: Site, s': Site, phase: Phase, start: string, now: int) {
    exists message :: start <= message && Reports(s, s', phase, message, now)
  }

  lemma StatusReports(l: Site, phase: Phase, message: string, now: int, version: nat)
    ensures Reports(l, l.(status := StatusFor(l, phase, message, now), resourceVersion := version), phase, message, now)
  {
    var i := ConditionIsSet(l.status.conditions, l.generation, phase, message, now);
  }

  /** Whenever a report on the stored version takes effect, the stored site reports that phase. */
  lemma ReportStores(w: World, l: Site, phase: Phase, message: string, k: Tick)
    requires l.name in w.sites && w.sites[l.name] == l && !l.deleting && !k.outcome.Refused?
    ensures var w' := DoWriteStatus(w, l, phase, message, k).0;
            l.name in w'.sites && Reports(l, w'.sites[l.name], phase, message, k.now)
  {
    StatusReports(l, phase, message, k.now, w.revision);
    StatusReports(l, phase, message, k.now, l.resourceVersion);
  }

  // ---- Which call leads to which report ----

  /** A reconcile after its next calls, or where it stopped. */
  function Along(c: Config, w: World, pc: Pc, o: Oracle, i: nat, k: nat): (World, Pc)
    decreases k
  {
    if k == 0 || pc.Stopped? then (w, pc)
    else
      var r := Effect(c, w, pc, o(i));
      Along(c, r.0, r.1, o, i + 1, k - 1)
  }

  lemma {:induction false} DriveAlong(c: Config, w: World, pc: Pc, o: Oracle, i: nat, k: nat, w': World, pc': Pc, j: nat)
    requires Along(c, w, pc, o, i, k) == (w', pc') && !pc'.Stopped? && j == i + k
    ensures Drive(c, w, pc, o, i) == Drive(c, w', pc', o, j)
    decreases k
  {
    if k != 0 && !pc.Stopped? {
      var (w1, pc1) := Effect(c, w, pc, o(i));
      DriveOne(c, w, pc, o, i, w1, pc1);
      DriveAlong(c, w1, pc1, o, i + 1, k - 1, w', pc', j);
    }
  }

  /** The copy in memory is the stored version, with the status from before. */
  ghost predicate InStep(w: World, pc: Pc, n: string, status: Status) {
    !pc.Stopped? ==>
      && pc.site.name == n && n in w.sites && w.sites[n] == pc.site && !pc.site.deleting
      && pc.site.status == status && (pc.AddFinalizer? || Working(pc))
  }

  lemma FinalizerInStep(w: World, l: Site, k: Tick)
    requires InStep(w, AddFinalizer(l), l.name, l.status)
    ensures var r := DoAddFinalizer(w, l, k); InStep(r.0, r.1, l.name, l.status)
  { }

  lemma EffectInStep(c: Config, w: World, pc: Pc, k: Tick, n: string, status: Status)
    requires InStep(w, pc, n, status)
    ensures var r := Effect(c, w, pc, k); InStep(r.0, r.1, n, status)
  {
    if pc.AddFinalizer? {
      FinalizerInStep(w, pc.site, k);
    } else if !pc.Stopped? && !pc.WriteStatus? {
      QuietEffect(c, w, pc, k);
    }
  }

  lemma {:induction false} AlongInStep(c: Config, w: World, pc: Pc, o: Oracle, i: nat, k: nat, n: string, status: Status)
    requires InStep(w, pc, n, status)
    ensures var r := Along(c, w, pc, o, i, k); InStep(r.0, r.1, n, status)
    decreases k
  {
    if k != 0 && !pc.Stopped? {
      var (w1, pc1) := Effect(c, w, pc, o(i));
      EffectInStep(c, w, pc, o(i), n, status);
      AlongInStep(c, w1, pc1, o, i + 1, k - 1, n, status);
    }
  }

  /** The call is answered without an error. */
  predicate Answered(w: World, pc: Pc, k: Tick) {
    && k.outcome.Done?
    && match pc
       case PutSecret(l, existing, desired) =>
         if existing.None? then l.name + "-wp" !in w.secrets
         else l.name + "-wp" in w.secrets && w.secrets[l.name + "-wp"].version == existing.value.version
       case RunSql(l, password, next) => next < 5 && Execute(w.mysql, EnsureOf(l, password)[next]).Some?
       case _ => true
  }

  /** The report a call that is not answered leads to, and how its message begins. */
  function Blame(pc: Pc): Option<(Phase, string)> {
    match pc
    case GetSecret(_) => Some((Error, "secret: "))
    case PutSecret(_, _, _) => Some((Error, "secret: "))
    case RunSql(_, _, _) => Some((Provisioning, "Waiting for MySQL: "))
    case Apply(l, _) => if l.spec.suspend then None else Some((Error, "workload: "))
    case _ => None
  }

  lemma SecretBlamed(w: World, l: Site, existing: Option<SecretObject>, desired: SecretData, k: Tick)
    ensures !Answered(w, GetSecret(l), k) ==> Blames(DoGetSecret(w, l, k).1, l, Error, "secret: ")
    ensures !Answered(w, PutSecret(l, existing, desired), k) ==>
              Blames(DoPutSecret(w, l, existing, desired, k).1, l, Error, "secret: ")
  { }

  ghost predicate Blames(pc: Pc, l: Site, phase: Phase, start: string) {
    pc.WriteStatus? && pc.site == l && pc.phase == phase && start <= pc.message
  }

  lemma SqlBlamed(w: World, l: Site, password: string, next: nat, k: Tick)
    requires next < 5 && !Answered(w, RunSql(l, password, next), k)
    ensures Blames(DoRunSql(w, l, password, next, k).1, l, Provisioning, "Waiting for MySQL: ")
  { }

  lemma ApplyBlamed(c: Config, w: World, l: Site, next: nat, k: Tick)
    requires next < 4 && !k.outcome.Done?
    ensures var pc := DoApply(c, w, l, next, k).1;
            if l.spec.suspend then pc == Stopped(true) else Blames(pc, l, Error, "workload: ")
  { }

  /** The stages of a reconcile never run past their last call. */
  predicate InBounds(pc: Pc) { (pc.RunSql? ==> pc.next < 5) && (pc.Apply? ==> pc.next < 4) }

  lemma EffectInBounds(c: Config, w: World, pc: Pc, k: Tick)
    requires InBounds(pc)
    ensures InBounds(Effect(c, w, pc, k).1)
  {
    if pc.Apply? { ApplyInBounds(c, w, pc.site, pc.next, k); }
  }

  lemma ApplyInBounds(c: Config, w: World, l: Site, next: nat, k: Tick)
    requires next < 4
    ensures InBounds(DoApply(c, w, l, next, k).1)
  { }

  lemma {:induction false} AlongInBounds(c: Config, w: World, pc: Pc, o: Oracle, i: nat, k: nat)
    requires InBounds(pc)
    ensures InBounds(Along(c, w, pc, o, i, k).1)
    decreases k
  {
    if k != 0 && !pc.Stopped? {
      var (w1, pc1) := Effect(c, w, pc, o(i));
      EffectInBounds(c, w, pc, o(i));
      AlongInBounds(c, w1, pc1, o, i + 1, k - 1);
    }
  }

  lemma CallBlamed(c: Config, w: World, pc: Pc, k: Tick)
    requires InBounds(pc) && Blame(pc).Some? && !Answered(w, pc, k)
    ensures Blames(Effect(c, w, pc, k).1, pc.site, Blame(pc).value.0, Blame(pc).value.1)
  {
    match pc
    case GetSecret(l) => SecretBlamed(w, l, None, map[], k);
    case PutSecret(l, existing, desired) => SecretBlamed(w, l, existing, desired, k);
    case RunSql(l, password, next) => SqlBlamed(w, l, password, next, k);
    case Apply(l, next) => ApplyBlamed(c, w, l, next, k);
  }

  lemma BlameIsStored(c: Config, w: World, l: Site, pc: Pc, o: Oracle, j: nat)
    requires pc.WriteStatus? && pc.site == l && pc.phase in {Error, Provisioning} && !o(j).outcome.Refused?
    requires l.name in w.sites && w.sites[l.name] == l && !l.deleting
    ensures var end := Drive(c, w, pc, o, j);
            end.1 == Stopped(true) && l.name in end.0.sites && Reports(l, end.0.sites[l.name], pc.phase, pc.message, o(j).now)
  {
    var (w', pc') := DoWriteStatus(w, l, pc.phase, pc.message, o(j));
    ReportStores(w, l, pc.phase, pc.message, o(j));
    DriveOne(c, w, pc, o, j, w', pc');
  }

  /** From call number k on: it leads to a report, which is stored. */
  lemma CallIsReported(c: Config, w: World, n: string, o: Oracle, k: nat, w1: World, pc: Pc, phase: Phase, start: string)
    requires Live(w, n) && Along(c, w, Start(c, w.sites[n]), o, 0, k) == (w1, pc)
    requires !pc.Stopped? && !pc.AddFinalizer? && !pc.WriteStatus?
    requires Blames(Effect(c, w1, pc, o(k)).1, pc.site, phase, start) && phase in {Error, Provisioning}
    requires !o(k + 1).outcome.Refused?
    ensures var w', now := Reconciled(c, w, n, o), o(k + 1).now;
            && n in w'.sites && w'.sites[n].status.phase == phase && Summary(w.sites[n], w'.sites[n].status, false)
            && ReportsOf(pc.site, w'.sites[n], phase, start, now)
    ensures Drive(c, w, Start(c, w.sites[n]), o, 0).1 == Stopped(true)
  {
    var first := Start(c, w.sites[n]);
    AlongInStep(c, w, first, o, 0, k, n, w.sites[n].status);
    DriveAlong(c, w, first, o, 0, k, w1, pc, k);
    var (w2, pc2) := Effect(c, w1, pc, o(k));
    QuietEffect(c, w1, pc, o(k));
    DriveOne(c, w1, pc, o, k, w2, pc2);
    BlameIsStored(c, w2, pc.site, pc2, o, k + 1);
  }

  /** Over whole reconciles of a live site, under any failures: if call number k is one of the Secret, of
      the database, or an application for an active site, and is not answered, and the status write
      after it takes effect, then the site ends with the phase of that stage, the summary as it was,
      and a retry is asked for. */
  lemma FailureIsReported(c: Config, w: World, n: string, o: Oracle, k: nat, w1: World, pc: Pc)
    requires Live(w, n) && Along(c, w, Start(c, w.sites[n]), o, 0, k) == (w1, pc)
    requires Blame(pc).Some? && !Answered(w1, pc, o(k)) && !o(k + 1).outcome.Refused?
    ensures var w', phase, now := Reconciled(c, w, n, o), Blame(pc).value.0, o(k + 1).now;
            && n in w'.sites && w'.sites[n].status.phase == phase && Summary(w.sites[n], w'.sites[n].status, false)
            && ReportsOf(pc.site, w'.sites[n], phase, Blame(pc).value.1, now)
    ensures Drive(c, w, Start(c, w.sites[n]), o, 0).1 == Stopped(true)
  {
    AlongInBounds(c, w, Start(c, w.sites[n]), o, 0, k);
    CallBlamed(c, w1, pc, o(k));
    CallIsReported(c, w, n, o, k, w1, pc, Blame(pc).value.0, Blame(pc).value.1);
  }

  /** Names the provisioner refuses are reported like a database that is not there. */
  lemma UnusableIsReported(c: Config, w: World, n: string, o: Oracle, k: nat, w1: World, pc: Pc)
    requires Live(w, n) && Along(c, w, Start(c, w.sites[n]), o, 0, k) == (w1, pc)
    requires (pc.GetSecret? || pc.PutSecret?) && Answered(w1, pc, o(k)) && !UsableNames(pc.site)
    requires !Effect(c, w1, pc, o(k)).1.PutSecret? && !o(k + 1).outcome.Refused?
    ensures var w', now := Reconciled(c, w, n, o), o(k + 1).now;
            && n in w'.sites && w'.sites[n].status.phase == Provisioning && Summary(w.sites[n], w'.sites[n].status, false)
            && ReportsOf(pc.site, w'.sites[n], Provisioning, "Waiting for MySQL: ", now)
    ensures Drive(c, w, Start(c, w.sites[n]), o, 0).1 == Stopped(true)
  {
    CallIsReported(c, w, n, o, k, w1, pc, Provisioning, "Waiting for MySQL: ");
  }

  /** A failed application for a suspended site is not reported at all; it is retried. */
  lemma SuspendedFailureIsSilent(c: Config, w: World, n: string, o: Oracle, k: nat, w1: World, pc: Pc)
    requires Live(w, n) && Along(c, w, Start(c, w.sites[n]), o, 0, k) == (w1, pc)
    requires pc.Apply? && pc.site.spec.suspend && !o(k).outcome.Done?
    ensures var w' := Reconciled(c, w, n, o); n in w'.sites && w'.sites[n].status == w.sites[n].status
    ensures Drive(c, w, Start(c, w.sites[n]), o, 0).1 == Stopped(true)
  {
    var start := Start(c, w.sites[n]);
    AlongInStep(c, w, start, o, 0, k, n, w.sites[n].status);
    AlongInBounds(c, w, start, o, 0, k);
    DriveAlong(c, w, start, o, 0, k, w1, pc, k);
    var (w2, pc2) := Effect(c, w1, pc, o(k));
    ApplyBlamed(c, w1, pc.site, pc.next, o(k));
    QuietEffect(c, w1, pc, o(k));
    DriveOne(c, w1, pc, o, k, w2, pc2);
  }

  /** What a site says that is at rest: suspended, or Ready for its current generation, in those words. */
  lemma RestedTells(c: Config, w: World, n: string)
    requires Rested(c, w, n)
    ensures var s := w.sites[n];
            if s.spec.suspend then
              s.status.phase == Suspended && Says(s.status.conditions, false, Suspended, "Site suspended", s.generation)
            else
              && s.status.phase == Ready && Says(s.status.conditions, true, Ready, "Site reconciled", s.generation)
              && Summary(s, s.status, true)
  {
    var s := w.sites[n];
    var phase, message := ReportOf(s).0, ReportOf(s).1;
    assert StatusFor(s, phase, message, 0) == s.status;
    StatusReports(s, phase, message, 0, s.resourceVersion);
    assert s.(status := StatusFor(s, phase, message, 0), resourceVersion := s.resourceVersion) == s;
    TellsSays(s, phase, message);
  }

  ghost predicate Says(conds: seq<Condition>, ready: bool, reason: Phase, message: string, generation: int) {
    exists i: nat :: Tells(conds, i, ready, reason, message, generation)
  }

  lemma TellsSays(s: Site, phase: Phase, message: string)
    requires Reports(s, s, phase, message, 0)
    ensures s.status.phase == phase && Says(s.status.conditions, phase == Ready, phase, message, s.generation)
    ensures Summary(s, s.status, phase == Ready)
  {
    var i: nat :| Tells(s.status.conditions, i, phase == Ready, phase, message, s.generation);
  }

  /** Every reconcile of a live site that asks for no retry says so, whatever failed and whatever it kept. */
  lemma NoRetryTells(c: Config, w: World, n: string, o: Oracle)
    requires Live(w, n) && (forall i: nat :: NonEmpty(o(i).random)) && Truthful(w, n, ReadBy(w, n, o))
    requires Drive(c, w, Start(c, w.sites[n]), o, 0).1 == Stopped(false)
    ensures var w' := Reconciled(c, w, n, o);
            && n in w'.sites && w'.sites[n].spec == w.sites[n].spec
            && (if w.sites[n].spec.suspend then w'.sites[n].status.phase == Suspended
                else w'.sites[n].status.phase == Ready && Summary(w'.sites[n], w'.sites[n].status, true))
  {
    var calm := Calmed(o);
    NoRetryIsCalm(c, w, Start(c, w.sites[n]), o, 0);
    if w.sites[n].spec.suspend {
      RecoverSuspended(c, w, n, calm);
    } else {
      NoRetryReads(c, w, n, o);
      assert ReadBy(w, n, calm) == ReadBy(w, n, o);
      if ReadComplete(ReadBy(w, n, o)) { RecoverKeeping(c, w, n, ReadBy(w, n, o).value, calm); } else { Recover(c, w, n, calm); }
    }
    RestedTells(c, Reconciled(c, w, n, o), n);
  }
}
