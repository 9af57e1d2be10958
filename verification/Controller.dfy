/** Reconcile in the form of the program (internal/controller/wordpresssite_controller.go), and that
    it is the step machine of Operator.dfy: call by call, under any failures and any interference
    between two calls, with the same result. */
module Controller {
  import opened Api
  import opened Client
  import opened Conditions
  import opened Convergence
  import opened Credentials
  import opened Interference
  import opened Names
  import opened Operator
  import opened Provisioner
  import opened Recovery
  import opened Reports
  import opened Resources
  import opened Retry
  import opened Store
  import opened Wrappers

  /** The in-memory WordPressSite the reconcile works on and mutates. */
  class SiteObject {
    var site: Site

    constructor (site: Site)
      ensures this.site == site
    {
      this.site := site;
    }

    method AddFinalizer() returns (added: bool)
      modifies this
      ensures added <==> FINALIZER !in old(site.finalizers)
      ensures site == old(site).(finalizers := old(site.finalizers) + {FINALIZER})
    {
      added := FINALIZER !in site.finalizers;
      if added {
        site := site.(finalizers := site.finalizers + {FINALIZER});
      } else {
        assert site.finalizers + {FINALIZER} == site.finalizers;
      }
    }
  }

  /** The read returned the stored version of a live site. */
  predicate Current(w: World, site: Site) { Live(w, site.name) && w.sites[site.name] == site }

  lemma AloneSettles(c: Config, w: World, n: string, o: Oracle, others: Others, i: nat)
    requires LeftAlone(others) && Live(w, n) && forall j: nat :: NonEmpty(o(j).random)
    ensures var end, o' := Amid(c, w, Start(c, w.sites[n]), o, others, i), Shifted(o, i);
            && (Calm(o') && (w.sites[n].spec.suspend || UsableNames(w.sites[n])) ==> end.1 == Stopped(false))
            && (end.1 == Stopped(false) && Truthful(w, n, ReadBy(w, n, o')) ==>
                  (Settled(c, end.0, n) <==> w.sites[n].spec.suspend || KeptIsStored(w, n, ReadBy(w, n, o'))))
  {
    var end, o' := Amid(c, w, Start(c, w.sites[n]), o, others, i), Shifted(o, i);
    AloneIsReconciled(c, w, n, o, others, i);
    if Calm(o') && (w.sites[n].spec.suspend || UsableNames(w.sites[n])) { CalmNeedsNoRetry(c, w, n, o'); }
    if end.1 == Stopped(false) && Truthful(w, n, ReadBy(w, n, o')) { NoRetryMeansSettled(c, w, n, o'); }
  }

  /** Where a failed application leaves the reconcile. */
  function Failed(site: Site, f: Failure): Pc {
    if site.spec.suspend then Stopped(true) else Fail(site, "workload", f)
  }

  lemma AmidApply(c: Config, w: World, l: Site, next: nat, o: Oracle, others: Others, i: nat, w': World, r: Answer<()>)
    requires next < 4
    requires var now := others(i, w);
             (w', r) == Respond(now, (ApplyChild(now, ChildKey(l.name, KINDS[next]), l.uid, Desired(c, l, KINDS[next])), Ok(())),
                                o(i).outcome)
    ensures Amid(c, w, Apply(l, next), o, others, i)
            == Amid(c, w', if r.Err? then Failed(l, r.error) else if next < 3 then Apply(l, next + 1) else Report(l),
                    o, others, i + 1)
  {
    var step := DoApply(c, others(i, w), l, next, o(i));
    AmidOne(c, w, Apply(l, next), o, others, i, step.0, step.1);
  }

  lemma AmidPut(c: Config, w: World, l: Site, existing: Option<SecretObject>, desired: SecretData, o: Oracle, others: Others,
                i: nat, w': World, r: Answer<SecretData>)
    requires var now := others(i, w);
             (w', r) == Respond(now, if existing.None? then CreateSecret(now, SecretName(l), l.uid, desired)
                                     else UpdateSecret(now, SecretName(l), existing.value.version, l.uid, desired),
                                o(i).outcome)
    ensures Amid(c, w, PutSecret(l, existing, desired), o, others, i)
            == Amid(c, w', if r.Err? then Fail(l, "secret", r.error) else Provision(l, Password(desired)), o, others, i + 1)
  {
    var put := DoPutSecret(others(i, w), l, existing, desired, o(i));
    AmidOne(c, w, PutSecret(l, existing, desired), o, others, i, put.0, put.1);
  }

  class Reconciler {
    const c: Config
    const servers: Servers

    constructor (c: Config, servers: Servers)
      ensures this.c == c && this.servers == servers
    {
      this.c := c;
      this.servers := servers;
    }

    /** The rest of the reconcile from here on, as the machine sees it. */
    ghost function From(pc: Pc): (World, Pc, nat)
      reads servers
    {
      Amid(c, servers.w, pc, servers.oracle, servers.others, servers.calls)
    }

    method SetPhase(x: SiteObject, phase: Phase, message: string) returns (r: Answer<Site>)
      modifies x, servers
      ensures x.site == old(x.site).(status := WithPhase(old(x.site.status), old(x.site.generation), phase, message,
                                                         old(servers.Tick()).now))
      ensures x.site.status.phase == phase && Summary(old(x.site), x.site.status, false)
      ensures var was := old(x.site);
              Told(was.status.conditions, x.site.status.conditions, phase == Ready, phase, message, was.generation,
                   old(servers.Tick()).now)
      ensures (servers.w, r)
              == Respond(old(servers.Now()), UpdateStatus(old(servers.Now()), x.site), old(servers.Tick()).outcome)
      ensures servers.calls == old(servers.calls) + 1
    {
      var s := x.site.status;
      s := s.(phase := phase);
      var cond := Condition(READY_KIND, true, phase, message, x.site.generation, servers.Tick().now);
      if phase != Ready {
        cond := cond.(status := false);
      }
      ghost var _ := ConditionIsSet(s.conditions, x.site.generation, phase, message, servers.Tick().now);
      var list := new ConditionList(s.conditions);
      list.Set(cond);
      s := s.(conditions := list.conds);
      x.site := x.site.(status := s);
      r := servers.StatusUpdate(x.site);
    }

    /** A report other than Ready: the status write, then the reconcile ends. */
    method ReportPhase(x: SiteObject, phase: Phase, message: string) returns (r: Answer<Site>)
      requires phase != Ready
      modifies x, servers
      ensures old(From(WriteStatus(x.site, phase, message)))
              == From(Stopped(phase in {Error, Provisioning} || r.Err?))
    {
      ghost var l, w, i := x.site, servers.w, servers.calls;
      r := SetPhase(x, phase, message);
      AmidOne(c, w, WriteStatus(l, phase, message), servers.oracle, servers.others, i, servers.w,
               Stopped(phase in {Error, Provisioning} || r.Err?));
    }

    /** The Secret as stored, or None when there is none. */
    method FetchSecret(x: SiteObject) returns (r: Answer<Option<SecretObject>>)
      modifies servers
      ensures r.Err? ==> old(From(GetSecret(x.site))) == From(Fail(x.site, "secret", r.error))
      ensures r.Ok? ==>
                var desired := Filled(if r.value.Some? then r.value.value.data else map[], old(servers.Tick()).random);
                old(From(GetSecret(x.site)))
                == From(if r.value.Some? && r.value.value.data == desired then Provision(x.site, Password(desired))
                        else PutSecret(x.site, r.value, desired))
    {
      ghost var l, w, i := x.site, servers.w, servers.calls;
      var got := servers.Get(SecretName(x.site));
      ghost var step := DoGetSecret(servers.others(i, w), l, servers.oracle(i));
      AmidOne(c, w, GetSecret(l), servers.oracle, servers.others, i, step.0, step.1);
      if got.Ok? {
        r := Ok(Some(got.value));
      } else if got.error == NotFound {
        r := Ok(None);
      } else {
        r := Err(got.error);
      }
    }

    /** Create or replace the Secret with the desired data. */
    method StoreSecret(x: SiteObject, existing: Option<SecretObject>, desired: Secret) returns (r: Answer<SecretData>)
      requires desired.meta.name == SecretName(x.site)
      modifies servers
      ensures old(From(PutSecret(x.site, existing, desired.data)))
              == From(if r.Ok? then Provision(x.site, Password(desired.data)) else Fail(x.site, "secret", r.error))
      ensures r.Ok? ==> r.value == desired.data
    {
      ghost var l, w, i := x.site, servers.w, servers.calls;
      if existing.None? {
        r := servers.Create(desired.meta.name, x.site.uid, desired.data);
      } else {
        r := servers.Replace(desired.meta.name, existing.value.version, x.site.uid, desired.data);
      }
      AmidPut(c, w, l, existing, desired.data, servers.oracle, servers.others, i, servers.w, r);
    }

    method EnsureSecret(x: SiteObject) returns (r: Answer<SecretData>)
      requires NonEmpty(servers.Tick().random)
      modifies servers
      ensures old(From(GetSecret(x.site)))
              == From(if r.Ok? then Provision(x.site, Password(r.value)) else Fail(x.site, "secret", r.error))
    {
      var random := servers.Tick().random;
      var fetched := FetchSecret(x);
      if fetched.Err? { return Err(fetched.error); }
      var existing := fetched.value;
      var desired := DesiredSecret(x.site, if existing.Some? then Some(existing.value.data) else None, random);
      if existing.Some? && existing.value.data == desired.data {
        return Ok(existing.value.data);
      }
      r := StoreSecret(x, existing, desired);
    }

    method ApplyOne(x: SiteObject, next: nat, child: Child) returns (err: Option<Failure>)
      requires next < 4 && child == Desired(c, x.site, KINDS[next])
      modifies servers
      ensures old(From(Apply(x.site, next)))
              == From(if err.Some? then Failed(x.site, err.value)
                      else if next < 3 then Apply(x.site, next + 1) else Report(x.site))
    {
      ghost var l, w, i := x.site, servers.w, servers.calls;
      var r := servers.Patch(ChildKey(x.site.name, KINDS[next]), x.site.uid, child);
      err := if r.Err? then Some(r.error) else None;
      AmidApply(c, w, l, next, servers.oracle, servers.others, i, servers.w, r);
    }

    /** The php.ini ConfigMap before the Deployment that mounts it. */
    method ApplyPods(x: SiteObject) returns (err: Option<Failure>)
      modifies servers
      ensures old(From(Apply(x.site, 0))) == From(if err.None? then Apply(x.site, 2) else Failed(x.site, err.value))
    {
      err := ApplyOne(x, 0, PHPConfigMap(c, x.site));
      if err.Some? { return; }
      var deployment := DesiredDeployment(c, x.site);
      err := ApplyOne(x, 1, deployment);
    }

    method ApplyTraffic(x: SiteObject) returns (err: Option<Failure>)
      modifies servers
      ensures old(From(Apply(x.site, 2))) == From(if err.None? then Report(x.site) else Failed(x.site, err.value))
    {
      err := ApplyOne(x, 2, SiteService(x.site));
      if err.Some? { return; }
      var ingress := DesiredIngress(c, x.site);
      err := ApplyOne(x, 3, ingress);
    }

    method ReconcileWorkload(x: SiteObject) returns (err: Option<Failure>)
      modifies servers
      ensures old(From(Apply(x.site, 0))) == From(if err.None? then Report(x.site) else Failed(x.site, err.value))
    {
      err := ApplyPods(x);
      if err.Some? { return; }
      err := ApplyTraffic(x);
    }

    /** Database and user, with the password of the Secret. */
    method ProvisionDatabase(x: SiteObject, password: string) returns (err: Option<string>)
      modifies servers
      ensures old(From(Provision(x.site, password)))
              == From(if err.None? then Apply(x.site, 0) else NoDatabase(x.site, err.value))
    {
      ghost var l, w, i := x.site, servers.w, servers.calls;
      err := EnsureDatabase(servers, DatabaseName(x.site), DatabaseUser(x.site), DatabaseHost(x.site), password);
      if UsableNames(l) {
        SentIsAmid(c, w, l, password, 0, servers.oracle, servers.others, i, servers.w, servers.calls, err);
      }
    }

    method ReconcileDelete(x: SiteObject) returns (retry: bool)
      requires x.site.deleting
      modifies x, servers
      ensures old(From(Start(c, x.site))) == From(Stopped(retry))
    {
      ghost var l, w, i := x.site, servers.w, servers.calls;
      if FINALIZER !in x.site.finalizers { return false; }
      if c.dropDataOnDelete {
        var err := Provisioner.DropDatabase(servers, DatabaseName(x.site), DatabaseUser(x.site), DatabaseHost(x.site));
        if UsableNames(l) {
          DropIsAmid(c, w, l, 0, servers.oracle, servers.others, i, servers.w, servers.calls, err);
        }
        if err.Some? { return true; }
      }
      retry := Release(x);
    }

    /** The write without the finalizer: the object may go. */
    method Release(x: SiteObject) returns (retry: bool)
      modifies x, servers
      ensures old(From(RemoveFinalizer(x.site))) == From(Stopped(retry))
    {
      ghost var l, w, i := x.site, servers.w, servers.calls;
      x.site := x.site.(finalizers := x.site.finalizers - {FINALIZER});
      var r := servers.Update(x.site);
      retry := r.Err?;
      AmidOne(c, w, RemoveFinalizer(l), servers.oracle, servers.others, i, servers.w, Stopped(retry));
    }

    /** The finalizer write of a live site that lacks it; the copy becomes the stored version. */
    method EnsureFinalizer(x: SiteObject) returns (r: Answer<()>)
      requires !x.site.deleting
      modifies x, servers
      ensures old(From(Start(c, x.site))) == From(if r.Ok? then Proceed(x.site) else Stopped(true))
    {
      ghost var l, w, i := x.site, servers.w, servers.calls;
      var added := x.AddFinalizer();
      if !added {
        assert x.site == l;
        return Ok(());
      }
      var updated := servers.Update(x.site);
      ghost var step := DoAddFinalizer(servers.others(i, w), l, servers.oracle(i));
      AmidOne(c, w, AddFinalizer(l), servers.oracle, servers.others, i, step.0, step.1);
      if updated.Err? { return Err(updated.error); }
      x.site := updated.value;
      r := Ok(());
    }

    /** The Ready report with its summary fields. */
    method ReportReady(x: SiteObject) returns (r: Answer<Site>)
      requires !x.site.spec.suspend
      modifies x, servers
      ensures old(From(Report(x.site))) == From(Stopped(r.Err?))
    {
      ghost var l, w, i := x.site, servers.w, servers.calls;
      x.site := x.site.(status := x.site.status.(
        databaseName := DatabaseName(x.site), databaseUser := DatabaseUser(x.site),
        secretName := SecretName(x.site), url := URL(x.site), observedGeneration := x.site.generation));
      r := SetPhase(x, Ready, "Site reconciled");
      AmidOne(c, w, WriteStatus(l, Ready, "Site reconciled"), servers.oracle, servers.others, i, servers.w, Stopped(r.Err?));
    }

    /** A suspended site: children only. */
    method ReconcileSuspended(x: SiteObject) returns (retry: bool)
      requires x.site.spec.suspend
      modifies x, servers
      ensures old(From(Proceed(x.site))) == From(Stopped(retry))
    {
      var err := ReconcileWorkload(x);
      if err.Some? { return true; }
      var r := ReportPhase(x, Suspended, "Site suspended");
      retry := r.Err?;
    }

    /** An active site: Secret, database, children, report. */
    method ReconcileActive(x: SiteObject) returns (retry: bool)
      requires !x.site.spec.suspend && NonEmpty(servers.Tick().random)
      modifies x, servers
      ensures old(From(Proceed(x.site))) == From(Stopped(retry))
    {
      var secret := EnsureSecret(x);
      if secret.Err? {
        var _ := ReportPhase(x, Error, "secret" + ": " + Describe(secret.error));
        return true;
      }
      var failed := ProvisionDatabase(x, Password(secret.value));
      if failed.Some? {
        var _ := ReportPhase(x, Provisioning, "Waiting for MySQL: " + failed.value);
        return true;
      }
      var err := ReconcileWorkload(x);
      if err.Some? {
        var _ := ReportPhase(x, Error, "workload" + ": " + Describe(err.value));
        return true;
      }
      var r := ReportReady(x);
      retry := r.Err?;
    }

    /** Reconcile of the site the read returned. Whatever the calls do and whatever others do between
        them, it is the step machine: the same calls in the same order, the same final state of both
        servers, the same request for a retry. Left alone with the stored version of a live site it
        leaves the site settled: for certain if no call fails, and under any failures if it asks for
        no retry and kept no Secret that is gone. */
    method Reconcile(read: Answer<Site>) returns (retry: bool)
      requires forall i: nat :: NonEmpty(servers.oracle(i).random)
      modifies servers
      ensures read.Ok? ==> old(From(Start(c, read.value))) == (servers.w, Stopped(retry), servers.calls)
      ensures read.Err? ==> servers.w == old(servers.w) && (retry <==> read.error != NotFound)
      ensures read.Ok? && Current(old(servers.w), read.value) && LeftAlone(servers.others) ==>
                var w, n, o := old(servers.w), read.value.name, Shifted(servers.oracle, old(servers.calls));
                && (Calm(o) && (read.value.spec.suspend || UsableNames(read.value)) ==> !retry)
                && (!retry && Truthful(w, n, ReadBy(w, n, o)) ==>
                      (Settled(c, servers.w, n) <==> read.value.spec.suspend || KeptIsStored(w, n, ReadBy(w, n, o))))
    {
      if read.Ok? && Current(servers.w, read.value) && LeftAlone(servers.others) {
        AloneSettles(c, servers.w, read.value.name, servers.oracle, servers.others, servers.calls);
      }
      if read.Err? { return read.error != NotFound; }
      var x := new SiteObject(read.value);
      if x.site.deleting {
        retry := ReconcileDelete(x);
        return;
      }
      var r := EnsureFinalizer(x);
      if r.Err? { return true; }
      if x.site.spec.suspend {
        retry := ReconcileSuspended(x);
      } else {
        retry := ReconcileActive(x);
      }
    }
  }
}
