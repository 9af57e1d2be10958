/** One fault-free reconcile repairs any state of the two servers; another one changes nothing. */
module Recovery {
  import opened Api
  import opened Convergence
  import opened Credentials
  import opened Honesty
  import opened Keyring
  import opened Mysql
  import opened Names
  import opened Operator
  import opened Resources
  import opened Store
  import opened System
  import opened Wrappers

  predicate Live(w: World, n: string) { n in w.sites && w.sites[n].name == n && !w.sites[n].deleting }

  /** The number of the effect that reads the Secret, and what it sees. */
  function ReadIndex(s: Site): nat { if FINALIZER in s.finalizers then 0 else 1 }

  function ReadBy(w: World, n: string, o: Oracle): Option<SecretObject>
    requires n in w.sites
  {
    SecretRead(w, SecretKey(n), o(ReadIndex(w.sites[n])).view)
  }

  lemma DriveStart(c: Config, w: World, n: string, o: Oracle) returns (w': World, l: Site, i: nat)
    requires Faultless(o) && Live(w, n)
    ensures n in w'.sites && w'.sites[n] == l && SameSite(w.sites[n], l) && l.finalizers == w.sites[n].finalizers + {FINALIZER}
    ensures l.status == w.sites[n].status && i == ReadIndex(w.sites[n])
    ensures w'.secrets == w.secrets && w'.children == w.children && w'.mysql == w.mysql
    ensures FINALIZER in w.sites[n].finalizers ==> w'.sites == w.sites
    ensures Drive(c, w, Start(c, w.sites[n]), o, 0) == Drive(c, w', Proceed(l), o, i)
  {
    var s := w.sites[n];
    if FINALIZER in s.finalizers {
      assert s.finalizers + {FINALIZER} == s.finalizers;
      w', l, i := w, s, 0;
    } else {
      var r := DoAddFinalizer(w, s, o(0));
      w', l, i := r.0, r.0.sites[n], 1;
      DriveOne(c, w, AddFinalizer(s), o, 0, w', Proceed(l));
    }
  }

  /** What the last two stages leave: all children and the report. */
  function ReportOf(l: Site): (Phase, string) {
    if l.spec.suspend then (Suspended, "Site suspended") else (Ready, "Site reconciled")
  }

  function Finished(c: Config, w: World, l: Site, now: int): World {
    var done := Applied(c, w, l, 0);
    PutSite(done, l.name,
            NextVersion(l, l.(status := StatusFor(l, ReportOf(l).0, ReportOf(l).1, now)), done.revision))
  }

  lemma DriveFinish(c: Config, w: World, l: Site, o: Oracle, i: nat)
    requires Faultless(o) && l.name in w.sites && w.sites[l.name] == l
    ensures Drive(c, w, Apply(l, 0), o, i) == (Finished(c, w, l, o(i + 4).now), Stopped(false), i + 5)
  {
    var end := Applied(c, w, l, 0);
    assert Shown(c, w, l, 0);
    AppliedShows(c, w, l, 0);
    DriveApply(c, w, l, 0, o, i, end, i + 4);
    DriveReport(c, end, l, ReportOf(l).0, ReportOf(l).1, o, i + 4);
  }

  /** The site shows its children and a report that would be written again unchanged. */
  ghost predicate Rested(c: Config, w: World, n: string) {
    && Live(w, n) && FINALIZER in w.sites[n].finalizers
    && var s := w.sites[n];
       && Shown(c, w, s, 4)
       && s.status.phase == ReportOf(s).0
       && (!s.spec.suspend ==> s.status.observedGeneration == s.generation && s.status.url == URL(s))
       && forall later :: StatusFor(s, ReportOf(s).0, ReportOf(s).1, later) == s.status
  }

  lemma FinishedReport(c: Config, w: World, l: Site, now: int)
    requires l.name in w.sites && w.sites[l.name] == l && !l.deleting
    ensures var w', end := Finished(c, w, l, now), Applied(c, w, l, 0);
            && Live(w', l.name) && SameSite(l, w'.sites[l.name]) && w'.sites[l.name].finalizers == l.finalizers
            && w'.sites[l.name].status == StatusFor(l, ReportOf(l).0, ReportOf(l).1, now)
            && w'.secrets == end.secrets && w'.mysql == end.mysql && w'.children == end.children
  {
    assert Shown(c, w, l, 0);
    AppliedShows(c, w, l, 0);
  }

  lemma FinishedShows(c: Config, w: World, l: Site, now: int)
    requires l.name in w.sites && w.sites[l.name] == l && !l.deleting
    ensures var w' := Finished(c, w, l, now);
            && l.name in w'.sites && Shown(c, w', w'.sites[l.name], 4)
            && w'.secrets == w.secrets && w'.mysql == w.mysql
  {
    var w', end := Finished(c, w, l, now), Applied(c, w, l, 0);
    FinishedReport(c, w, l, now);
    assert Shown(c, w, l, 0);
    AppliedShows(c, w, l, 0);
    ShownFrame(c, end, w', l, 4);
    ShownWithSpec(c, w', l, w'.sites[l.name]);
  }

  lemma ShownWithSpec(c: Config, w: World, l: Site, s: Site)
    requires Shown(c, w, l, 4) && SameSite(l, s)
    ensures Shown(c, w, s, 4)
  {
    forall kind ensures Desired(c, l, kind) == Desired(c, s, kind) { RenderingReadsSpec(c, l, s, kind); }
  }

  lemma FinishedIsRested(c: Config, w: World, l: Site, now: int)
    requires l.name in w.sites && w.sites[l.name] == l && !l.deleting && FINALIZER in l.finalizers
    ensures var w' := Finished(c, w, l, now);
            && Rested(c, w', l.name) && SameSite(l, w'.sites[l.name])
            && w'.secrets == w.secrets && w'.mysql == w.mysql
  {
    FinishedReport(c, w, l, now);
    FinishedShows(c, w, l, now);
    StatusIsStable(l, Finished(c, w, l, now).sites[l.name], ReportOf(l).0, ReportOf(l).1, now);
  }

  lemma PutSame(w: World, s: Site)
    requires s.name in w.sites && w.sites[s.name] == s && !s.deleting
    ensures SameServers(w, PutSite(w, s.name, s))
  {
    assert w.sites[s.name := s] == w.sites;
  }

  /** A rested site stays as it is through another application and report. */
  lemma FinishRested(c: Config, w: World, n: string, now: int)
    requires Rested(c, w, n)
    ensures SameServers(w, Finished(c, w, w.sites[n], now))
  {
    var s := w.sites[n];
    var done := Applied(c, w, s, 0);
    AppliedAgain(c, w, s, 0);
    assert s.(status := StatusFor(s, ReportOf(s).0, ReportOf(s).1, now)) == s;
    PutSame(done, s);
  }

  // ---- An active site ----

  /** The server after a completed EnsureDatabase for this site. */
  function Ensured(srv: Server, l: Site, password: string): Server {
    Provisioned(srv, DatabaseName(l), AccountOf(l), password)
  }

  lemma DriveDatabase(c: Config, w: World, l: Site, password: string, o: Oracle, i: nat)
      returns (w': World, j: nat)
    requires Faultless(o) && UsableNames(l)
    ensures w'.sites == w.sites && w'.secrets == w.secrets && w'.children == w.children
    ensures w'.mysql == Ensured(w.mysql, l, password)
    ensures Drive(c, w, Provision(l, password), o, i) == Drive(c, w', Apply(l, 0), o, j)
  {
    var srv := Ensured(w.mysql, l, password);
    EnsureProvisions(w.mysql, DatabaseName(l), AccountOf(l), password);
    ExecuteFromIsAll(w.mysql, EnsureOf(l, password), 0);
    assert EnsureOf(l, password)[0..] == EnsureOf(l, password);
    w', j := Advanced(w, srv, 5), i + 5;
    DriveSql(c, w, l, password, 0, o, i, srv, w', j);
  }

  /** The stages from the Secret to the report. */
  lemma DriveActive(c: Config, w: World, l: Site, o: Oracle, i: nat) returns (w': World, now: int)
    requires Faultless(o) && UsableNames(l) && l.name in w.sites && w.sites[l.name] == l
    requires SecretRead(w, SecretKey(l.name), o(i).view) == SecretOf(w, l.name)
    ensures Drive(c, w, GetSecret(l), o, i).0 == Finished(c, w', l, now)
    ensures Drive(c, w, GetSecret(l), o, i).1 == Stopped(false)
    ensures w'.sites == w.sites && w'.children == w.children
    ensures SecretComplete(w', l.name)
    ensures SecretOf(w, l.name).Some? ==> Keeps(SecretOf(w, l.name).value.data, SecretOf(w', l.name).value.data)
    ensures SecretComplete(w, l.name) ==> w'.secrets == w.secrets
    ensures !SecretComplete(w, l.name) ==> SecretOf(w', l.name).value.owner == l.uid
    ensures w'.mysql == Ensured(w.mysql, l, Password(SecretOf(w', l.name).value.data))
  {
    var w2, j := DriveSecret(c, w, l, o, i);
    var m;
    w', m := DriveDatabase(c, w2, l, Password(SecretOf(w2, l.name).value.data), o, j);
    DriveFinish(c, w', l, o, m);
    now := o(m + 4).now;
  }

  /** The same with a complete Secret that was read, stored or not. */
  lemma DriveKeeping(c: Config, w: World, l: Site, x: SecretObject, o: Oracle, i: nat) returns (w': World, now: int)
    requires Faultless(o) && UsableNames(l) && l.name in w.sites && w.sites[l.name] == l
    requires SecretRead(w, SecretKey(l.name), o(i).view) == Some(x) && Complete(x.data)
    ensures Drive(c, w, GetSecret(l), o, i).0 == Finished(c, w', l, now)
    ensures w'.sites == w.sites && w'.children == w.children && w'.secrets == w.secrets
    ensures w'.mysql == Ensured(w.mysql, l, Password(x.data))
  {
    DriveKept(c, w, l, x, o, i);
    var m;
    w', m := DriveDatabase(c, Tock(w), l, Password(x.data), o, i + 1);
    DriveFinish(c, w', l, o, m);
    now := o(m + 4).now;
  }

  /** From any state of the two servers, and whatever happened before, one fault-free reconcile of a
      live, unsuspended site that reads its stored Secret ends Ready for its current generation: its
      children are what its spec renders, its Secret has every credential and keeps those it had, and
      MySQL knows exactly its database, its user with that password and its grant on top of what it knew. */
  lemma Recover(c: Config, w: World, n: string, o: Oracle)
    requires Faultless(o) && Live(w, n) && !w.sites[n].spec.suspend && UsableNames(w.sites[n])
    requires ReadBy(w, n, o) == SecretOf(w, n)
    ensures var w' := Reconciled(c, w, n, o);
            && Rested(c, w', n) && SameSite(w.sites[n], w'.sites[n])
            && w'.sites[n].status.phase == Ready && w'.sites[n].status.observedGeneration == w.sites[n].generation
            && SecretComplete(w', n)
            && (SecretOf(w, n).Some? ==> Keeps(SecretOf(w, n).value.data, SecretOf(w', n).value.data))
            && (if SecretComplete(w, n) then w'.secrets == w.secrets
                else SecretOf(w', n).value.owner == w.sites[n].uid)
            && w'.mysql == Ensured(w.mysql, w.sites[n], Password(SecretOf(w', n).value.data))
  {
    var w1, l, i := DriveStart(c, w, n, o);
    var w2, now := DriveActive(c, w1, l, o, i);
    FinishedIsRested(c, w2, l, now);
    assert AccountOf(l) == AccountOf(w.sites[n]) && DatabaseName(l) == DatabaseName(w.sites[n]);
  }

  /** One that reads a complete Secret, stored or not, ends just so, but leaves the Secrets alone and
      gives MySQL the password that was read. */
  lemma RecoverKeeping(c: Config, w: World, n: string, x: SecretObject, o: Oracle)
    requires Faultless(o) && Live(w, n) && !w.sites[n].spec.suspend && UsableNames(w.sites[n])
    requires ReadBy(w, n, o) == Some(x) && Complete(x.data)
    ensures var w' := Reconciled(c, w, n, o);
            && Rested(c, w', n) && SameSite(w.sites[n], w'.sites[n])
            && w'.sites[n].status.phase == Ready && w'.sites[n].status.observedGeneration == w.sites[n].generation
            && w'.secrets == w.secrets && w'.mysql == Ensured(w.mysql, w.sites[n], Password(x.data))
  {
    var w1, l, i := DriveStart(c, w, n, o);
    var w2, now := DriveKeeping(c, w1, l, x, o, i);
    FinishedIsRested(c, w2, l, now);
    assert AccountOf(l) == AccountOf(w.sites[n]) && DatabaseName(l) == DatabaseName(w.sites[n]);
  }

  /** The same for a suspended site: the Deployment is scaled to zero, Secret and database are left alone. */
  lemma RecoverSuspended(c: Config, w: World, n: string, o: Oracle)
    requires Faultless(o) && Live(w, n) && w.sites[n].spec.suspend
    ensures var w' := Reconciled(c, w, n, o);
            && Rested(c, w', n) && SameSite(w.sites[n], w'.sites[n])
            && w'.sites[n].status.phase == Suspended
            && w'.secrets == w.secrets && w'.mysql == w.mysql
  {
    var w1, l, i := DriveStart(c, w, n, o);
    DriveFinish(c, w1, l, o, i);
    FinishedIsRested(c, w1, l, o(i + 4).now);
  }

  // ---- Quiescence ----

  /** Nothing is left to do for a live site. */
  ghost predicate Settled(c: Config, w: World, n: string) {
    && Rested(c, w, n)
    && var s := w.sites[n];
       !s.spec.suspend ==>
         && UsableNames(s) && SecretComplete(w, n)
         && Ensured(w.mysql, s, Password(SecretOf(w, n).value.data)) == w.mysql
  }

  lemma SettledIsQuiet(c: Config, w: World, n: string, o: Oracle)
    requires Calm(o) && Settled(c, w, n)
    ensures SameServers(w, Reconciled(c, w, n, o))
  {
    var s := w.sites[n];
    if s.spec.suspend {
      DriveFinish(c, w, s, o, 0);
      FinishRested(c, w, n, o(4).now);
    } else {
      var w2, now := DriveActive(c, w, s, o, 0);
      assert SameServers(w, w2);
      ShownFrame(c, w, w2, s, 4);
      FinishRested(c, w2, n, now);
    }
  }

  lemma EnsuredTwice(srv: Server, l: Site, s: Site, password: string)
    requires SameSite(l, s)
    ensures Ensured(Ensured(srv, l, password), s, password) == Ensured(srv, l, password)
  { }

  /** No hot loop: after one fault-free reconcile of a live site, ended Ready or Suspended, another one,
      at any later time and with any random values, leaves every stored object, the status with its
      transition time, and the MySQL server unchanged. */
  lemma Quiescence(c: Config, w: World, n: string, o: Oracle, again: Oracle)
    requires Calm(o) && Calm(again) && Live(w, n)
    requires w.sites[n].spec.suspend || UsableNames(w.sites[n])
    ensures var w' := Reconciled(c, w, n, o);
            Settled(c, w', n) && SameServers(w', Reconciled(c, w', n, again))
  {
    var w' := Reconciled(c, w, n, o);
    if w.sites[n].spec.suspend {
      RecoverSuspended(c, w, n, o);
    } else {
      Recover(c, w, n, o);
      EnsuredTwice(w.mysql, w.sites[n], w'.sites[n], Password(SecretOf(w', n).value.data));
    }
    SettledIsQuiet(c, w', n, again);
  }

  // ---- A site being deleted ----

  lemma CalmDrop(c: Config, w: World, l: Site, next: nat, k: Tick, srv: Server)
    requires k.outcome.Done? && next < 3 && Execute(w.mysql, DropOf(l)[next]) == Some(srv)
    ensures Effect(c, w, DropSql(l, next), k)
            == (Advanced(w, srv, 1), if next < 2 then DropSql(l, next + 1) else RemoveFinalizer(l))
  { }

  lemma {:induction false} DriveDrop(c: Config, w: World, l: Site, next: nat, o: Oracle, i: nat,
                                     srv: Server, end: World, j: nat)
    requires Faultless(o) && next < 3
    requires ExecuteFrom(w.mysql, DropOf(l), next) == Some(srv)
    requires end == Advanced(w, srv, 3 - next) && j == i + 3 - next
    ensures Drive(c, w, DropSql(l, next), o, i) == Drive(c, end, RemoveFinalizer(l), o, j)
    decreases 3 - next
  {
    var mid := Execute(w.mysql, DropOf(l)[next]).value;
    CalmDrop(c, w, l, next, o(i), mid);
    if next < 2 {
      DriveOne(c, w, DropSql(l, next), o, i, Advanced(w, mid, 1), DropSql(l, next + 1));
      DriveDrop(c, Advanced(w, mid, 1), l, next + 1, o, i + 1, srv, end, j);
    } else {
      DriveOne(c, w, DropSql(l, next), o, i, end, RemoveFinalizer(l));
    }
  }

  lemma DriveRelease(c: Config, w: World, l: Site, o: Oracle, i: nat)
    requires Faultless(o) && l.name in w.sites && w.sites[l.name] == l && l.deleting && FINALIZER in l.finalizers
    ensures var w' := Drive(c, w, RemoveFinalizer(l), o, i).0;
            && (l.name in w'.sites <==> l.finalizers != {FINALIZER})
            && (l.name in w'.sites ==> w'.sites[l.name].deleting && FINALIZER !in w'.sites[l.name].finalizers)
            && w'.mysql == w.mysql && w'.secrets == w.secrets && w'.children == w.children
  {
    var r := DoRemoveFinalizer(w, l, o(i));
    DriveOne(c, w, RemoveFinalizer(l), o, i, r.0, r.1);
    assert l.finalizers - {FINALIZER} == {} <==> l.finalizers == {FINALIZER};
  }

  /** A site being deleted that the operator has let go is left alone, with its data. */
  lemma ReleasedIsLeft(c: Config, w: World, n: string, o: Oracle)
    requires n in w.sites && w.sites[n].deleting && FINALIZER !in w.sites[n].finalizers
    ensures Reconciled(c, w, n, o) == w && Drive(c, w, Start(c, w.sites[n]), o, 0).1 == Stopped(false)
  { }

  /** One fault-free reconcile of a site being deleted drops its data, if data is to be dropped, and
      lets the object go; Secret and children are left to the garbage collector. */
  lemma RecoverDeletion(c: Config, w: World, n: string, o: Oracle)
    requires Faultless(o) && n in w.sites && w.sites[n].name == n && w.sites[n].deleting && FINALIZER in w.sites[n].finalizers
    requires c.dropDataOnDelete ==> UsableNames(w.sites[n])
    ensures var w', s := Reconciled(c, w, n, o), w.sites[n];
            && (n in w'.sites <==> s.finalizers != {FINALIZER})
            && (n in w'.sites ==> w'.sites[n].deleting && FINALIZER !in w'.sites[n].finalizers)
            && w'.mysql == (if c.dropDataOnDelete then Dropped(w.mysql, DatabaseName(s), AccountOf(s)) else w.mysql)
            && w'.secrets == w.secrets && w'.children == w.children
  {
    var s := w.sites[n];
    if c.dropDataOnDelete {
      var srv := Dropped(w.mysql, DatabaseName(s), AccountOf(s));
      DropDrops(w.mysql, DatabaseName(s), AccountOf(s));
      ExecuteFromIsAll(w.mysql, DropOf(s), 0);
      assert DropOf(s)[0..] == DropOf(s);
      var end := Advanced(w, srv, 3);
      DriveDrop(c, w, s, 0, o, 0, srv, end, 3);
      DriveRelease(c, end, s, o, 3);
    } else {
      DriveRelease(c, w, s, o, 0);
    }
  }
}
