/** What holds of one site's versions and of the reconcile in flight for it, in every reachable
    state, however stale the operator's and the administrators' reads are. */
module Versions {
  import opened Api
  import opened Operator
  import opened System
  import opened Wrappers

  /** Two versions of one name, the first no newer than the second. */
  ghost predicate Ordered(u: Site, v: Site) {
    u.resourceVersion <= v.resourceVersion ==>
      && u.uid <= v.uid
      && (u.resourceVersion == v.resourceVersion ==> u == v)
      && (u.uid < v.uid ==> u.resourceVersion < v.uid)
      && (u.uid == v.uid ==> SameIncarnation(u, v))
  }

  ghost predicate SameIncarnation(u: Site, v: Site) {
    && u.namespace == v.namespace
    && u.generation <= v.generation
    && (u.generation == v.generation ==> u.spec == v.spec)
    && (u.deleting ==> v.deleting)
    && u.finalizers <= v.finalizers
  }

  ghost predicate Lineage(n: string, versions: set<Site>, revision: nat) {
    && (forall v :: v in versions ==> v.name == n && v.uid <= v.resourceVersion < revision && v.finalizers <= {FINALIZER})
    && (forall u, v :: u in versions && v in versions ==> Ordered(u, v))
  }

  /** The stored site is the newest version; it stays only as long as it is live or has the finalizer. */
  ghost predicate Newest(site: Option<Site>, versions: set<Site>) {
    site.Some? ==>
      && site.value in versions
      && (forall v :: v in versions ==> v.resourceVersion <= site.value.resourceVersion)
      && (site.value.deleting ==> site.value.finalizers != {})
  }

  ghost predicate Stored(site: Option<Site>, uid: nat) { site.Some? && site.value.uid == uid }

  /** Live versions with the finalizer, of incarnations that are gone, are behind the operator's reads. */
  ghost predicate GoneAreBehind(site: Option<Site>, t: Ctl) {
    forall v :: v in t.versions && !Stored(site, v.uid) && v.finalizers != {} && !v.deleting
                ==> v.resourceVersion < t.cursor
  }

  /** A site with a phase has the finalizer, one with the finalizer has been read by the operator; and
      none ever reports a generation newer than what a later read can return. */
  ghost predicate Reported(site: Option<Site>, t: Ctl) {
    site.Some? ==>
      var s := site.value;
      && (s.status.phase != Unset ==> s.finalizers != {})
      && (s.finalizers != {} ==> s.uid <= t.cursor)
      && s.status.observedGeneration <= s.generation
      && (forall v :: v in t.versions && v.uid == s.uid && t.cursor <= v.resourceVersion
                      ==> s.status.observedGeneration <= v.generation)
  }

  function InMemory(pc: Pc): Option<Site> { if pc.Stopped? then None else Some(pc.site) }

  /** The reconcile is past the finalizer, on the way to a report. */
  predicate Working(pc: Pc) { pc.GetSecret? || pc.PutSecret? || pc.RunSql? || pc.Apply? || pc.WriteStatus? }

  predicate Removing(pc: Pc) { pc.DropSql? || pc.RemoveFinalizer? }

  ghost predicate InFlight(site: Option<Site>, t: Ctl) {
    InMemory(t.pc).Some? ==>
      var l := t.pc.site;
      && l in t.versions && t.cursor <= l.resourceVersion
      && (!Working(t.pc) ==> l.resourceVersion == t.cursor)
      && (t.pc.AddFinalizer? ==> !l.deleting && FINALIZER !in l.finalizers)
      && (Removing(t.pc) ==> l.deleting && FINALIZER in l.finalizers)
      && (Working(t.pc) ==> LiveWork(site, t, l))
  }

  ghost predicate LiveWork(site: Option<Site>, t: Ctl, l: Site) {
    && Stored(site, l.uid) && FINALIZER in site.value.finalizers && FINALIZER in l.finalizers && !l.deleting
    && forall v :: v in t.versions && v.uid == l.uid && t.cursor <= v.resourceVersion ==> l.generation <= v.generation
  }

  ghost predicate Base(n: string, site: Option<Site>, t: Ctl, revision: nat) {
    && Lineage(n, t.versions, revision) && t.cursor < revision
    && Newest(site, t.versions)
    && GoneAreBehind(site, t)
    && Reported(site, t)
    && InFlight(site, t)
  }

  ghost predicate BaseAt(s: System, n: string) {
    n in s.ctl && Base(n, SiteOf(s.w, n), s.ctl[n], s.w.revision)
  }

  // ---- The ways a site's record changes ----

  lemma BaseBegin(c: Config, n: string, site: Option<Site>, t: Ctl, revision: nat, read: Site)
    requires Base(n, site, t, revision) && t.pc.Stopped? && read in t.versions && t.cursor <= read.resourceVersion
    ensures Base(n, site, t.(pc := Start(c, read), cursor := read.resourceVersion), revision)
  { }

  /** What an accepted write may do to the stored version. */
  ghost predicate Successor(s: Site, s': Site, revision: nat) {
    && s'.name == s.name && s'.uid == s.uid && s'.namespace == s.namespace
    && s'.resourceVersion == revision && s'.finalizers <= {FINALIZER} && s.finalizers <= s'.finalizers
    && (s.deleting ==> s'.deleting)
    && (s'.deleting ==> s'.finalizers != {})
    && s'.generation == if s'.spec != s.spec then s.generation + 1 else s.generation
  }

  lemma LineageExtends(n: string, s: Site, versions: set<Site>, s': Site, revision: nat)
    requires Lineage(n, versions, revision) && Newest(Some(s), versions) && Successor(s, s', revision)
    ensures Lineage(n, versions + {s'}, revision + 1) && Newest(Some(s'), versions + {s'})
  { }

  /** A write that leaves the status alone, while the reconcile in flight (if any) goes on or ends. */
  lemma BaseEdit(n: string, s: Site, t: Ctl, s': Site, revision: nat)
    requires Base(n, Some(s), t, revision) && Successor(s, s', revision)
    requires s'.status == s.status && s'.finalizers == s.finalizers
    ensures Base(n, Some(s'), t.(versions := t.versions + {s'}), revision + 1)
  {
    LineageExtends(n, s, t.versions, s', revision);
    var t' := t.(versions := t.versions + {s'});
    assert GoneAreBehind(Some(s'), t');
    assert Reported(Some(s'), t');
    if Working(t.pc) { assert Ordered(t.pc.site, s); }
    assert InFlight(Some(s'), t');
  }

  /** The finalizer write of a reconcile that just began. */
  lemma BaseFinalizer(n: string, s: Site, t: Ctl, s': Site, revision: nat)
    requires Base(n, Some(s), t, revision) && Successor(s, s', revision) && t.pc == AddFinalizer(s)
    requires s'.status == s.status && s'.finalizers == {FINALIZER} && s'.spec == s.spec && s'.deleting == s.deleting
    ensures Base(n, Some(s'), t.(versions := t.versions + {s'}, pc := Proceed(s')), revision + 1)
    ensures Base(n, Some(s'), t.(versions := t.versions + {s'}, pc := Stopped(true)), revision + 1)
  {
    LineageExtends(n, s, t.versions, s', revision);
    assert forall v :: v in t.versions ==> Ordered(s, v) && Ordered(v, s);
    var t' := t.(versions := t.versions + {s'}, pc := Proceed(s'));
    assert GoneAreBehind(Some(s'), t');
    assert Reported(Some(s'), t');
    assert InFlight(Some(s'), t');
  }

  /** The status write that ends a reconcile. */
  lemma BaseReport(n: string, s: Site, t: Ctl, s': Site, revision: nat, retry: bool)
    requires Base(n, Some(s), t, revision) && Successor(s, s', revision) && t.pc.WriteStatus? && t.pc.site == s
    requires s'.finalizers == s.finalizers && s'.spec == s.spec
    requires s'.status.observedGeneration in {s.status.observedGeneration, s.generation}
    ensures Base(n, Some(s'), t.(versions := t.versions + {s'}, pc := Stopped(retry)), revision + 1)
  { }

  lemma BaseCreate(n: string, t: Ctl, s': Site, revision: nat)
    requires Base(n, None, t, revision) && s'.name == n && s'.uid == s'.resourceVersion == revision
    requires s'.finalizers == {} && !s'.deleting && s'.status == EMPTY_STATUS
    ensures Base(n, Some(s'), t.(versions := t.versions + {s'}), revision + 1)
  { }

  /** The object disappears: deleted without a finalizer, or its finalizer removed. */
  lemma BaseGone(n: string, s: Site, t: Ctl, pc: Pc, revision: nat)
    requires Base(n, Some(s), t, revision)
    requires (s.finalizers == {} && pc == t.pc) || (t.pc == RemoveFinalizer(s) && pc.Stopped?)
    ensures Base(n, None, t.(pc := pc), revision + 1)
  { }
}
