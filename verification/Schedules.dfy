/** A whole reconcile as a schedule of the system, and the runs in which Ready is not honest: a site
    created again adopts the Secret of its predecessor. */
module Schedules {
  import opened Api
  import opened BaseSafety
  import opened Convergence
  import opened Credentials
  import opened Edits
  import opened Honesty
  import opened Keyring
  import opened Names
  import opened Operator
  import opened Recovery
  import opened Retry
  import opened Store
  import opened System
  import opened Wrappers

  function ActMoves(c: Config, w: World, pc: Pc, n: string, o: Oracle, i: nat): seq<Move>
    decreases Rank(pc)
  {
    if pc.Stopped? then []
    else
      EffectAdvances(c, w, pc, o(i));
      var r := Effect(c, w, pc, o(i));
      [Move(n, Act(o(i)))] + ActMoves(c, r.0, r.1, n, o, i + 1)
  }

  lemma RunOne(c: Config, s: System, m: Move)
    ensures Run(c, s, [m]) == Step(c, s, m)
  { }

  /** Every read of the Secret sees the same. */
  ghost predicate Sees(o: Oracle, v: View) { forall i: nat :: o(i).view == v }

  lemma ActStaysReadable(c: Config, s: System, n: string, k: Tick)
    requires n in s.ctl && Readable(CacheOf(s, n), k.view)
    ensures Readable(CacheOf(DoAct(c, s, n, k), n), k.view)
  { }

  /** Driving a reconcile to its end is running its effects one after the other in the system. */
  lemma {:induction false} DriveIsRun(c: Config, s: System, n: string, o: Oracle, v: View, i: nat)
    requires n in s.ctl && Sees(o, v) && Readable(CacheOf(s, n), v)
    ensures var s' := Run(c, s, ActMoves(c, s.w, s.ctl[n].pc, n, o, i));
            && n in s'.ctl && (s'.w, s'.ctl[n].pc) == (Drive(c, s.w, s.ctl[n].pc, o, i).0, Drive(c, s.w, s.ctl[n].pc, o, i).1)
            && s'.ctl[n].cursor == s.ctl[n].cursor
    decreases Rank(s.ctl[n].pc)
  {
    var pc := s.ctl[n].pc;
    if !pc.Stopped? {
      EffectAdvances(c, s.w, pc, o(i));
      var m := Move(n, Act(o(i)));
      ActStaysReadable(c, s, n, o(i));
      var s1 := Step(c, s, m);
      var rest := ActMoves(c, s1.w, s1.ctl[n].pc, n, o, i + 1);
      RunOne(c, s, m);
      RunAppend(c, s, [m], rest);
      DriveIsRun(c, s1, n, o, v, i + 1);
      DriveOne(c, s.w, pc, o, i, s1.w, s1.ctl[n].pc);
    }
  }

  /** The operator is idle on site n and may read the stored version. */
  ghost predicate Idle(s: System, n: string) {
    && AllBase(s) && n in s.ctl && s.ctl[n].pc.Stopped?
    && n in s.w.sites && s.ctl[n].cursor <= s.w.sites[n].resourceVersion
  }

  /** Only a reconcile of site n goes on. */
  ghost predicate Reconciling(n: string, moves: seq<Move>) {
    forall m :: m in moves ==> m.name == n && (m.action.Begin? || m.action.Act?)
  }

  lemma {:induction false} ActMovesAct(c: Config, w: World, pc: Pc, n: string, o: Oracle, i: nat)
    ensures Reconciling(n, ActMoves(c, w, pc, n, o, i))
    decreases Rank(pc)
  {
    if !pc.Stopped? {
      EffectAdvances(c, w, pc, o(i));
      var r := Effect(c, w, pc, o(i));
      ActMovesAct(c, r.0, r.1, n, o, i + 1);
    }
  }

  /** A whole reconcile that reads the stored version, and of the Secret whatever its cache may show, is
      a run of the system. */
  lemma ReconcileIsRun(c: Config, s: System, n: string, o: Oracle, v: View) returns (moves: seq<Move>)
    requires Idle(s, n) && Sees(o, v) && Readable(CacheOf(s, n), v)
    ensures var s' := Run(c, s, moves);
            && s'.w == Reconciled(c, s.w, n, o) && AllBase(s') && s'.ctl.Keys == s.ctl.Keys
            && s'.ctl[n].pc.Stopped?
    ensures Reconciling(n, moves)
  {
    var begin := Move(n, Begin(s.w.sites[n]));
    var s1 := Step(c, s, begin);
    var acts := ActMoves(c, s1.w, s1.ctl[n].pc, n, o, 0);
    moves := [begin] + acts;
    RunOne(c, s, begin);
    RunAppend(c, s, [begin], acts);
    assert Readable(CacheOf(s1, n), v);
    DriveIsRun(c, s1, n, o, v, 0);
    DriveStops(c, s.w, Start(c, s.w.sites[n]), o, 0);
    RunKeepsAllBase(c, s, moves);
    ActMovesAct(c, s1.w, s1.ctl[n].pc, n, o, 0);
  }

  lemma {:induction false} DriveStops(c: Config, w: World, pc: Pc, o: Oracle, i: nat)
    ensures Drive(c, w, pc, o, i).1.Stopped?
    decreases Rank(pc)
  {
    if !pc.Stopped? {
      EffectAdvances(c, w, pc, o(i));
      var r := Effect(c, w, pc, o(i));
      DriveOne(c, w, pc, o, i, r.0, r.1);
      DriveStops(c, r.0, r.1, o, i + 1);
    }
  }

  // ---- Adopted Secrets ----

  /** From here, a reconcile that reads a complete Secret of another incarnation goes on to a state in
      which the site is Ready and up to date, but cannot log in with a Secret of its own, unless one with
      the very same password is stored already; if none of its own is stored, it has no Secret at all.
      This is what the hypothesis of HonestReady excludes. */
  lemma AdoptionIsFatal(c: Config, s: System, n: string, o: Oracle, v: View) returns (moves: seq<Move>, s': System)
    requires Idle(s, n) && Faultless(o) && Sees(o, v) && Readable(CacheOf(s, n), v)
    requires Live(s.w, n) && !s.w.sites[n].spec.suspend && UsableNames(s.w.sites[n])
    requires Foreign(SecretRead(s.w, SecretKey(n), v), s.w.sites[n])
    ensures s' == Run(c, s, moves) && forall m :: m in moves ==> !m.action.Create?
    ensures n in s'.w.sites && UpToDate(s'.w.sites[n])
    ensures Vouched(s'.w, n) <==> KeptIsOwn(s.w, n, SecretRead(s.w, SecretKey(n), v))
    ensures !OwnsSome(s.w, n) ==> SecretOf(s'.w, n).None?
  {
    moves, s' := ReconcileAndCollect(c, s, n, o, v);
    KeepingLeads(c, s.w, n, SecretRead(s.w, SecretKey(n), v).value, o);
  }

  lemma ReconcileAndCollect(c: Config, s: System, n: string, o: Oracle, v: View) returns (moves: seq<Move>, s': System)
    requires Idle(s, n) && Sees(o, v) && Readable(CacheOf(s, n), v)
    ensures s' == Run(c, s, moves) && forall m :: m in moves ==> !m.action.Create?
    ensures s'.w == CollectSecret(Reconciled(c, s.w, n, o), n, SecretKey(n))
  {
    var acts := ReconcileIsRun(c, s, n, o, v);
    moves := acts + [Move(n, CollectTheSecret)];
    RunAppend(c, s, acts, [Move(n, CollectTheSecret)]);
    s' := CollectedOnce(c, Run(c, s, acts), n);
  }

  /** A Secret, complete or not, is stored as this incarnation's own. */
  predicate OwnsSome(w: World, n: string) {
    n in w.sites && SecretOf(w, n).Some? && SecretOf(w, n).value.owner == w.sites[n].uid
  }

  lemma CollectTakes(w: World, n: string)
    requires n in w.sites && !OwnsSome(w, n)
    ensures var w' := CollectSecret(w, n, SecretKey(n)); w'.sites == w.sites && SecretOf(w', n).None?
  { }

  lemma KeepingLeads(c: Config, w: World, n: string, x: SecretObject, o: Oracle)
    requires Faultless(o) && Live(w, n) && !w.sites[n].spec.suspend && UsableNames(w.sites[n])
    requires ReadBy(w, n, o) == Some(x) && Complete(x.data)
    ensures var w' := CollectSecret(Reconciled(c, w, n, o), n, SecretKey(n));
            && n in w'.sites && UpToDate(w'.sites[n])
            && (Vouched(w', n) <==> KeptIsOwn(w, n, Some(x)))
            && (!OwnsSome(w, n) ==> SecretOf(w', n).None?)
  {
    KeptIsVouchedIff(c, w, n, x, o);
    RecoverKeeping(c, w, n, x, o);
    if !OwnsSome(w, n) { CollectTakes(Reconciled(c, w, n, o), n); }
  }

  predicate UsableContent(n: string, x: Content) {
    ValidIdent(DatabaseNameFor(n, x.spec.database)) && ValidIdent(DatabaseUserFor(n, x.spec.database))
  }

  lemma CollectedOnce(c: Config, s: System, n: string) returns (s': System)
    requires AllBase(s) && n in s.ctl
    ensures s' == Run(c, s, [Move(n, CollectTheSecret)]) && s'.w == CollectSecret(s.w, n, SecretKey(n))
    ensures AllBase(s') && n in s'.ctl && s'.ctl[n].pc == s.ctl[n].pc
    ensures CacheOf(s, n).past <= CacheOf(s', n).past && CacheOf(s, n).cursor == CacheOf(s', n).cursor
  {
    s' := Step(c, s, Move(n, CollectTheSecret));
    StepKeepsBase(c, s, Move(n, CollectTheSecret));
    RunOne(c, s, Move(n, CollectTheSecret));
  }

  /** A fresh site of the given content, next to whatever is stored. */
  lemma CreatedAfresh(c: Config, s: System, n: string, namespace: string, x: Content) returns (s': System)
    requires !x.spec.suspend && UsableContent(n, x) && AllBase(s) && n in s.ctl && n !in s.w.sites && s.ctl[n].pc.Stopped?
    ensures s' == Run(c, s, [Move(n, Create(namespace, x))])
    ensures Idle(s', n) && Live(s'.w, n) && s'.w.sites[n].uid == s.w.revision && s'.w.sites[n].spec == Admitted(x.spec)
    ensures !s'.w.sites[n].spec.suspend && UsableNames(s'.w.sites[n])
    ensures s'.w.secrets == s.w.secrets && s'.w.mysql == s.w.mysql && s'.ctl.Keys == s.ctl.Keys
    ensures CacheOf(s, n).past <= CacheOf(s', n).past && CacheOf(s, n).cursor == CacheOf(s', n).cursor
  {
    s' := Step(c, s, Move(n, Create(namespace, x)));
    RunKeepsAllBase(c, s, [Move(n, Create(namespace, x))]);
    RunOne(c, s, Move(n, Create(namespace, x)));
  }

  /** Create, reconcile: the site is Ready and owns a complete Secret. */
  lemma FirstLife(c: Config, n: string, namespace: string, x: Content, o: Oracle) returns (moves: seq<Move>)
    requires Calm(o) && !x.spec.suspend && UsableContent(n, x)
    ensures var s := Run(c, Init({n}), moves);
            && AllBase(s) && n in s.ctl && s.ctl[n].pc.Stopped? && Live(s.w, n) && SecretComplete(s.w, n)
            && FINALIZER in s.w.sites[n].finalizers && UsableNames(s.w.sites[n])
            && s.w.sites[n].spec == Admitted(x.spec)
  {
    var create := [Move(n, Create(namespace, x))];
    var s1 := CreatedAfresh(c, Init({n}), n, namespace, x);
    assert Sees(o, Fresh);
    var acts := ReconcileIsRun(c, s1, n, o, Fresh);
    moves := create + acts;
    RunAppend(c, Init({n}), create, acts);
    Recover(c, s1.w, n, o);
  }

  lemma DeleteMarks(c: Config, s: System, n: string) returns (s': System)
    requires AllBase(s) && n in s.ctl && s.ctl[n].pc.Stopped? && Live(s.w, n) && s.w.sites[n].finalizers != {}
    ensures s' == Run(c, s, [Move(n, Delete)])
    ensures Idle(s', n) && s'.w.sites[n] == s.w.sites[n].(deleting := true, resourceVersion := s.w.revision)
    ensures s'.w.secrets == s.w.secrets
  {
    s' := Step(c, s, Move(n, Delete));
    RunKeepsAllBase(c, s, [Move(n, Delete)]);
    RunOne(c, s, Move(n, Delete));
  }

  /** Delete and reconcile: the site is gone, its Secret is not collected yet. */
  lemma FirstDeath(c: Config, s: System, n: string, o: Oracle) returns (moves: seq<Move>)
    requires Calm(o) && AllBase(s) && n in s.ctl && s.ctl[n].pc.Stopped? && Live(s.w, n) && UsableNames(s.w.sites[n])
    requires FINALIZER in s.w.sites[n].finalizers
    ensures var s' := Run(c, s, moves);
            && AllBase(s') && n in s'.ctl && s'.ctl[n].pc.Stopped? && n !in s'.w.sites
            && s'.w.secrets == s.w.secrets
  {
    var s1 := DeleteMarks(c, s, n);
    assert s.w.sites[n] in s.ctl[n].versions;
    assert s1.w.sites[n].finalizers == {FINALIZER};
    assert Sees(o, Fresh);
    var acts := ReconcileIsRun(c, s1, n, o, Fresh);
    moves := [Move(n, Delete)] + acts;
    RunAppend(c, s, [Move(n, Delete)], acts);
    RecoverDeletion(c, s1.w, n, o);
  }

  /** A site lived and died; its complete Secret is still there, and so it is in the operator's cache. */
  ghost predicate Bereft(s: System, n: string, v: Sighting) {
    && AllBase(s) && n in s.ctl && s.ctl[n].pc.Stopped? && n !in s.w.sites && SecretComplete(s.w, n)
    && SecretOf(s.w, n).value.owner < s.w.revision
    && v.secret == SecretOf(s.w, n) && Readable(CacheOf(s, n), Cached(v))
  }

  lemma LifeAndDeath(c: Config, n: string, namespace: string, x: Content, o: Oracle)
      returns (moves: seq<Move>, v: Sighting)
    requires Calm(o) && !x.spec.suspend && UsableContent(n, x)
    ensures Bereft(Run(c, Init({n}), moves), n, v)
  {
    var life := FirstLife(c, n, namespace, x, o);
    var death := FirstDeath(c, Run(c, Init({n}), life), n, o);
    moves := life + death;
    RunAppend(c, Init({n}), life, death);
    var s := Run(c, Init({n}), moves);
    RunHolds(c, {n}, moves, n);
    var u :| u in CacheOf(s, n).past && CacheOf(s, n).cursor <= u.at && u.secret == SecretOf(s.w, n);
    v := u;
  }

  /** A site created again before its predecessor's Secret is collected can be Ready for its current
      generation without any Secret, with nothing but fresh reads. */
  lemma RecreatedTooSoon(c: Config, n: string, namespace: string, x: Content, o: Oracle) returns (moves: seq<Move>, s: System)
    requires Calm(o) && !x.spec.suspend && UsableContent(n, x)
    ensures Reaches(c, {n}, moves, s) && n in s.w.sites && UpToDate(s.w.sites[n]) && SecretOf(s.w, n).None?
  {
    var before, v := LifeAndDeath(c, n, namespace, x, o);
    var s1 := Run(c, Init({n}), before);
    var create := [Move(n, Create(namespace, x))];
    var s2 := CreatedAfresh(c, s1, n, namespace, x);
    assert Sees(o, Fresh);
    var after, _ := AdoptionIsFatal(c, s2, n, o, Fresh);
    moves := before + create + after;
    RunThree(c, Init({n}), before, create, after);
    s := Run(c, Init({n}), moves);
    ReachesIsRun(c, {n}, moves, s);
  }

  lemma CollectBereaves(c: Config, s: System, n: string, v: Sighting) returns (s': System)
    requires Bereft(s, n, v)
    ensures s' == Run(c, s, [Move(n, CollectTheSecret)])
    ensures AllBase(s') && n in s'.ctl && s'.ctl[n].pc.Stopped? && n !in s'.w.sites && SecretOf(s'.w, n).None?
    ensures Readable(CacheOf(s', n), Cached(v)) && SecretOf(s.w, n).value.owner < s'.w.revision
  {
    s' := CollectedOnce(c, s, n);
    OrphanGoes(s.w, n);
  }

  lemma OrphanGoes(w: World, n: string)
    requires n !in w.sites
    ensures var w' := CollectSecret(w, n, SecretKey(n));
            SecretOf(w', n).None? && w'.sites == w.sites && w'.revision == w.revision + 1
  { }

  /** The same oracle with a cache that shows one earlier sighting. */
  function Lagging(o: Oracle, v: Sighting): Oracle { (i: nat) => o(i).(view := Cached(v)) }

  /** So can a site created only after that Secret is collected, when the operator's cache of Secrets
      lags behind: `before` ends without a Secret, then the site is created once. */
  lemma CacheLagsBehind(c: Config, n: string, namespace: string, x: Content, o: Oracle)
      returns (before: seq<Move>, after: seq<Move>, s: System)
    requires Calm(o) && !x.spec.suspend && UsableContent(n, x)
    ensures Reaches(c, {n}, before + [Move(n, Create(namespace, x))] + after, s)
    ensures SecretOf(Run(c, Init({n}), before).w, n).None? && forall m :: m in after ==> !m.action.Create?
    ensures n in s.w.sites && UpToDate(s.w.sites[n]) && SecretOf(s.w, n).None?
  {
    var early, v := LifeAndDeath(c, n, namespace, x, o);
    var s0 := Run(c, Init({n}), early);
    var s1 := CollectBereaves(c, s0, n, v);
    before := early + [Move(n, CollectTheSecret)];
    RunAppend(c, Init({n}), early, [Move(n, CollectTheSecret)]);
    var s2 := CreatedAfresh(c, s1, n, namespace, x);
    assert Sees(Lagging(o, v), Cached(v));
    var s3;
    after, s3 := AdoptionIsFatal(c, s2, n, Lagging(o, v), Cached(v));
    var create := [Move(n, Create(namespace, x))];
    RunThree(c, Init({n}), before, create, after);
    s := Run(c, Init({n}), before + create + after);
    ReachesIsRun(c, {n}, before + create + after, s);
  }

  lemma RunThree(c: Config, s: System, a: seq<Move>, b: seq<Move>, d: seq<Move>)
    ensures Run(c, s, a + b + d) == Run(c, Run(c, Run(c, s, a), b), d)
  {
    RunAppend(c, s, a, b);
    RunAppend(c, s, a + b, d);
  }
}
