/** Credentials of a site never change while its Secret exists. */
module Keyring {
  import opened Api
  import opened BaseSafety
  import opened Credentials
  import opened Edits
  import opened Isolation
  import opened Operator
  import opened Store
  import opened System
  import opened Versions
  import opened Wrappers

  ghost predicate Keeps(a: SecretData, b: SecretData) {
    forall k :: Present(a, k) ==> Present(b, k) && b[k] == a[k]
  }

  /** An object once seen under the Secret's name. If its version is the stored one, so is it; and a
      complete one of the stored incarnation's own is still there. */
  ghost predicate Genuine(w: World, n: string, x: SecretObject) {
    && x.version < w.revision && x.owner < w.revision
    && (SecretOf(w, n).Some? && SecretOf(w, n).value.version == x.version ==> SecretOf(w, n).value == x)
    && (Complete(x.data) && n in w.sites && w.sites[n].uid == x.owner ==> SecretOf(w, n) == Some(x))
  }

  ghost predicate AllGenuine(w: World, n: string, past: set<Sighting>) {
    forall v :: v in past && v.secret.Some? ==> Genuine(w, n, v.secret.value)
  }

  /** The cache lags but can catch up: it may always show what is there now. */
  ghost predicate CatchesUp(w: World, n: string, h: SecretCache) {
    && h.cursor <= w.revision && (forall v :: v in h.past ==> v.at <= w.revision)
    && exists v :: v in h.past && h.cursor <= v.at && v.secret == SecretOf(w, n)
  }

  /** A pending Secret write only adds to an incomplete version it read. */
  ghost predicate Pending(w: World, n: string, pc: Pc) {
    pc.PutSecret? && pc.existing.Some? ==>
      var e := pc.existing.value;
      Genuine(w, n, e) && !Complete(e.data) && Keeps(e.data, pc.desired)
  }

  ghost predicate Held(s: System, n: string) {
    && n in s.ctl && Pending(s.w, n, s.ctl[n].pc)
    && AllGenuine(s.w, n, CacheOf(s, n).past)
    && CatchesUp(s.w, n, CacheOf(s, n))
  }

  ghost predicate SecretKept(w: World, w': World, n: string) {
    SecretOf(w, n).Some? && SecretOf(w', n).Some? ==> Keeps(SecretOf(w, n).value.data, SecretOf(w', n).value.data)
  }

  // ---- How a Secret changes ----

  ghost predicate SameSecret(w: World, w': World, n: string) { SecretOf(w', n) == SecretOf(w, n) }

  /** Collected: it was not the stored incarnation's own. */
  ghost predicate Collected(w: World, w': World, n: string) {
    SecretOf(w', n).None? && !(n in w.sites && SecretOf(w, n).Some? && SecretOf(w, n).value.owner == w.sites[n].uid)
  }

  /** Written: there was none, or an incomplete one whose credentials are kept. */
  ghost predicate Written(w: World, w': World, n: string) {
    && SecretOf(w', n).Some? && SecretOf(w', n).value.version == w.revision < w'.revision
    && SecretOf(w', n).value.owner < w'.revision
    && (SecretOf(w, n).Some? ==> !Complete(SecretOf(w, n).value.data) && SecretKept(w, w', n))
  }

  /** The stored incarnation stays, disappears, or is a new one. */
  ghost predicate Incarnations(w: World, w': World, n: string) {
    n in w'.sites ==> (n in w.sites && w'.sites[n].uid == w.sites[n].uid) || w'.sites[n].uid >= w.revision
  }

  ghost predicate Evolves(w: World, w': World, n: string) {
    && w.revision <= w'.revision && Incarnations(w, w', n)
    && (SameSecret(w, w', n) || Collected(w, w', n) || Written(w, w', n))
  }

  lemma GenuineStays(w: World, w': World, n: string, x: SecretObject)
    requires Genuine(w, n, x) && Evolves(w, w', n)
    ensures Genuine(w', n, x)
  { }

  lemma NowGenuine(w: World, w': World, n: string, past: set<Sighting>)
    requires AllGenuine(w, n, past) && Evolves(w, w', n)
    requires exists v :: v in past && v.secret == SecretOf(w, n)
    ensures AllGenuine(w', n, past + {Sighting(w'.revision, SecretOf(w', n))})
  {
    forall v | v in past && v.secret.Some? ensures Genuine(w', n, v.secret.value) {
      GenuineStays(w, w', n, v.secret.value);
    }
  }

  lemma HeldMoves(s: System, w': World, n: string, t: Ctl, h: SecretCache)
    requires Held(s, n) && Evolves(s.w, w', n) && Pending(w', n, t.pc)
    requires h.past == CacheOf(s, n).past && h.cursor <= s.w.revision
    ensures Held(With(w', s.(caches := s.caches[n := h]), n, t), n)
  {
    NowGenuine(s.w, w', n, h.past);
    assert Sighting(w'.revision, SecretOf(w', n)) in Noted(w', n, h).past;
  }

  // ---- The effects ----

  lemma PutEvolves(w: World, site: Site, existing: Option<SecretObject>, desired: SecretData, k: Tick)
    requires Pending(w, site.name, PutSecret(site, existing, desired)) && site.uid < w.revision
    ensures Evolves(w, DoPutSecret(w, site, existing, desired, k).0, site.name)
    ensures !DoPutSecret(w, site, existing, desired, k).1.PutSecret?
  { }

  /** The Secrets stay, every site keeps its incarnation, and no Secret write becomes pending. */
  ghost predicate NoSecretWork(w: World, r: (World, Pc)) {
    && r.0.secrets == w.secrets && w.revision <= r.0.revision && !r.1.PutSecret?
    && forall n :: Incarnations(w, r.0, n)
  }

  lemma FinalizersKeepSecrets(w: World, l: Site, k: Tick)
    ensures NoSecretWork(w, DoAddFinalizer(w, l, k))
  { }

  lemma ReleaseKeepsSecrets(w: World, l: Site, k: Tick)
    ensures NoSecretWork(w, DoRemoveFinalizer(w, l, k))
  { }

  lemma ReportKeepsSecrets(w: World, l: Site, phase: Phase, message: string, k: Tick)
    ensures NoSecretWork(w, DoWriteStatus(w, l, phase, message, k))
  { }

  lemma SqlKeepsSecrets(w: World, l: Site, password: string, next: nat, k: Tick)
    ensures next < 5 ==> NoSecretWork(w, DoRunSql(w, l, password, next, k))
    ensures next < 3 ==> NoSecretWork(w, DoDropSql(w, l, next, k))
  { }

  lemma ApplyKeepsSecrets(c: Config, w: World, l: Site, next: nat, k: Tick)
    requires next < 4
    ensures NoSecretWork(w, DoApply(c, w, l, next, k))
  {
    QuietApply(c, w, l, next, k);
  }

  lemma OtherEffectsKeepSecrets(c: Config, w: World, pc: Pc, k: Tick)
    requires !pc.PutSecret? && !pc.GetSecret?
    ensures NoSecretWork(w, Effect(c, w, pc, k))
  {
    match pc
    case Stopped(_) =>
    case AddFinalizer(l) => FinalizersKeepSecrets(w, l, k);
    case RunSql(l, password, next) => SqlKeepsSecrets(w, l, password, next, k);
    case Apply(l, next) => if next < 4 { ApplyKeepsSecrets(c, w, l, next, k); }
    case WriteStatus(l, phase, message) => ReportKeepsSecrets(w, l, phase, message, k);
    case DropSql(l, next) => SqlKeepsSecrets(w, l, "", next, k);
    case RemoveFinalizer(l) => ReleaseKeepsSecrets(w, l, k);
  }

  /** What a read may see is genuine. */
  lemma ReadIsGenuine(s: System, n: string, v: View)
    requires Held(s, n) && Readable(CacheOf(s, n), v)
    ensures var x := SecretRead(s.w, SecretKey(n), v);
            x.Some? ==> Genuine(s.w, n, x.value)
  { }

  lemma GetIsPending(w: World, n: string, site: Site, k: Tick)
    requires site.name == n
    requires var x := SecretRead(w, SecretKey(n), k.view);
             x.Some? ==> Genuine(w, n, x.value)
    ensures var r := DoGetSecret(w, site, k);
            Pending(r.0, n, r.1) && Evolves(w, r.0, n)
  { }

  lemma ActHolds(c: Config, s: System, n: string, k: Tick)
    requires BaseAt(s, n) && Held(s, n) && Possible(s, n, k)
    ensures Held(DoAct(c, s, n, k), n) && Evolves(s.w, DoAct(c, s, n, k).w, n)
  {
    var t := s.ctl[n];
    var r := Effect(c, s.w, t.pc, k);
    if t.pc.PutSecret? {
      PutEvolves(s.w, t.pc.site, t.pc.existing, t.pc.desired, k);
    } else if t.pc.GetSecret? {
      ReadIsGenuine(s, n, k.view);
      GetIsPending(s.w, n, t.pc.site, k);
    } else {
      OtherEffectsKeepSecrets(c, s.w, t.pc, k);
      assert Incarnations(s.w, r.0, n);
    }
    HeldMoves(s, r.0, n, t.(pc := r.1), AfterRead(s, n, k));
  }

  // ---- The other moves ----

  lemma CollectEvolves(w: World, n: string)
    ensures Evolves(w, CollectSecret(w, n, SecretKey(n)), n)
  { }

  lemma RequestEvolves(s: System, n: string, copy: Site, e: Edit)
    requires BaseAt(s, n)
    ensures Evolves(s.w, DoCommit(s, n, copy, e).w, n)
  { }

  lemma PendingStays(w: World, w': World, n: string, pc: Pc)
    requires Pending(w, n, pc) && Evolves(w, w', n)
    ensures Pending(w', n, pc)
  {
    if pc.PutSecret? && pc.existing.Some? { GenuineStays(w, w', n, pc.existing.value); }
  }

  lemma OtherMoveEvolves(c: Config, s: System, n: string, a: Action)
    requires BaseAt(s, n) && !a.Act?
    ensures Evolves(s.w, Step(c, s, Move(n, a)).w, n)
    ensures var pc' := Step(c, s, Move(n, a)).ctl[n].pc; pc' == s.ctl[n].pc || !pc'.PutSecret?
  {
    match a
    case Commit(copy, e) => RequestEvolves(s, n, copy, e);
    case CollectTheSecret => CollectEvolves(s.w, n);
    case _ =>
  }

  lemma HeldFrame(s: System, s': System, n: string)
    requires Held(s, n) && n in s'.ctl && SecretOf(s'.w, n) == SecretOf(s.w, n) && SiteOf(s'.w, n) == SiteOf(s.w, n)
    requires s.w.revision <= s'.w.revision && s'.ctl[n].pc == s.ctl[n].pc && CacheOf(s', n) == CacheOf(s, n)
    ensures Held(s', n)
  {
    assert Evolves(s.w, s'.w, n);
    forall v | v in CacheOf(s, n).past && v.secret.Some? ensures Genuine(s'.w, n, v.secret.value) {
      GenuineStays(s.w, s'.w, n, v.secret.value);
    }
    PendingStays(s.w, s'.w, n, s.ctl[n].pc);
  }

  lemma OtherMoveHolds(c: Config, s: System, n: string, a: Action, s': System)
    requires BaseAt(s, n) && Held(s, n) && !a.Act? && s' == Step(c, s, Move(n, a))
    ensures Held(s', n)
  {
    OtherMoveEvolves(c, s, n, a);
    PendingStays(s.w, s'.w, n, s.ctl[n].pc);
    if s' != s {
      HeldMoves(s, s'.w, n, s'.ctl[n], CacheOf(s, n));
      assert SecretCache(CacheOf(s, n).past, CacheOf(s, n).cursor) == CacheOf(s, n);
    }
  }

  /** A move of any site keeps the credentials of every site. */
  lemma StepHolds(c: Config, s: System, m: Move, n: string)
    requires AllBase(s) && Held(s, n)
    ensures Held(Step(c, s, m), n) && SecretKept(s.w, Step(c, s, m).w, n)
  {
    if m.name != n {
      StepIsOwn(c, s, m, n);
      HeldFrame(s, Step(c, s, m), n);
    } else if m.action.Act? {
      if Possible(s, n, m.action.tick) { ActHolds(c, s, n, m.action.tick); }
    } else {
      OtherMoveEvolves(c, s, n, m.action);
      OtherMoveHolds(c, s, n, m.action, Step(c, s, m));
    }
  }

  lemma {:induction false} RunKeepsHeld(c: Config, s: System, moves: seq<Move>, n: string)
    requires AllBase(s) && Held(s, n)
    ensures Held(Run(c, s, moves), n)
  {
    if moves != [] {
      RunKeepsHeld(c, s, moves[..|moves| - 1], n);
      RunKeepsAllBase(c, s, moves[..|moves| - 1]);
      StepHolds(c, Run(c, s, moves[..|moves| - 1]), moves[|moves| - 1], n);
    }
  }

  lemma RunHolds(c: Config, names: set<string>, moves: seq<Move>, n: string)
    requires n in names
    ensures Held(Run(c, Init(names), moves), n)
  {
    InitIsBase(names);
    RunKeepsHeld(c, Init(names), moves, n);
  }

  function SecretAfter(c: Config, names: set<string>, moves: seq<Move>, n: string): Option<SecretObject> {
    SecretOf(Run(c, Init(names), moves).w, n)
  }

  /** Over any stretch of any run during which the Secret exists, every credential that was there
      at its start is still there, unchanged, at its end. */
  lemma {:induction false} CredentialStability(c: Config, names: set<string>, moves: seq<Move>, from: nat, n: string)
    requires n in names && from <= |moves|
    requires forall i :: from <= i <= |moves| ==> SecretAfter(c, names, moves[..i], n).Some?
    ensures SecretAfter(c, names, moves, n).Some?
    ensures Keeps(SecretAfter(c, names, moves[..from], n).value.data, SecretAfter(c, names, moves, n).value.data)
    decreases |moves|
  {
    assert moves[..|moves|] == moves;
    if from < |moves| {
      var before := moves[..|moves| - 1];
      assert forall i :: 0 <= i <= |before| ==> before[..i] == moves[..i];
      CredentialStability(c, names, before, from, n);
      RunKeepsBase(c, names, before);
      RunHolds(c, names, before, n);
      StepHolds(c, Run(c, Init(names), before), moves[|moves| - 1], n);
    }
  }
}
