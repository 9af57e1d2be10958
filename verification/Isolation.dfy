/** No actor of one site touches another site's API objects, in any state. */
module Isolation {
  import opened Api
  import opened Credentials
  import opened Edits
  import opened Mysql
  import opened Operator
  import opened Resources
  import opened Store
  import opened System
  import opened Versions
  import opened Wrappers

  lemma SuffixInjective(a: string, b: string, suffix: string)
    ensures a + suffix == b + suffix <==> a == b
  {
    if a + suffix == b + suffix {
      assert a == (a + suffix)[..|a|] == (b + suffix)[..|b|] == b;
    }
  }

  lemma KeysAreOwn(a: string, b: string)
    requires a != b
    ensures SecretKey(a) != SecretKey(b)
    ensures forall k, l :: ChildKey(a, k) != ChildKey(b, l)
  {
    SuffixInjective(a, b, "-wp");
    SuffixInjective(a, b, "-php");
  }

  /** The API objects of site m are the same in both worlds. */
  ghost predicate Untouched(w: World, w': World, m: string) {
    && SiteOf(w, m) == SiteOf(w', m)
    && SecretOf(w, m) == SecretOf(w', m)
    && (forall kind :: ChildOf(w, m, kind) == ChildOf(w', m, kind))
  }

  lemma SiteWritesAreOwn(w: World, copy: Site, o: Outcome, m: string)
    requires copy.name != m
    ensures Untouched(w, Respond(w, UpdateSite(w, copy), o).0, m)
    ensures w.revision <= Respond(w, UpdateSite(w, copy), o).0.revision
  { }

  lemma StatusWritesAreOwn(w: World, copy: Site, o: Outcome, m: string)
    requires copy.name != m
    ensures Untouched(w, Respond(w, UpdateStatus(w, copy), o).0, m)
    ensures w.revision <= Respond(w, UpdateStatus(w, copy), o).0.revision
  { }

  lemma SecretWriteIsOwn(w: World, site: Site, existing: Option<SecretObject>, desired: SecretData, k: Tick, m: string)
    requires site.name != m
    ensures Untouched(w, DoPutSecret(w, site, existing, desired, k).0, m)
    ensures w.revision <= DoPutSecret(w, site, existing, desired, k).0.revision
  {
    KeysAreOwn(site.name, m);
  }

  lemma PutChildIsOwn(w: World, name: string, kind: Kind, owner: nat, child: Child, m: string)
    requires name != m
    ensures Untouched(w, ApplyChild(w, ChildKey(name, kind), owner, child), m)
    ensures w.revision <= ApplyChild(w, ChildKey(name, kind), owner, child).revision
  {
    KeysAreOwn(name, m);
  }

  lemma ApplyIsOwn(c: Config, w: World, site: Site, next: nat, k: Tick, m: string)
    requires site.name != m && next < 4
    ensures Untouched(w, DoApply(c, w, site, next, k).0, m)
    ensures w.revision <= DoApply(c, w, site, next, k).0.revision
  {
    PutChildIsOwn(w, site.name, KINDS[next], site.uid, Desired(c, site, KINDS[next]), m);
  }

  lemma SqlTouchesNoObject(w: World, s: Statement, o: Outcome, m: string)
    ensures var w' := Respond(w, ExecuteSql(w, s), o).0;
            Untouched(w, w', m) && w.revision <= w'.revision
  { }

  lemma EffectIsOwn(c: Config, w: World, pc: Pc, k: Tick, m: string)
    requires InMemory(pc).Some? ==> pc.site.name != m
    ensures Untouched(w, Effect(c, w, pc, k).0, m)
    ensures w.revision <= Effect(c, w, pc, k).0.revision
  {
    match pc
    case Stopped(_) =>
    case AddFinalizer(site) =>
      SiteWritesAreOwn(w, site.(finalizers := site.finalizers + {FINALIZER}), k.outcome, m);
    case GetSecret(_) =>
    case PutSecret(site, existing, desired) => SecretWriteIsOwn(w, site, existing, desired, k, m);
    case RunSql(site, password, next) => if next < 5 { SqlTouchesNoObject(w, EnsureOf(site, password)[next], k.outcome, m); }
    case Apply(site, next) => if next < 4 { ApplyIsOwn(c, w, site, next, k, m); }
    case WriteStatus(site, phase, message) =>
      StatusWritesAreOwn(w, site.(status := StatusFor(site, phase, message, k.now)), k.outcome, m);
    case DropSql(site, next) => if next < 3 { SqlTouchesNoObject(w, DropOf(site)[next], k.outcome, m); }
    case RemoveFinalizer(site) =>
      SiteWritesAreOwn(w, site.(finalizers := site.finalizers - {FINALIZER}), k.outcome, m);
  }

  /** The requests and the collector, too, write under the names of their own site only. */
  lemma RequestIsOwn(s: System, n: string, copy: Site, e: Edit, m: string)
    requires BaseAt(s, n) && n != m
    ensures Untouched(s.w, DoCommit(s, n, copy, e).w, m) && s.w.revision <= DoCommit(s, n, copy, e).w.revision
  { }

  lemma OthersAreOwn(w: World, namespace: string, n: string, x: Content, kind: Kind, m: string)
    requires n != m
    ensures Untouched(w, CreateSite(w, namespace, n, x.spec, x.annotations), m)
    ensures Untouched(w, DeleteSite(w, n), m)
    ensures Untouched(w, CollectSecret(w, n, SecretKey(n)), m)
    ensures Untouched(w, CollectChild(w, n, ChildKey(n, kind)), m)
  {
    KeysAreOwn(n, m);
  }

  lemma StepIsLocal(c: Config, s: System, move: Move, m: string)
    requires m != move.name && m in s.ctl
    ensures var s' := Step(c, s, move);
            && m in s'.ctl && s'.ctl[m] == s.ctl[m] && CacheOf(s', m) == CacheOf(s, m)
  { }

  lemma QuietStepIsUntouched(c: Config, s: System, move: Move, m: string)
    requires m != move.name && !move.action.Act? && !move.action.Commit?
    ensures Untouched(s.w, Step(c, s, move).w, m) && s.w.revision <= Step(c, s, move).w.revision
  {
    match move.action
    case Create(namespace, x) => OthersAreOwn(s.w, namespace, move.name, x, ConfigMapKind, m);
    case CollectAChild(kind) => OthersAreOwn(s.w, "", move.name, Content(NO_SPEC, map[]), kind, m);
    case _ => OthersAreOwn(s.w, "", move.name, Content(NO_SPEC, map[]), ConfigMapKind, m);
  }

  lemma StepIsUntouched(c: Config, s: System, move: Move, m: string, w': World)
    requires m != move.name && move.name in s.ctl && BaseAt(s, move.name) && w' == Step(c, s, move).w
    ensures Untouched(s.w, w', m) && s.w.revision <= w'.revision
  {
    if move.action.Act? {
      EffectIsOwn(c, s.w, s.ctl[move.name].pc, move.action.tick, m);
    } else if move.action.Commit? {
      RequestIsOwn(s, move.name, move.action.copy, move.action.edit, m);
    } else {
      QuietStepIsUntouched(c, s, move, m);
    }
  }

  /** A move of site n leaves every other site's bookkeeping and objects as they were. */
  lemma StepIsOwn(c: Config, s: System, move: Move, m: string)
    requires m != move.name && m in s.ctl
    requires move.name in s.ctl ==> BaseAt(s, move.name)
    ensures SameObjects(s, Step(c, s, move), m) && s.w.revision <= Step(c, s, move).w.revision
  {
    if move.name in s.ctl {
      StepIsLocal(c, s, move, m);
      StepIsUntouched(c, s, move, m, Step(c, s, move).w);
    }
  }
}
