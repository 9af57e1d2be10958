/** The stored spec and annotations are exactly the committed edits, in commit order: no write of
    the reconciler and no stale request ever reverts one. */
module NoLostUpdates {
  import opened Api
  import opened BaseSafety
  import opened Edits
  import opened Isolation
  import opened Operator
  import opened Store
  import opened System
  import opened Versions

  function ContentOf(s: Site): Content { Content(s.spec, s.annotations) }

  ghost predicate EditsKept(s: System, n: string) {
    n in s.ctl && (n in s.w.sites ==> ContentOf(s.w.sites[n]) == Fold(s.ctl[n].origin, s.ctl[n].log))
  }

  /** A copy with the stored resource version is the stored version. */
  ghost predicate Faithful(w: World, copy: Site) {
    copy.name in w.sites && w.sites[copy.name].resourceVersion == copy.resourceVersion ==> w.sites[copy.name] == copy
  }

  ghost predicate KeepsContent(w: World, w': World, n: string) {
    n in w'.sites ==> n in w.sites && ContentOf(w'.sites[n]) == ContentOf(w.sites[n])
  }

  lemma FinalizersKeepContent(w: World, copy: Site, finalizers: set<string>, o: Outcome)
    requires Faithful(w, copy)
    ensures KeepsContent(w, Respond(w, UpdateSite(w, copy.(finalizers := finalizers)), o).0, copy.name)
  { }

  lemma StatusKeepsContent(w: World, copy: Site, o: Outcome)
    ensures KeepsContent(w, Respond(w, UpdateStatus(w, copy), o).0, copy.name)
  { }

  /** No effect of a reconcile changes the stored content of its site. */
  lemma EffectKeepsContent(c: Config, s: System, n: string, k: Tick)
    requires BaseAt(s, n)
    ensures KeepsContent(s.w, Effect(c, s.w, s.ctl[n].pc, k).0, n)
  {
    var pc := s.ctl[n].pc;
    if !pc.Stopped? && n in s.w.sites { assert Ordered(pc.site, s.w.sites[n]); }
    match pc
    case Stopped(_) =>
    case AddFinalizer(l) => FinalizersKeepContent(s.w, l, l.finalizers + {FINALIZER}, k.outcome);
    case WriteStatus(l, phase, message) =>
      StatusKeepsContent(s.w, l.(status := StatusFor(l, phase, message, k.now)), k.outcome);
    case RemoveFinalizer(l) => FinalizersKeepContent(s.w, l, l.finalizers - {FINALIZER}, k.outcome);
    case _ => QuietEffect(c, s.w, pc, k);
  }

  lemma {:induction false} FoldIsAdmitted(x: Content, log: seq<Edit>)
    ensures Kept(Fold(x, log)) == Fold(x, log)
  { }

  /** An accepted write of an edited copy of the stored version stores the edited content, admitted. */
  lemma EditIsStored(w: World, copy: Site, e: Edit)
    requires copy.name in w.sites && w.sites[copy.name] == copy && Admitted(copy.spec) == copy.spec
    ensures var w' := UpdateSite(w, EditedCopy(copy, e)).0;
            copy.name in w'.sites ==> ContentOf(w'.sites[copy.name]) == Kept(Edited(ContentOf(copy), e))
  { }

  lemma FoldOnce(x: Content, log: seq<Edit>, e: Edit)
    ensures Fold(x, log + [e]) == Kept(Edited(Fold(x, log), e))
  {
    assert (log + [e])[..|log|] == log;
  }

  /** A commit does nothing, or writes the edited copy of the stored version and enters the log. */
  lemma CommitCases(s: System, n: string, copy: Site, e: Edit, s': System)
    requires BaseAt(s, n) && s' == DoCommit(s, n, copy, e)
    ensures s' == s || (&& n in s.w.sites && s.w.sites[n] == copy && copy.name == n
                        && s'.w == UpdateSite(s.w, EditedCopy(copy, e)).0 && n in s'.ctl
                        && s'.ctl[n].origin == s.ctl[n].origin && s'.ctl[n].log == s.ctl[n].log + [e])
  {
    if copy in s.ctl[n].versions && n in s.w.sites { assert Ordered(copy, s.w.sites[n]); }
  }

  lemma CommitKeepsEdits(s: System, n: string, copy: Site, e: Edit, s': System)
    requires BaseAt(s, n) && EditsKept(s, n) && s' == DoCommit(s, n, copy, e)
    ensures EditsKept(s', n)
  {
    var t := s.ctl[n];
    CommitCases(s, n, copy, e, s');
    if s' != s {
      FoldIsAdmitted(t.origin, t.log);
      FoldOnce(t.origin, t.log, e);
      EditIsStored(s.w, copy, e);
    }
  }

  lemma OthersKeepContent(c: Config, s: System, n: string, a: Action)
    requires n in s.ctl && !a.Act? && !a.Commit?
    ensures var w' := Step(c, s, Move(n, a)).w;
            KeepsContent(s.w, w', n) || (a.Create? && n in w'.sites && ContentOf(w'.sites[n]) == Kept(a.content))
  { }

  lemma OthersKeepEdits(c: Config, s: System, n: string, a: Action)
    requires BaseAt(s, n) && EditsKept(s, n) && !a.Act? && !a.Commit?
    ensures EditsKept(Step(c, s, Move(n, a)), n)
  {
    OthersKeepContent(c, s, n, a);
  }

  lemma StepKeepsEdits(c: Config, s: System, m: Move, n: string)
    requires AllBase(s) && EditsKept(s, n)
    ensures EditsKept(Step(c, s, m), n)
  {
    if m.name != n {
      StepIsOwn(c, s, m, n);
    } else {
      match m.action
      case Act(k) => EffectKeepsContent(c, s, n, k);
      case Commit(copy, e) => CommitKeepsEdits(s, n, copy, e, Step(c, s, m));
      case _ => OthersKeepEdits(c, s, n, m.action);
    }
  }

  /** In every reachable state the stored spec has its defaults filled in, so that writing it back as it
      was read stores it as it was read. */
  lemma StoredIsAdmitted(c: Config, names: set<string>, moves: seq<Move>, s: System, n: string)
    requires n in names && Reaches(c, names, moves, s) && n in s.w.sites
    ensures Admitted(s.w.sites[n].spec) == s.w.sites[n].spec
    ensures forall spec :: ToStore(s.w.sites[n], spec) == Admitted(spec)
  {
    ReachesIsRun(c, names, moves, s);
    NoLostUpdate(c, names, moves, n);
    FoldIsAdmitted(s.ctl[n].origin, s.ctl[n].log);
  }

  /** In every run, from an empty cluster, of any actors on any sites. */
  lemma {:induction false} NoLostUpdate(c: Config, names: set<string>, moves: seq<Move>, n: string)
    requires n in names
    ensures var s := Run(c, Init(names), moves);
            && n in s.ctl
            && (n in s.w.sites ==> ContentOf(s.w.sites[n]) == Fold(s.ctl[n].origin, s.ctl[n].log))
  {
    if moves != [] {
      var before := moves[..|moves| - 1];
      NoLostUpdate(c, names, before, n);
      RunKeepsBase(c, names, before);
      StepKeepsEdits(c, Run(c, Init(names), before), moves[|moves| - 1], n);
    }
  }
}
