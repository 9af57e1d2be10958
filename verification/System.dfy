/** The whole system: one reconcile at most in flight per site, any number of administrators'
    read-modify-write requests, deletions, the garbage collector, failures and crashes, in any order. */
module System {
  import opened Api
  import opened Edits
  import opened Mysql
  import opened Operator
  import opened Store
  import opened Wrappers

  /** Bookkeeping per site name. `versions` holds every version ever stored under the name;
      `cursor` is the resource version the operator's last read returned; `origin` and `log`
      are what the site was created with and the edits committed since, in commit order. */
  datatype Ctl = Ctl(pc: Pc, cursor: nat, versions: set<Site>, origin: Content, log: seq<Edit>)

  /** The operator's cache of a site's Secret: all that was ever seen under its name, and the store's
      revision its last read showed. */
  datatype SecretCache = SecretCache(past: set<Sighting>, cursor: nat)

  datatype System = System(w: World, ctl: map<string, Ctl>, caches: map<string, SecretCache>)

  function CacheOf(s: System, n: string): SecretCache {
    if n in s.caches then s.caches[n] else SecretCache({Sighting(0, None)}, 0)
  }

  /** One move of one site's actors. The operator reads through caches that lag but never go back: a
      reconcile may begin with any version at least as new as its last read of the site, and may see
      its Secret as it was at any time since its last read of it. A request may commit from any
      version ever stored. */
  datatype Action =
    | Begin(read: Site)
    | Act(tick: Tick)
    | Crash
    | Create(namespace: string, content: Content)
    | Commit(copy: Site, edit: Edit)
    | Delete
    | CollectTheSecret
    | CollectAChild(kind: Kind)

  datatype Move = Move(name: string, action: Action)

  /** The bookkeeping after a move: a new stored version is recorded. */
  function Seen(w: World, n: string, t: Ctl): Ctl {
    if n in w.sites then t.(versions := t.versions + {w.sites[n]}) else t
  }

  /** What is under the Secret's name after a move is recorded too. */
  function Noted(w: World, n: string, h: SecretCache): SecretCache {
    h.(past := h.past + {Sighting(w.revision, SecretOf(w, n))})
  }

  function With(w: World, s: System, n: string, t: Ctl): System {
    System(w, s.ctl[n := Seen(w, n, t)], s.caches[n := Noted(w, n, CacheOf(s, n))])
  }

  /** The cache can show this when the Secret is read. */
  predicate Readable(h: SecretCache, v: View) {
    v.Cached? ==> v.sighting in h.past && h.cursor <= v.sighting.at
  }

  predicate Possible(s: System, n: string, k: Tick)
    requires n in s.ctl
  {
    s.ctl[n].pc.GetSecret? ==> Readable(CacheOf(s, n), k.view)
  }

  function AfterRead(s: System, n: string, k: Tick): SecretCache
    requires n in s.ctl
  {
    if s.ctl[n].pc.GetSecret? && k.outcome.Done?
    then CacheOf(s, n).(cursor := if k.view.Fresh? then s.w.revision else k.view.sighting.at)
    else CacheOf(s, n)
  }

  function DoBegin(c: Config, s: System, n: string, read: Site): System
    requires n in s.ctl
  {
    var t := s.ctl[n];
    if t.pc.Stopped? && read in t.versions && t.cursor <= read.resourceVersion
    then With(s.w, s, n, t.(pc := Start(c, read), cursor := read.resourceVersion))
    else s
  }

  function DoAct(c: Config, s: System, n: string, k: Tick): System
    requires n in s.ctl
  {
    var r := Effect(c, s.w, s.ctl[n].pc, k);
    With(r.0, s.(caches := s.caches[n := AfterRead(s, n, k)]), n, s.ctl[n].(pc := r.1))
  }

  function DoCreate(s: System, n: string, namespace: string, x: Content): System
    requires n in s.ctl
  {
    if n in s.w.sites then s
    else With(CreateSite(s.w, namespace, n, x.spec, x.annotations), s, n, s.ctl[n].(origin := x, log := []))
  }

  function DoCommit(s: System, n: string, copy: Site, e: Edit): System
    requires n in s.ctl
  {
    var r := UpdateSite(s.w, EditedCopy(copy, e));
    if copy in s.ctl[n].versions && Accepted(e) && r.1.Ok?
    then With(r.0, s, n, s.ctl[n].(log := s.ctl[n].log + [e]))
    else s
  }

  function Step(c: Config, s: System, m: Move): System {
    if m.name !in s.ctl then s
    else
      match m.action
      case Begin(read) => DoBegin(c, s, m.name, read)
      case Act(k) => if Possible(s, m.name, k) then DoAct(c, s, m.name, k) else s
      case Crash => With(s.w, s, m.name, s.ctl[m.name].(pc := Stopped(true)))
      case Create(namespace, x) => DoCreate(s, m.name, namespace, x)
      case Commit(copy, e) => DoCommit(s, m.name, copy, e)
      case Delete => With(DeleteSite(s.w, m.name), s, m.name, s.ctl[m.name])
      case CollectTheSecret =>
        With(CollectSecret(s.w, m.name, SecretKey(m.name)), s, m.name, s.ctl[m.name])
      case CollectAChild(kind) =>
        With(CollectChild(s.w, m.name, ChildKey(m.name, kind)), s, m.name, s.ctl[m.name])
  }

  function Run(c: Config, s: System, moves: seq<Move>): System {
    if moves == [] then s else Step(c, Run(c, s, moves[..|moves| - 1]), moves[|moves| - 1])
  }

  lemma {:induction false} RunAppend(c: Config, s: System, a: seq<Move>, b: seq<Move>)
    ensures Run(c, s, a + b) == Run(c, Run(c, s, a), b)
    decreases |b|
  {
    if b == [] {
      assert a + b == a;
    } else {
      assert (a + b)[..|a + b| - 1] == a + b[..|b| - 1];
      RunAppend(c, s, a, b[..|b| - 1]);
    }
  }

  /** The states one run goes through, from nothing stored. */
  ghost predicate History(c: Config, names: set<string>, moves: seq<Move>, states: seq<System>) {
    && |states| == |moves| + 1 && states[0] == Init(names)
    && forall i :: 0 <= i < |moves| ==> Leads(c, states, moves[i], i)
  }

  predicate Leads(c: Config, states: seq<System>, m: Move, i: nat) {
    i + 1 < |states| && states[i + 1] == Step(c, states[i], m)
  }

  /** These moves, from nothing stored, lead to this state. */
  ghost predicate Reaches(c: Config, names: set<string>, moves: seq<Move>, s: System) {
    exists states :: History(c, names, moves, states) && states[|moves|] == s
  }

  lemma {:induction false} ReachesIsRun(c: Config, names: set<string>, moves: seq<Move>, s: System)
    ensures Reaches(c, names, moves, s) <==> s == Run(c, Init(names), moves)
  {
    var states := RunHistory(c, names, moves);
    if Reaches(c, names, moves, s) {
      var other :| History(c, names, moves, other) && other[|moves|] == s;
      HistoryIsRun(c, names, moves, other);
    }
  }

  lemma {:induction false} RunHistory(c: Config, names: set<string>, moves: seq<Move>) returns (states: seq<System>)
    ensures History(c, names, moves, states) && states[|moves|] == Run(c, Init(names), moves)
  {
    if moves == [] {
      states := [Init(names)];
    } else {
      var before := moves[..|moves| - 1];
      var earlier := RunHistory(c, names, before);
      assert forall i :: 0 <= i < |before| ==> Leads(c, earlier, before[i], i);
      states := earlier + [Run(c, Init(names), moves)];
    }
  }

  lemma {:induction false} HistoryIsRun(c: Config, names: set<string>, moves: seq<Move>, states: seq<System>)
    requires History(c, names, moves, states)
    ensures states[|moves|] == Run(c, Init(names), moves)
  {
    if moves != [] {
      HistoryIsRun(c, names, moves[..|moves| - 1], states[..|moves|]);
      assert Leads(c, states, moves[|moves| - 1], |moves| - 1);
    }
  }

  const NO_SPEC := Spec("", [], "", None, map[], StorageSpec("", ""), DatabaseSpec("", "", ""),
                        TLSSpec(false, "", ""), "", map[], [], "", "", "", None, false)

  /** Nothing stored, an empty MySQL server, and the given site names in use. */
  function Init(names: set<string>): System {
    System(World(map[], map[], map[], EMPTY_SERVER, 1),
           map n | n in names :: Ctl(Stopped(false), 0, {}, Content(NO_SPEC, map[]), []), map[])
  }

  // ---- What one site sees ----

  function SiteOf(w: World, n: string): Option<Site> { Lookup(w.sites, n) }

  function SecretOf(w: World, n: string): Option<SecretObject> { Lookup(w.secrets, SecretKey(n)) }

  function ChildOf(w: World, n: string, kind: Kind): Option<Owned<Child>> { Lookup(w.children, ChildKey(n, kind)) }

  /** Two systems look the same to one site as far as the API server goes. */
  ghost predicate SameObjects(s: System, s': System, n: string) {
    && n in s.ctl && n in s'.ctl && s.ctl[n] == s'.ctl[n] && CacheOf(s, n) == CacheOf(s', n)
    && SiteOf(s.w, n) == SiteOf(s'.w, n)
    && SecretOf(s.w, n) == SecretOf(s'.w, n)
    && forall kind :: ChildOf(s.w, n, kind) == ChildOf(s'.w, n, kind)
  }
}
