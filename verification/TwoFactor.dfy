/** Administrator two-factor authentication kept in a Secret (internal/apiserver/twofa.go).
    Whether a code is valid for a secret is a parameter: the one-time-password algorithm is a library's. */
module TwoFactor {
  import opened Wrappers

  const SECRET := "secret"
  const ENABLED := "enabled"
  const PENDING := "pending"

  type Data = map<string, string>

  datatype Object = Object(version: nat, data: Data)

  /** Valid(code, secret) at the moment of the request. */
  type Check = (string, string) -> bool

  datatype Request =
    | Setup(newKey: string)
    | Enable(code: string, valid: Check)
    | Disable(code: string, valid: Check)

  function Read(data: Data, key: string): string { if key in data then data[key] else "" }

  function DataOf(o: Option<Object>): Data { if o.Some? then o.value.data else map[] }

  /** What a request writes after loading `o`; None when it writes nothing. */
  function Write(o: Option<Object>, r: Request): Option<Data> {
    match r
    case Setup(newKey) => Some(DataOf(o)[PENDING := newKey])
    case Enable(code, valid) =>
      var pending := Read(DataOf(o), PENDING);
      if o.None? || pending == "" || !valid(code, pending) then None
      else Some(map[SECRET := pending, ENABLED := "true"])
    case Disable(code, valid) =>
      var secret := Read(DataOf(o), SECRET);
      if o.None? || secret == "" || !valid(code, secret) then None
      else Some(map[ENABLED := "false"])
  }

  /** save creates when nothing was loaded, else it updates the loaded version. */
  predicate Saves(stored: Option<Object>, loaded: Option<Object>) {
    if loaded.None? then stored.None? else stored.Some? && stored.value.version == loaded.value.version
  }

  function Save(stored: Option<Object>, loaded: Option<Object>, data: Data, revision: nat): Option<Object> {
    if Saves(stored, loaded) then Some(Object(revision, data)) else stored
  }

  predicate IsEnabled(o: Option<Object>) { Read(DataOf(o), ENABLED) == "true" && Read(DataOf(o), SECRET) != "" }

  /** There is a non-empty value under the key, and the code is valid for it. */
  predicate Holds(o: Option<Object>, key: string) { o.Some? && key in o.value.data && o.value.data[key] != "" }

  predicate Proves(o: Option<Object>, key: string, code: string, valid: Check) {
    Holds(o, key) && valid(code, o.value.data[key])
  }

  // ---- The requests in the form of the program ----

  class KubeTwoFA {
    var stored: Option<Object>
    var revision: nat

    constructor ()
      ensures stored == None && revision == 1
    {
      stored, revision := None, 1;
    }

    method Commit(existing: Option<Object>, data: Data) returns (ok: bool)
      modifies this
      ensures stored == Save(old(stored), existing, data, old(revision)) && revision == old(revision) + 1
      ensures ok <==> Saves(old(stored), existing)
    {
      ok := if existing.None? then stored.None?
            else stored.Some? && stored.value.version == existing.value.version;
      if ok {
        stored := Some(Object(revision, data));
      }
      revision := revision + 1;
    }

    /** A request that loaded `loaded` some time ago: the write it makes now, if any. */
    method Perform(loaded: Option<Object>, r: Request) returns (ok: bool)
      modifies this
      ensures Write(loaded, r).None? ==> stored == old(stored) && revision == old(revision)
      ensures Write(loaded, r).Some? ==>
                stored == Save(old(stored), loaded, Write(loaded, r).value, old(revision)) && revision == old(revision) + 1
      ensures ok <==> if Write(loaded, r).Some? then Saves(old(stored), loaded)
                      else r.Disable? && Read(DataOf(loaded), SECRET) == ""
      ensures r.Setup? ==> (ok <==> Saves(old(stored), loaded))
      ensures r.Enable? ==> (ok <==> Saves(old(stored), loaded) && Proves(loaded, "pending", r.code, r.valid))
      ensures r.Disable? ==> (ok <==> !Holds(loaded, "secret")
                                      || (Saves(old(stored), loaded) && Proves(loaded, "secret", r.code, r.valid)))
      ensures ok && r.Setup? ==> stored.Some? && stored.value.data == DataOf(loaded)["pending" := r.newKey]
      ensures ok && r.Enable? ==>
                stored.Some? && stored.value.data == map["secret" := loaded.value.data["pending"], "enabled" := "true"]
      ensures ok && r.Disable? && Holds(loaded, "secret") ==> stored.Some? && stored.value.data == map["enabled" := "false"]
      ensures !ok ==> stored == old(stored)
    {
      match r
      case Setup(newKey) =>
        var data: Data := map[];
        if loaded.Some? {
          data := loaded.value.data;
        }
        data := data[PENDING := newKey];
        ok := Commit(loaded, data);
      case Enable(code, valid) =>
        if loaded.None? || Read(loaded.value.data, PENDING) == "" { return false; }
        var pending := Read(loaded.value.data, PENDING);
        if !valid(code, pending) { return false; }
        ok := Commit(loaded, map[SECRET := pending, ENABLED := "true"]);
      case Disable(code, valid) =>
        if loaded.None? || Read(loaded.value.data, SECRET) == "" { return true; }
        if !valid(code, Read(loaded.value.data, SECRET)) { return false; }
        ok := Commit(loaded, map[ENABLED := "false"]);
    }

    /** The check of a login code: against the active secret. */
    method Validate(code: string, valid: Check) returns (b: bool)
      ensures b <==> stored.Some? && valid(code, Read(stored.value.data, "secret"))
      ensures IsEnabled(stored) ==> (b <==> Proves(stored, "secret", code, valid))
    {
      if stored.None? { return false; }
      b := valid(code, Read(stored.value.data, SECRET));
    }

    method Enabled() returns (b: bool)
      ensures b == IsEnabled(stored)
      ensures b <==> Holds(stored, "enabled") && stored.value.data["enabled"] == "true" && Holds(stored, "secret")
    {
      if stored.None? { return false; }
      b := Read(stored.value.data, ENABLED) == "true" && Read(stored.value.data, SECRET) != "";
    }
  }

  // ---- Any interleaving of any requests ----

  /** `versions` holds every state a request may have loaded. */
  datatype System = System(stored: Option<Object>, revision: nat, versions: set<Option<Object>>)

  datatype Move = Move(loaded: Option<Object>, request: Request)

  function Step(s: System, m: Move): System {
    var w := Write(m.loaded, m.request);
    if m.loaded !in s.versions || w.None? then s
    else
      var stored := Save(s.stored, m.loaded, w.value, s.revision);
      System(stored, s.revision + 1, s.versions + {stored})
  }

  function Run(moves: seq<Move>): System {
    if moves == [] then System(None, 1, {None}) else Step(Run(moves[..|moves| - 1]), moves[|moves| - 1])
  }

  /** What the administrator has: the secret codes are checked against, if two-factor is on, and the
      secret waiting for its first code, if any. */
  datatype Abstract = Abstract(active: Option<string>, pending: Option<string>)

  function NonEmpty(s: string): Option<string> { if s == "" then None else Some(s) }

  function Abstraction(o: Option<Object>): Abstract {
    Abstract(if IsEnabled(o) then Some(Read(DataOf(o), SECRET)) else None, NonEmpty(Read(DataOf(o), PENDING)))
  }

  /** The machine that was meant. */
  function Intended(a: Abstract, r: Request): Abstract {
    match r
    case Setup(newKey) => a.(pending := NonEmpty(newKey))
    case Enable(code, valid) =>
      if a.pending.Some? && valid(code, a.pending.value) then Abstract(a.pending, None) else a
    case Disable(code, valid) =>
      if a.active.Some? && valid(code, a.active.value) then Abstract(None, None) else a
  }

  /** Stored data is either off or on with a secret. */
  ghost predicate Coherent(data: Data) { Read(data, SECRET) != "" <==> Read(data, ENABLED) == "true" }

  ghost predicate Inv(s: System) {
    && s.stored in s.versions
    && (forall v :: v in s.versions ==> Coherent(DataOf(v)) && (v.Some? ==> v.value.version < s.revision))
    && (forall v :: v in s.versions && v.Some? && s.stored.Some? && v.value.version == s.stored.value.version ==> v == s.stored)
    && (s.stored.None? ==> s.versions == {None})
  }

  /** A request on the current state is the intended step on it, so a valid code always takes effect; a
      request on any other load leaves the stored state alone. */
  lemma StepRefines(s: System, m: Move)
    requires Inv(s)
    ensures Inv(Step(s, m))
    ensures m.loaded == s.stored ==> Abstraction(Step(s, m).stored) == Intended(Abstraction(s.stored), m.request)
    ensures m.loaded != s.stored ==> Step(s, m).stored == s.stored
  { }

  /** In every reachable state. */
  lemma FreshRequestTakesEffect(moves: seq<Move>, r: Request)
    ensures var s := Run(moves);
            Abstraction(Step(s, Move(s.stored, r)).stored) == Intended(Abstraction(s.stored), r)
  {
    RunKeepsInv(moves);
    StepRefines(Run(moves), Move(Run(moves).stored, r));
  }

  lemma {:induction false} RunKeepsInv(moves: seq<Move>)
    ensures Inv(Run(moves))
  {
    if moves != [] {
      RunKeepsInv(moves[..|moves| - 1]);
      StepRefines(Run(moves[..|moves| - 1]), moves[|moves| - 1]);
    }
  }

  /** Over every interleaving of set-ups, enablings and disablings, with arbitrarily stale loads: the
      next move changes the active secret only by enabling with a code valid for the pending secret,
      which is consumed, or by disabling with a code valid for the active one; and two-factor is on
      exactly when there is a secret to check codes against. */
  lemma TwoFactorSafety(moves: seq<Move>, m: Move)
    ensures var a, b := Abstraction(Run(moves).stored), Abstraction(Step(Run(moves), m).stored);
            && (m.request.Setup? ==> b.active == a.active)
            && (b.active != a.active ==>
                  || (m.request.Enable? && a.pending.Some? && m.request.valid(m.request.code, a.pending.value)
                      && b == Abstract(a.pending, None))
                  || (m.request.Disable? && a.active.Some? && m.request.valid(m.request.code, a.active.value)
                      && b == Abstract(None, None)))
    ensures IsEnabled(Run(moves).stored) <==> Read(DataOf(Run(moves).stored), SECRET) != ""
  {
    RunKeepsInv(moves);
    StepRefines(Run(moves), m);
  }

  /** The requests made on the state as it was then, in order. */
  function Current(moves: seq<Move>): seq<Request> {
    if moves == [] then []
    else
      var before := moves[..|moves| - 1];
      var m := moves[|moves| - 1];
      Current(before) + if m.loaded == Run(before).stored then [m.request] else []
  }

  function IntendedRun(rs: seq<Request>): Abstract {
    if rs == [] then Abstract(None, None) else Intended(IntendedRun(rs[..|rs| - 1]), rs[|rs| - 1])
  }

  /** They lead the intended machine to the stored state; requests on stale loads might not have been. */
  lemma {:induction false} RunRefines(moves: seq<Move>)
    ensures Abstraction(Run(moves).stored) == IntendedRun(Current(moves))
  {
    if moves != [] {
      var before, m := moves[..|moves| - 1], moves[|moves| - 1];
      RunRefines(before);
      RunKeepsInv(before);
      StepRefines(Run(before), m);
      var e := Current(before);
      assert (e + [m.request])[..|e|] == e;
      assert e + [] == e;
    }
  }
}
