/** Reconcile as a step machine: between two effects on a server, everything the running
    reconcile remembers is in its program counter (internal/controller/wordpresssite_controller.go). */
module Operator {
  import opened Api
  import opened Conditions
  import opened Credentials
  import opened Mysql
  import opened Names
  import opened Resources
  import opened Store
  import opened Wrappers

  /** What becomes of a call: it takes effect and answers, it is refused, or it takes effect
      and the answer is lost. */
  datatype Outcome = Done | Refused(reason: string) | Lost(reason: string)

  /** What a read of the Secret sees: the store as it is, or what a cache still holds. */
  datatype View = Fresh | Cached(sighting: Sighting)

  /** The environment of one effect: outcome, clock, random values should any be drawn, and what
      the cache shows should the Secret be read. */
  datatype Tick = Tick(outcome: Outcome, now: int, random: Passwords, view: View)

  /** Where a reconcile stands. `site` is its in-memory copy; `Stopped(retry)` tells whether the
      work queue is asked to come back (an error, or RequeueAfter). */
  datatype Pc =
    | Stopped(retry: bool)
    | AddFinalizer(site: Site)
    | GetSecret(site: Site)
    | PutSecret(site: Site, existing: Option<SecretObject>, desired: SecretData)
    | RunSql(site: Site, password: string, next: nat)
    | Apply(site: Site, next: nat)
    | WriteStatus(site: Site, phase: Phase, message: string)
    | DropSql(site: Site, next: nat)
    | RemoveFinalizer(site: Site)

  const KINDS := [ConfigMapKind, DeploymentKind, ServiceKind, IngressKind]

  function SecretKey(name: string): string { name + "-wp" }

  function ChildKey(name: string, kind: Kind): Key { Key(kind, ChildName(name, kind)) }

  function AccountOf(site: Site): Account { Account(DatabaseUser(site), DatabaseHost(site)) }

  function EnsureOf(site: Site, password: string): seq<Statement> {
    EnsureStatements(DatabaseName(site), AccountOf(site), password)
  }

  function DropOf(site: Site): seq<Statement> { DropStatements(DatabaseName(site), AccountOf(site)) }

  function Password(data: SecretData): string { if DB_PASSWORD_KEY in data then data[DB_PASSWORD_KEY] else "" }

  predicate UsableNames(site: Site) { ValidIdent(DatabaseName(site)) && ValidIdent(DatabaseUser(site)) }

  function Describe(f: Failure): string {
    match f
    case NotFound => "not found"
    case Conflict => "conflict"
    case AlreadyExists => "already exists"
    case SqlError => "sql"
    case Unavailable(reason) => reason
  }

  function Respond<T>(w: World, done: (World, Answer<T>), o: Outcome): (World, Answer<T>) {
    match o
    case Done => done
    case Refused(reason) => (Tock(w), Err(Unavailable(reason)))
    case Lost(reason) => (done.0, Err(Unavailable(reason)))
  }

  /** Reconcile after its first read. */
  function Start(c: Config, site: Site): Pc {
    if site.deleting then
      if FINALIZER !in site.finalizers then Stopped(false)
      else if c.dropDataOnDelete then (if UsableNames(site) then DropSql(site, 0) else Stopped(true))
      else RemoveFinalizer(site)
    else if FINALIZER !in site.finalizers then AddFinalizer(site)
    else Proceed(site)
  }

  function Proceed(site: Site): Pc { if site.spec.suspend then Apply(site, 0) else GetSecret(site) }

  function Fail(site: Site, stage: string, f: Failure): Pc {
    WriteStatus(site, Error, stage + ": " + Describe(f))
  }

  function NoDatabase(site: Site, reason: string): Pc {
    WriteStatus(site, Provisioning, "Waiting for MySQL: " + reason)
  }

  /** EnsureDatabase validates both names before it sends anything. */
  function Provision(site: Site, password: string): Pc {
    if UsableNames(site) then RunSql(site, password, 0) else NoDatabase(site, "invalid identifier")
  }

  function Report(site: Site): Pc {
    if site.spec.suspend then WriteStatus(site, Suspended, "Site suspended")
    else WriteStatus(site, Ready, "Site reconciled")
  }

  /** The status a reconcile writes for a phase: a Ready report fills in the summary fields. */
  function StatusFor(site: Site, phase: Phase, message: string, now: int): Status {
    var base := if phase == Ready then
                  site.status.(databaseName := DatabaseName(site), databaseUser := DatabaseUser(site),
                               secretName := SecretName(site), url := URL(site),
                               observedGeneration := site.generation)
                else site.status;
    WithPhase(base, site.generation, phase, message, now)
  }

  function DoAddFinalizer(w: World, site: Site, k: Tick): (World, Pc) {
    var r := Respond(w, UpdateSite(w, site.(finalizers := site.finalizers + {FINALIZER})), k.outcome);
    (r.0, if r.1.Ok? then Proceed(r.1.value) else Stopped(true))
  }

  function SecretRead(w: World, name: string, v: View): Option<SecretObject> {
    match v
    case Fresh => Lookup(w.secrets, name)
    case Cached(sighting) => sighting.secret
  }

  function DoGetSecret(w: World, site: Site, k: Tick): (World, Pc) {
    (Tock(w),
     if !k.outcome.Done? then Fail(site, "secret", Unavailable(k.outcome.reason))
     else
       var existing := SecretRead(w, SecretKey(site.name), k.view);
       var desired := Filled(if existing.Some? then existing.value.data else map[], k.random);
       if existing.Some? && existing.value.data == desired then Provision(site, Password(desired))
       else PutSecret(site, existing, desired))
  }

  function DoPutSecret(w: World, site: Site, existing: Option<SecretObject>, desired: SecretData, k: Tick): (World, Pc) {
    var name := SecretKey(site.name);
    var done := if existing.None? then CreateSecret(w, name, site.uid, desired)
                else UpdateSecret(w, name, existing.value.version, site.uid, desired);
    var r := Respond(w, done, k.outcome);
    (r.0, if r.1.Err? then Fail(site, "secret", r.1.error)
          else Provision(site, Password(desired)))
  }

  function DoRunSql(w: World, site: Site, password: string, next: nat, k: Tick): (World, Pc)
    requires next < 5
  {
    var r := Respond(w, ExecuteSql(w, EnsureOf(site, password)[next]), k.outcome);
    (r.0, if r.1.Err? then NoDatabase(site, Describe(r.1.error))
          else if next + 1 < 5 then RunSql(site, password, next + 1)
          else Apply(site, 0))
  }

  function DoApply(c: Config, w: World, site: Site, next: nat, k: Tick): (World, Pc)
    requires next < 4
  {
    var applied := ApplyChild(w, ChildKey(site.name, KINDS[next]), site.uid, Desired(c, site, KINDS[next]));
    var r := Respond<()>(w, (applied, Ok(())), k.outcome);
    (r.0, if r.1.Err? then (if site.spec.suspend then Stopped(true) else Fail(site, "workload", r.1.error))
          else if next + 1 < 4 then Apply(site, next + 1)
          else Report(site))
  }

  function DoWriteStatus(w: World, site: Site, phase: Phase, message: string, k: Tick): (World, Pc) {
    var r := Respond(w, UpdateStatus(w, site.(status := StatusFor(site, phase, message, k.now))), k.outcome);
    (r.0, Stopped(phase in {Error, Provisioning} || r.1.Err?))
  }

  function DoDropSql(w: World, site: Site, next: nat, k: Tick): (World, Pc)
    requires next < 3
  {
    var r := Respond(w, ExecuteSql(w, DropOf(site)[next]), k.outcome);
    (r.0, if r.1.Err? then Stopped(true)
          else if next + 1 < 3 then DropSql(site, next + 1)
          else RemoveFinalizer(site))
  }

  function DoRemoveFinalizer(w: World, site: Site, k: Tick): (World, Pc) {
    var r := Respond(w, UpdateSite(w, site.(finalizers := site.finalizers - {FINALIZER})), k.outcome);
    (r.0, Stopped(r.1.Err?))
  }

  /** The next effect of a reconcile and where it goes from there. */
  function Effect(c: Config, w: World, pc: Pc, k: Tick): (World, Pc) {
    match pc
    case Stopped(_) => (w, pc)
    case AddFinalizer(site) => DoAddFinalizer(w, site, k)
    case GetSecret(site) => DoGetSecret(w, site, k)
    case PutSecret(site, existing, desired) => DoPutSecret(w, site, existing, desired, k)
    case RunSql(site, password, next) => if next < 5 then DoRunSql(w, site, password, next, k) else (w, Stopped(true))
    case Apply(site, next) => if next < 4 then DoApply(c, w, site, next, k) else (w, Stopped(true))
    case WriteStatus(site, phase, message) => DoWriteStatus(w, site, phase, message, k)
    case DropSql(site, next) => if next < 3 then DoDropSql(w, site, next, k) else (w, Stopped(true))
    case RemoveFinalizer(site) => DoRemoveFinalizer(w, site, k)
  }
}
