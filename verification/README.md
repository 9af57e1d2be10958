# Verified model of the WordPress manager operator

The operator turns a `WordPressSite` custom resource into a Secret, a MySQL database with its own user,
and four child objects (ConfigMap, Deployment, Service, Ingress), and reports on it in the status.
Administrators edit the same resource through a REST API. This project models both on top of a versioned
object store with the documented Kubernetes rules and a shared MySQL server, and proves what the two
promise over every run: any number of sites, any interleaving, any failed, lost or crashed call, and
reads through caches that lag behind, one for the sites and one for the Secrets, but never go back.

## How it is organised

| files | what they hold |
|---|---|
| `Api`, `Wrappers` | the resource, its status, the rendered objects |
| `Names`, `Resources`, `Rendering`, `Workload` | derived names; the rendered objects; that they fit together; what runs after a reconcile, in the terms of the spec |
| `Credentials`, `Keyring` | the Secret builder; that credentials never change while the Secret exists |
| `Mysql`, `Provisioner` | literals, statement texts, the server; the statement loops |
| `Conditions` | the Ready condition and its history |
| `Edits`, `Lens`, `Handlers` | the edit form, its laws, the request handlers |
| `Store`, `Operator`, `System` | the servers, `Reconcile` as a step machine, all actors together |
| `Versions`, `BaseSafety`, `Isolation`, `NoLostUpdates` | what holds of versions in every reachable state; who may touch what |
| `Honesty`, `Tenancy`, `Trust`, `Theorems` | the invariants behind an honest report, tenancy of the MySQL server, and the main theorems |
| `Tenants` | what one tenant's MySQL user can reach, and when tenants' data is private |
| `Convergence`, `Recovery`, `Retry`, `Reports` | one whole reconcile: termination, recovery from any state, quiescence, retries, what the status says |
| `Interference`, `Schedules` | a reconcile among other actors; whole reconciles as runs; the runs in which Ready is not honest |
| `Client`, `Controller` | the servers as objects with failing calls; `Reconcile` as a program, proved to be the step machine |
| `TwoFactor`, `PostStart`, `Metrics` | two-factor secret store; the wp-config hook; usage aggregation |

`Operator.Effect` is the reconcile, one server call at a time. `Controller.Reconciler.Reconcile` is the
same reconcile written as the program is, and its contract says that it makes the machine's calls, ends in
the machine's state and asks for a retry exactly when the machine does, whatever the calls do and whatever
others do in between. `System.Step` lets every actor of every site move: reconciles begin (from any stored
version no older than the operator's last read), act (a read of the Secret shows what was there at some
time since the last one), crash; administrators create, delete, and commit edits made on any version that
was ever stored; the garbage collector removes objects of vanished owners.

## Rules taken from the platforms

- Kubernetes: an update with a stale `resourceVersion` conflicts; the main endpoint does not write the
  status and the status endpoint writes nothing else; a changed spec starts a generation and a write that
  changes nothing bumps nothing; an object with a finalizer is only marked by a delete; Server-Side Apply
  with forced ownership is an idempotent put; the collector removes an object whose controller reference
  names an incarnation that is no longer stored. A delete is not assumed to bump the generation. A written
  spec has the defaults of the resource definition filled in.
- Caches: the operator's client reads sites and Secrets from informer caches. Each lags behind the store
  by itself and never goes back, not even when the operator restarts. The REST handlers' reads may be of
  any version ever stored.
- MySQL: section 11.1.1, "String Literals", of the MySQL 8.4 manual in the default SQL mode; dropping a
  user drops its grants, dropping a database does not; `ALTER USER` and `GRANT` fail without the user.
  The database name of a `GRANT` is a pattern, in back-quotes too: `_` matches any one character and `%`
  any number, unless a backslash precedes it (section 15.7.1.6, "GRANT Statement", with `partial_revokes`
  off, as it is by default). All grants here are of all privileges, so an account can use a database if
  any of its grants covers the name.
- A Go string is a byte sequence. `Mysql` works on bytes, and a `char` there is the byte of the same code;
  `Names` lower-cases and replaces runes, and a `char` there is a rune. Generated names are ASCII, for
  which the two agree.

## What turned out narrower than the comments say

- A grant is not scoped to only its database, as the comment of `EnsureDatabase` has it: the name is a
  pattern in which every underscore, and so every dash of a site name, matches any character. The user of
  site "a-b" can use the database of site "axb" (`Tenants.DashReachesAcross`). Data of tenants is private
  in every run exactly when no name is another's with other characters at its dashes
  (`Tenants.PrivateIff`); a grant is scoped exactly for names without underscores (`Mysql.ScopeIff`), and
  no generated name is one (`Tenants.GeneratedScope`).
- `ensureSecret` keeps a complete Secret without asking whose it is. A site created again that reads the
  Secret of its predecessor adopts it and loses it to the garbage collector while its status is Ready:
  because the site was created before the collector came (`Schedules.RecreatedTooSoon`), or because the
  operator's cache had not seen the collection (`Schedules.CacheLagsBehind`). `Theorems.HonestReady` holds
  of every site of whose present incarnation no reconcile has adopted; `Schedules.AdoptionIsFatal` says what
  any adoption leads to, and `Retry.ReadyIsVouchedIff` exactly when one reconcile's report stands.
- `updateSite` drops `spec.tls.secretName`: reading a site and writing the form back renders the same
  objects exactly when `Lens.StandardTLS` holds. A form without a table prefix comes back with the default
  one (`Lens.PutGet`, `Lens.CreateGet`).
- A user variable with a generated name does not override it under Server-Side Apply: the apply is refused
  (`Rendering.EnvIsApplicableIff`).
- Derived names are distinct only up to 28 characters (users) and 61 (databases), and dots and dashes are
  not told apart (`Names.DottedNamesCollide`). The namespace is no part of them, so same-named sites of two
  namespaces share both (`Names.NamespaceIsIgnored`).
- User and host are quoted without escaping; that is harmless exactly for values with no quote and no
  backslash but before `%` or `_` (`Mysql.RawLiteralIff`). Users are validated, the host is not.

## Model

| member | source | states |
|---|---|---|
| Theorems.HonestReady | internal/controller/wordpresssite_controller.go:67-147 | in every reachable state, for a site of whose present incarnation no reconcile has adopted another incarnation's complete Secret, Ready for the current generation means: stored children equal what the current spec renders and are owned by this incarnation, all credentials are there in a Secret of its own, and the summary is true; caches of sites and Secrets may lag, and earlier incarnations and other sites are free |
| Theorems.HonestLogin | internal/controller/wordpresssite_controller.go:101-117 | if moreover derived names are distinct and never change, such a site (unless its data is being dropped with it) has its database, its user with the Secret's password, and can use the database |
| Theorems.ContainerCanLogIn | internal/controller/wordpresssite_controller.go:101-117 | such a site's stored Deployment tells its container, unless the user overrides those variables, a server, database and user, and a Secret reference, such that the referenced value is the user's password in MySQL and the user can use that existing database |
| Theorems.ReadyIsQuiet | internal/controller/wordpresssite_controller.go:181-212 | a fault-free reconcile with fresh reads of such a site, live and Ready for its current generation, changes nothing on either server (derived names distinct and fixed) |
| Tenants.TenantGrants | internal/mysql/provisioner.go:53-88 | for sites without overrides named by dot-free labels of at most 28 characters, in every reachable state: a site's user can use a site's database exactly when its own grant is there and its name is the other's up to what stands at its dashes |
| Tenants.PrivateIff | internal/mysql/provisioner.go:53-56 | the data of such sites is private in every run exactly when no two of their names overlap in that way |
| Tenants.DashReachesAcross | internal/mysql/provisioner.go:79-79 | a run after which the user of site "a-b" can use the existing database of site "axb" |
| Tenants.TenantCovers | internal/mysql/provisioner.go:79-79 | the grant of one tenant covers the database of another exactly when their names overlap |
| Tenants.GeneratedScope | internal/resources/names.go:32-39 | the grant on any generated name also covers some other name |
| Tenants.TenantIsolation | internal/controller/wordpresssite_controller.go:101-117 | in such runs, whatever another site's actors do next, a site's objects, database, user, password and grant stay as they are |
| System.ReachesIsRun | internal/controller/wordpresssite_controller.go:67-129 | a state is reached, over the states in between, exactly when it is what the run computes |
| Theorems.NoOrphanData | internal/controller/wordpresssite_controller.go:214-235 | with data dropped on delete, every database, user and grant belongs to a site that is stored with the finalizer, across crashes, partial drops and racing deletes |
| NoLostUpdates.NoLostUpdate | internal/apiserver/handlers.go:260-285 | in every run the stored spec and annotations equal the committed edits folded in commit order over what the site was created with, each result with the defaults of admission; the reconciler's whole-object writes revert nothing |
| NoLostUpdates.StoredIsAdmitted | deploy/01-crd.yaml:40-91 | in every reachable state the stored spec has those defaults, so that writing it back as it was read stores it as it was read |
| NoLostUpdates.EffectKeepsContent | internal/controller/wordpresssite_controller.go:80-85 | no call of a reconcile changes the stored spec or annotations |
| Keyring.CredentialStability | internal/resources/secret.go:36-53 | over any stretch of any run in which the Secret exists, no reconcile, retry, crash or edit changes a non-empty credential |
| Keyring.StepHolds | internal/controller/wordpresssite_controller.go:149-179 | every move keeps present credentials, however old the read: a pending Secret write only adds to the version it read and only that version is replaced; a complete Secret of the stored incarnation's own, once seen, is still there |
| Credentials.FillKeepsAndCompletes | internal/resources/secret.go:36-53 | the built data keeps what is there, generates what is missing or empty, lacks nothing afterwards, and equals the input exactly when nothing was missing |
| Credentials.DesiredSecret | internal/resources/secret.go:36-63 | the builder with its copied map and salt loop yields the Secret's name, namespace, labels and type, and exactly the missing or empty credentials generated, the rest kept |
| Credentials.RandomPassword | internal/resources/secret.go:29-34 | a generated value is non-empty, has the length of unpadded base64 and only URL-safe characters (section 5 of RFC 4648) |
| Credentials.PasswordInjective | internal/resources/secret.go:29-34 | different random buffers give different passwords |
| Credentials.NineCredentials | internal/resources/secret.go:10-27 | the credentials are the database password and the eight keys and salts of WordPress |
| Recovery.Recover | internal/controller/wordpresssite_controller.go:87-147 | from any state of the two servers, one fault-free reconcile of a live, unsuspended site that reads its stored Secret ends Ready with the rendered children, a completed Secret that keeps what it had, and exactly its own database, user and grant added |
| Recovery.RecoverKeeping | internal/controller/wordpresssite_controller.go:169-173 | one that reads a complete Secret, stored or not, ends so too, but writes no Secret and gives MySQL the password it read |
| Recovery.RecoverSuspended | internal/controller/wordpresssite_controller.go:87-93 | a fault-free reconcile of a suspended site applies all children, reports Suspended and leaves Secret and MySQL alone |
| Recovery.RecoverDeletion | internal/controller/wordpresssite_controller.go:214-235 | a fault-free reconcile of a deleting site drops exactly its data (if configured) and lets the object go |
| Recovery.ReleasedIsLeft | internal/controller/wordpresssite_controller.go:214-216 | a deleting site without the operator's finalizer is left alone, with its data |
| Recovery.Quiescence | internal/controller/wordpresssite_controller.go:237-270 | after one fault-free reconcile ended Ready or Suspended, another at any later time changes no object, no status field or transition time, and nothing in MySQL |
| Retry.NoRetryMeansSettled | internal/controller/wordpresssite_controller.go:101-128 | under any failures, lost answers and lagging Secret reads, a reconcile of a live site that asks for no retry has left the site settled exactly when it is suspended or the complete Secret it kept, if any, is stored with the same password |
| Retry.NoRetryMeansReleased | internal/controller/wordpresssite_controller.go:214-235 | under any failures, a reconcile of a deleting site that asks for no retry has let the object go, and its database, user and grants are gone if they were to be dropped |
| Retry.ReadyIsVouchedIff | internal/controller/wordpresssite_controller.go:169-173 | an active site left Ready without retry keeps, through the next collection, a complete Secret of its own whose password MySQL has, exactly when the complete Secret the reconcile kept, if any, is stored as its own with the same password |
| Retry.ReadableIsTruthful | internal/controller/wordpresssite_controller.go:149-156 | what the cache can show in a reachable state, if of the stored version, is the stored Secret, as those two results ask |
| Retry.NoRetryIsCalm | internal/controller/wordpresssite_controller.go:254-257 | a reconcile that asks for no retry met no failure: it is call for call the fault-free one |
| Convergence.EffectAdvances | internal/controller/wordpresssite_controller.go:67-147 | every call brings a reconcile closer to its end, in at most thirteen calls |
| Convergence.DriveSecret | internal/controller/wordpresssite_controller.go:149-179 | a fault-free ensureSecret leaves all nine credentials, keeps the present ones, writes nothing when complete, and hands the stored password to the provisioner |
| Schedules.AdoptionIsFatal | internal/controller/wordpresssite_controller.go:169-173 | from every state in which a reconcile may read a complete Secret of another incarnation, a run leads to a site that is Ready and up to date, and that can log in with a Secret of its own exactly if a complete one with the same password was stored already; if none of its own was stored it has no Secret |
| Schedules.CacheLagsBehind | internal/controller/wordpresssite_controller.go:149-156 | such a run in which the site is created only when no Secret is stored, because the cache still shows the old one |
| Schedules.RecreatedTooSoon | internal/controller/wordpresssite_controller.go:169-173 | a run from an empty cluster, with fresh reads only, that ends Ready, up to date and without a Secret |
| Schedules.ReconcileIsRun | internal/controller/wordpresssite_controller.go:67-147 | a whole reconcile that reads the stored version, and of the Secret whatever the cache may show, is one of the runs of the system |
| Interference.InterleavingIsAmid | internal/controller/wordpresssite_controller.go:67-147 | every interleaving of other actors with a reconcile is that reconcile driven among the worlds it met |
| Controller.Reconciler.Reconcile | internal/controller/wordpresssite_controller.go:67-129 | the program makes the machine's calls in order, ends with both servers in the machine's state and asks for a retry exactly when it does, under any failures and interference; left alone and without failures it asks for none and leaves a live site settled, and under failures it leaves it settled whenever it asks for none and kept no Secret that is gone |
| Controller.Reconciler.EnsureSecret | internal/controller/wordpresssite_controller.go:149-179 | the same for ensureSecret: read, fill, create, replace or skip |
| Controller.Reconciler.ReconcileWorkload | internal/controller/wordpresssite_controller.go:131-147 | the same for the four applications in their order |
| Controller.Reconciler.ReconcileDelete | internal/controller/wordpresssite_controller.go:214-235 | the same for the deletion path |
| Controller.Reconciler.SetPhase | internal/controller/wordpresssite_controller.go:237-252 | the in-memory status gets the phase and one Ready condition that tells it, the summary stays, and it is sent to the status endpoint |
| Reports.ReportStores | internal/controller/wordpresssite_controller.go:237-252 | whenever a report takes effect, the stored site has the phase given and a Ready condition that is true exactly for Ready and tells phase, message and generation, as old as the last change of readiness; only a report of Ready touches url, names and observed generation, and fills them in |
| Reports.FailureIsReported | internal/controller/wordpresssite_controller.go:95-128 | over whole reconciles under any failures: a failed call of the Secret, or an application for an active site, leaves Error, one of the database leaves Provisioning, in the words of that stage, if the status write after it takes effect; a retry is asked for |
| Reports.UnusableIsReported | internal/mysql/provisioner.go:57-63 | names the provisioner refuses leave Provisioning |
| Reports.SuspendedFailureIsSilent | internal/controller/wordpresssite_controller.go:87-92 | a failed application for a suspended site is retried and leaves the status as it was |
| Reports.RestedTells | internal/controller/wordpresssite_controller.go:93-128 | a site at rest says Suspended and "Site suspended", or Ready and "Site reconciled" with its summary |
| Reports.NoRetryTells | internal/controller/wordpresssite_controller.go:87-128 | under any failures, a reconcile of a live site that asks for no retry leaves Suspended or Ready stored, as the spec has it |
| Versions.BaseBegin | internal/controller/wordpresssite_controller.go:70-85 | a reconcile that begins from any version no older than the last read keeps the version invariants |
| Versions.BaseFinalizer | internal/controller/wordpresssite_controller.go:80-85 | the finalizer write keeps them: from then on the site stays stored while the reconcile runs |
| Versions.BaseReport | internal/controller/wordpresssite_controller.go:119-128 | the status write keeps them: a report never names a generation newer than what a later read returns |
| Versions.BaseGone | internal/controller/wordpresssite_controller.go:229-233 | an object that disappears leaves no live version with the finalizer that the operator could still read |
| BaseSafety.RunKeepsBase | internal/controller/wordpresssite_controller.go:67-129 | the version invariants hold of every site in every reachable state |
| Isolation.StepIsOwn | internal/resources/names.go:58-61 | a move of one site leaves every other site's stored objects and reconcile as they were |
| Isolation.KeysAreOwn | internal/resources/names.go:58-61 | Secret and child names of two sites never coincide |
| Honesty.RenderingReadsSpec | internal/resources/deployment.go:55-188 | the rendered objects depend on name, namespace and spec only |
| Honesty.ApplyKeepsHonest | internal/controller/wordpresssite_controller.go:186-212 | an application by a reconcile in flight never spoils an honest report |
| Honesty.PutSecretKeepsHonor | internal/controller/wordpresssite_controller.go:163-178 | a Secret write happens only where no report of Ready for the current generation stands, makes the Secret the site's own, and keeps honest reports honest |
| Honesty.ReadIsStored | internal/controller/wordpresssite_controller.go:149-156 | a complete Secret of the site's own that the cache shows is the stored one, however far the cache lags |
| Trust.RunSqlKeepsTrust | internal/mysql/provisioner.go:74-87 | each provisioning statement makes its step of progress and never disturbs a site already served |
| Tenancy.StepSends | internal/mysql/provisioner.go:74-80 | a move leaves MySQL alone or executes one statement of the moving site's own |
| Tenancy.StepKeepsOtherShares | internal/mysql/provisioner.go:74-80 | given distinct derived names, no move of one site changes another site's database, user, password or grant |
| Mysql.LiteralRoundTrip | internal/mysql/provisioner.go:118-139 | scanning the quoted escaped string yields exactly the string and leaves exactly the rest, for every string and every rest that does not start with a quote |
| Mysql.EscapedInjective | internal/mysql/provisioner.go:118-139 | two strings escape alike only if they are equal |
| Mysql.EscapeString | internal/mysql/provisioner.go:121-139 | the byte loop computes the escaped string |
| Mysql.EscapedIsOneLine | internal/mysql/provisioner.go:121-139 | an escaped value has no NUL, newline or carriage return |
| Mysql.RawLiteralIff | internal/mysql/provisioner.go:77-79 | an unescaped value in quotes is read back as it was meant exactly when it has no quote and no backslash but before `%` or `_` |
| Mysql.TextMeansStatement | internal/mysql/provisioner.go:75-80 | with validated identifiers and a plain host, the server reads each statement text as the statement meant, whatever the password holds; the name in GRANT is the pattern of the grant |
| Mysql.EnsureTexts | internal/mysql/provisioner.go:74-80 | the five texts of EnsureDatabase, word by word and in order |
| Mysql.DropTexts | internal/mysql/provisioner.go:105-109 | the three texts of DropDatabase, word by word and in order |
| Mysql.ValidateIdent | internal/mysql/provisioner.go:141-154 | the loop accepts exactly 1 to 64 ASCII word characters |
| Mysql.EnsureProvisions | internal/mysql/provisioner.go:74-87 | the five statements succeed on any server and add exactly the database, the user with this password and the grant on the name as a pattern |
| Mysql.EnsureReaches | internal/mysql/provisioner.go:53-56 | after them the account can use exactly what it could before and every database whose name fits the pattern; no other account gains anything |
| Mysql.ScopeIff | internal/mysql/provisioner.go:53-56 | a grant on a valid name is scoped to only that database exactly when the name has no underscore |
| Mysql.EnsureConverges | internal/mysql/provisioner.go:53-56 | after any prefix of an earlier attempt with any other password, a full run gives what it gives on the server before that attempt |
| Mysql.DropUndoesEnsure | internal/mysql/provisioner.go:90-116 | dropping undoes an attempt that came any distance and restores the server as it was before it |
| Provisioner.EnsureDatabase | internal/mysql/provisioner.go:57-88 | validates first, then sends the statements in order up to the first error |
| Provisioner.DropDatabase | internal/mysql/provisioner.go:92-116 | the same for the drop statements |
| Provisioner.SentIsAmid | internal/mysql/provisioner.go:82-87 | the statement loop is the machine's sequence of SQL calls, with the same error |
| Provisioner.TextsAreUnderstood | internal/mysql/provisioner.go:75-80 | every text sent for a site with usable names and a plain host is read as the statement meant |
| Names.DerivedNamesAreUsable | internal/resources/names.go:26-48 | for every site name the generated names pass validateIdent and respect the 64 and 32 character limits |
| Names.UserBoundIsTight | internal/resources/names.go:41-48 | generated users are distinct on labels of at most n characters exactly when n is at most 28 |
| Names.DatabaseBoundIsTight | internal/resources/names.go:32-39 | generated databases are distinct on labels of at most n characters exactly when n is at most 61 |
| Names.DottedNamesCollide | internal/resources/names.go:26-48 | two names of dotted labels (RFC 1123 subdomains), short enough, get the same user, or database, exactly when they are the same with '.' read as '-' |
| Names.OverridesWin | internal/resources/names.go:32-56 | a given database, user or host is taken as it is; otherwise the name is the longest prefix of "wp_" or "wpu_" and the token that fits, and the host is any |
| Names.SanitizeCuts | internal/resources/names.go:26-30 | the token is the name read rune by rune between its outer underscores, and begins and ends with none |
| Names.CaseIsIgnored | internal/resources/names.go:26-30 | names that differ in case only get the same token |
| Names.SanitizeTwice | internal/resources/names.go:26-30 | a token is its own token |
| Names.NamespaceIsIgnored | internal/resources/names.go:32-61 | same-named sites with the same database section share database, user, host and Secret name whatever their namespaces |
| Conditions.ConditionHistory | internal/controller/wordpresssite_controller.go:259-270 | after any sequence of reports there is exactly one Ready condition, telling the last report and the time its status last changed; other conditions stay |
| Conditions.ConditionList.Set | internal/controller/wordpresssite_controller.go:259-270 | the in-place scan of the conditions slice computes that update |
| Conditions.SamePhaseIsStable | internal/controller/wordpresssite_controller.go:237-252 | repeating a report at any later time changes nothing |
| Lens.GetPut | internal/apiserver/handlers.go:248-280 | reading a site and writing the form back keeps every rendered object exactly when the site uses no TLS Secret name of its own, and always keeps env, resources, storage, database, annotations and suspension |
| Lens.FormShows | internal/apiserver/handlers.go:47-73 | what the form shows of a site, field by field |
| Lens.PutPut | internal/apiserver/handlers.go:265-280 | as the API server keeps them, the last form wins over any earlier one exactly when it gives a positive replica count and says whether HTTPS is forced |
| Lens.PutGet | internal/apiserver/handlers.go:47-73 | a form is read back as written exactly when it gives a positive replica count and a table prefix and says whether HTTPS is forced |
| Lens.CreateGet | internal/apiserver/handlers.go:75-95 | a created site reads back as its form exactly when that gives a replica count and a table prefix and says whether HTTPS is forced |
| Lens.AdmissionIsInvisible | deploy/01-crd.yaml:40-91 | the defaults filled in on admission change no rendered object and no derived name |
| Handlers.Admin.UpdateSite | internal/apiserver/handlers.go:250-291 | read once, write conditionally once; on OK the stored spec has the form's fields (replicas if positive, HTTPS if said), no TLS Secret name, and the fetched rest; the status code tells which step failed |
| Handlers.Admin.SetSuspend | internal/apiserver/handlers.go:295-313 | on OK the stored spec is the fetched one with just this suspension, and the annotations are kept |
| Handlers.RequestIsCommit | internal/apiserver/handlers.go:260-285 | a request that fetches in one state and writes some moves later either writes nothing or is the commit of its edit on the fetched version in the system; OK means that the edit is in the log |
| Handlers.Admin.UpdateSiteYAML | internal/apiserver/handlers.go:317-355 | on OK the stored spec is the admitted document's and the annotations the document's if it has any, else the fetched ones; a wrong name or an empty domain is refused |
| Handlers.ReachableIsSound | deploy/01-crd.yaml:40-91 | in every reachable state sites are stored under their own name with their defaults, as those three ask |
| Handlers.Admin.Create | internal/apiserver/handlers.go:119-144 | refuses missing fields, conflicts exactly on an existing name, otherwise stores a running site with what the form gives and the defaults, and nothing else |
| Handlers.Admin.Delete | internal/apiserver/handlers.go:146-159 | fetches, then deletes by name, with the code of the step that failed; afterwards the site is gone or marked |
| Rendering.TrafficReachesPods | internal/resources/ingress.go:16-73 | every host of the site has a rule, every rule leads to the Service and its port, and the Service's and the Deployment's selectors pick the pods |
| Rendering.FilesAreMounted | internal/resources/deployment.go:109-157 | every mount resolves to a volume, every ConfigMap file to a key of the rendered ConfigMap, and the hook is there exactly with its file |
| Rendering.CredentialsComeFromOwnSecret | internal/resources/deployment.go:73-84 | the container reads all nine credentials, and only those, from the site's own Secret under keys it always has |
| Rendering.UserEnvWins | internal/resources/deployment.go:88-92 | where the API accepts repeated names, as on the client-side path, a user-supplied variable overrides the generated one of the same name, and no other |
| Rendering.EnvIsApplicableIff | internal/resources/deployment.go:73-92 | the rendered variables have distinct names, as Server-Side Apply asks, exactly when the user's are distinct and none has a generated name |
| Resources.DesiredDeployment | internal/resources/deployment.go:55-188 | the builder with its appends, branches and salt loop yields the specified Deployment |
| Workload.ReconciledIsRunning | internal/resources/deployment.go:55-188 | after one fault-free reconcile the stored children are what the spec says: no replicas while suspended, else the given count or one; image, table prefix, extra configuration, folder, claim, php.ini with its hash, hook, probes; Service, hosts, TLS and annotations of the Ingress |
| Workload.ReadyIsRunning | internal/resources/deployment.go:55-188 | the same in every reachable state in which a site as in HonestReady is Ready for its current generation |
| Workload.FoldersAreApart | internal/resources/names.go:63-69 | two sites that choose no folder never share one on the shared volume |
| Workload.ConfigMapComesFirst | internal/controller/wordpresssite_controller.go:131-137 | whenever a reconcile in flight changes the stored Deployment, the ConfigMap it mounts is stored already |
| Resources.DesiredIngress | internal/resources/ingress.go:16-73 | the builder with its annotation map and rule loop yields the specified Ingress |
| TwoFactor.TwoFactorSafety | internal/apiserver/twofa.go:77-135 | over every interleaving with stale loads, the active secret changes only by enabling with a code valid for pending, which is consumed, or by disabling with a code valid for active; on means there is a secret |
| TwoFactor.StepRefines | internal/apiserver/twofa.go:57-67 | a request on the current state is the intended step on it, so a valid code always takes effect; one on a stale load changes nothing |
| TwoFactor.FreshRequestTakesEffect | internal/apiserver/twofa.go:106-135 | in every reachable state, a request made on it leads where the intended machine goes |
| TwoFactor.RunRefines | internal/apiserver/twofa.go:38-67 | the requests made on the state as it was then, in order, lead the Off/On machine with an optional pending secret to the stored state |
| TwoFactor.KubeTwoFA.Perform | internal/apiserver/twofa.go:79-135 | Setup succeeds exactly on a current load, Enable exactly on one with a code valid for the pending secret, Disable exactly when there is no active secret or on one with a code valid for it; each stores what it is for, a failure nothing |
| TwoFactor.KubeTwoFA.Enabled | internal/apiserver/twofa.go:69-75 | enabled means the flag and a non-empty secret |
| TwoFactor.KubeTwoFA.Validate | internal/apiserver/twofa.go:137-144 | a login code is checked against the active secret |
| PostStart.HookRuns | internal/resources/deployment.go:33-44 | after any number of container starts, however many cut off, the file is untouched until one completes, then has the shipped line exactly once after each line that opens PHP, and erasing it restores the file |
| PostStart.EraseUndoesInsert | internal/resources/configmap.go:60-63 | erasing marked lines undoes the insertion, for any recognisable line |
| PostStart.Sed | internal/resources/deployment.go:44-44 | the line-by-line pass computes the insertion |
| Metrics.Cluster | internal/metrics/kube.go:47-72 | every node is reported with its own capacity and allocatable, its known usage and what is left of it, never below zero; the totals are the sums over the nodes, and what the cluster has left is at most the sum of what the nodes have left, equal exactly when no node is over-used or none has anything left |
| Metrics.ClusterAvailable | internal/metrics/metrics.go:46-52 | what the cluster reports available never exceeds the sum over its nodes, and equals it exactly when no node is over-used or none has anything left |
| Metrics.Sites | internal/metrics/kube.go:75-101 | one entry per label seen, holding the sum over its pods' containers |
| Metrics.OrderIsIrrelevant | internal/metrics/kube.go:81-96 | a site's usage does not depend on the order of the pods |
| Metrics.UsageIsConserved | internal/metrics/kube.go:81-96 | per-site sums and the unlabelled pods' usage add up to the usage of all containers |

## Left out

- HonestReady: asks that no reconcile of the site's present incarnation has adopted a complete Secret of another, because then it is false (`Schedules.AdoptionIsFatal`), and that caches never go back, not even over a restart of the operator.
- HonestLogin: for a deleting site whose data is dropped it says nothing about MySQL.
- TenantIsolation: dotted names, names over 28 characters and database overrides that collide are excluded, because the derived names are then not distinct.
- TenantGrants: the same names are excluded, and accounts with fewer than all privileges, which nothing here creates.
- NoOrphanData: asks for derived names that are distinct and stay the same over a site's life.
- TextMeansStatement: says nothing about a host that is not plain; `Mysql.RawLiteralIff` is the exact condition for one literal. That the host of an account is itself a pattern of client addresses is not modelled.
- HookRuns: two hooks running at the same time on the shared volume are not modelled, nor a last line without a newline.
- Reconcile: the error texts of the client libraries are shortened, and the delay before a retry is not modelled.
- Cluster: sums are unbounded integers; 64-bit overflow is not modelled.
- The client-side create/update path for owned objects, used in local development only.
- Validation by the API server: the store accepts every rendered object. In fact an apply fails for repeated variable names (`Rendering.EnvIsApplicableIff`) and for site names that are no RFC 1035 label or too long for a label value, and a reconcile of such a site never gets past the workload stage.
- RandomPassword: which buffer lengths a Secret asks for, 24 bytes for the password and 48 for a salt, is not modelled; a random value is any non-empty string.
- DesiredSecret: the store keeps of a Secret its owner, version and data only; labels and type are constant.
- More than one namespace at a time (the store is keyed by name; `Names.NamespaceIsIgnored` is what two would share), other clients that write the same objects, and finalizers other than the operator's own on creation.
- The read-only status fields of the DTO, the preview and YAML rendering endpoints, listing, logins and tokens.
- JSON, YAML, SHA-256, PNG and one-time-password code: the hash and code validity are parameters.
- The SQLite provisioner, development metrics, pod diagnostics, user interface, manifests and scripts.
