/** The two servers the operator talks to: a versioned object store with the documented rules of the
    Kubernetes API, and the shared MySQL server. One namespace; objects are keyed by kind and name. */
module Store {
  import opened Api
  import opened Credentials
  import opened Edits
  import opened Mysql
  import opened Wrappers

  /** A stored child object or Secret: the uid of the site its controller reference names,
      its resource version and its content. */
  datatype Owned<T> = Owned(owner: nat, version: nat, data: T)

  type SecretObject = Owned<SecretData>

  /** What was under a Secret's name when the store was at a revision. */
  datatype Sighting = Sighting(at: nat, secret: Option<SecretObject>)

  datatype Key = Key(kind: Kind, name: string)

  /** `revision` is the store's counter: it numbers versions and incarnations. */
  datatype World = World(
    sites: map<string, Site>,
    secrets: map<string, SecretObject>,
    children: map<Key, Owned<Child>>,
    mysql: Server,
    revision: nat)

  datatype Failure = NotFound | Conflict | AlreadyExists | SqlError | Unavailable(reason: string)

  type Answer<T> = Result<T, Failure>

  function Tock(w: World): World { w.(revision := w.revision + 1) }

  function Lookup<K(==), T>(m: map<K, T>, key: K): Option<T> { if key in m then Some(m[key]) else None }

  /** The version a write of `now` at revision `r` stores, or nothing if it changes nothing:
      a new spec starts a new generation. */
  function NextVersion(stored: Site, now: Site, r: nat): Site {
    if now == stored then stored
    else now.(resourceVersion := r,
              generation := if now.spec != stored.spec then stored.generation + 1 else stored.generation)
  }

  /** An object marked for deletion disappears with its last finalizer. */
  function PutSite(w: World, name: string, s: Site): World {
    Tock(if s.deleting && s.finalizers == {} then w.(sites := w.sites - {name})
         else w.(sites := w.sites[name := s]))
  }

  /** The spec a write stores: one that changes is admitted, with its defaults filled in. Stored specs
      have them filled in already (NoLostUpdates.StoredIsAdmitted). */
  function ToStore(s: Site, spec: Spec): Spec { if spec == s.spec then spec else Admitted(spec) }

  /** Update on the main endpoint: spec and metadata, never the status. */
  function UpdateSite(w: World, copy: Site): (World, Answer<Site>) {
    if copy.name !in w.sites then (Tock(w), Err(NotFound))
    else
      var s := w.sites[copy.name];
      if s.resourceVersion != copy.resourceVersion then (Tock(w), Err(Conflict))
      else
        var now := NextVersion(s, s.(spec := ToStore(s, copy.spec), annotations := copy.annotations, finalizers := copy.finalizers),
                               w.revision);
        (PutSite(w, copy.name, now), Ok(now))
  }

  /** Update on the status endpoint: the status and nothing else. */
  function UpdateStatus(w: World, copy: Site): (World, Answer<Site>) {
    if copy.name !in w.sites then (Tock(w), Err(NotFound))
    else
      var s := w.sites[copy.name];
      if s.resourceVersion != copy.resourceVersion then (Tock(w), Err(Conflict))
      else
        var now := NextVersion(s, s.(status := copy.status), w.revision);
        (PutSite(w, copy.name, now), Ok(now))
  }

  function CreateSite(w: World, namespace: string, name: string, spec: Spec, annotations: map<string, string>): World {
    if name in w.sites then Tock(w)
    else PutSite(w, name, Site(namespace, name, w.revision, w.revision, 1, annotations, {}, false, Admitted(spec), EMPTY_STATUS))
  }

  /** Delete only marks an object that still has finalizers. */
  function DeleteSite(w: World, name: string): World {
    if name !in w.sites || w.sites[name].deleting then Tock(w)
    else PutSite(w, name, w.sites[name].(deleting := true, resourceVersion := w.revision))
  }

  function CreateSecret(w: World, name: string, owner: nat, data: SecretData): (World, Answer<SecretData>) {
    if name in w.secrets then (Tock(w), Err(AlreadyExists))
    else (Tock(w.(secrets := w.secrets[name := Owned(owner, w.revision, data)])), Ok(data))
  }

  function UpdateSecret(w: World, name: string, version: nat, owner: nat, data: SecretData): (World, Answer<SecretData>) {
    if name !in w.secrets then (Tock(w), Err(NotFound))
    else if w.secrets[name].version != version then (Tock(w), Err(Conflict))
    else (Tock(w.(secrets := w.secrets[name := Owned(owner, w.revision, data)])), Ok(data))
  }

  /** Server-Side Apply with forced ownership: an idempotent put. */
  function ApplyChild(w: World, key: Key, owner: nat, child: Child): World {
    if key in w.children && w.children[key].owner == owner && w.children[key].data == child then Tock(w)
    else Tock(w.(children := w.children[key := Owned(owner, w.revision, child)]))
  }

  function ExecuteSql(w: World, s: Statement): (World, Answer<()>) {
    var r := Execute(w.mysql, s);
    if r.None? then (Tock(w), Err(SqlError)) else (Tock(w.(mysql := r.value)), Ok(()))
  }

  /** The garbage collector removes an object whose owner is no longer stored under the name
      its reference gives. */
  predicate Orphaned(w: World, site: string, owner: nat) { site in w.sites ==> w.sites[site].uid != owner }

  function CollectSecret(w: World, site: string, name: string): World {
    if name in w.secrets && Orphaned(w, site, w.secrets[name].owner)
    then Tock(w.(secrets := w.secrets - {name})) else Tock(w)
  }

  function CollectChild(w: World, site: string, key: Key): World {
    if key in w.children && Orphaned(w, site, w.children[key].owner)
    then Tock(w.(children := w.children - {key})) else Tock(w)
  }
}
