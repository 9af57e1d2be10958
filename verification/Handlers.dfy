/** The administrator's requests in the form of the program (internal/apiserver/handlers.go): fetch,
    change the fetched object in place, write it back whole. */
module Handlers {
  import opened Api
  import opened BaseSafety
  import opened Client
  import opened Convergence
  import opened Edits
  import opened Interference
  import opened NoLostUpdates
  import opened Operator
  import opened Store
  import opened System
  import opened Versions
  import opened Wrappers

  const OK := 200
  const CREATED := 201
  const NO_CONTENT := 204
  const BAD_REQUEST := 400
  const MISSING := 404
  const CONFLICT := 409
  const SERVER_ERROR := 500

  function NotFoundOr500(f: Failure): int { if f == NotFound then MISSING else SERVER_ERROR }

  /** What an edit request does: a read, then one conditional write of the edited copy. */
  ghost predicate Requested(before: World, after: World, o1: Tick, o2: Tick, others: Others, i: nat, name: string,
                            e: Edit, code: int)
  {
    var seen := others(i, before);
    if !Accepted(e) then code == 400 && after == before
    else if !o1.outcome.Done? then code == 500 && after == seen
    else if name !in seen.sites then code == 404 && after == seen
    else
      var now := others(i + 1, seen);
      var r := Respond(now, UpdateSite(now, EditedCopy(seen.sites[name], e)), o2.outcome);
      after == r.0 && code == if r.1.Ok? then 200 else 500
  }

  // ---- What the requests store ----

  /** As all stored sites are: under its own name and with its defaults filled in. */
  predicate Sound(w: World, name: string) {
    name in w.sites ==> w.sites[name].name == name && Admitted(w.sites[name].spec) == w.sites[name].spec
  }

  lemma UpdateIsStored(w: World, copy: Site, o: Outcome, name: string)
    requires copy.name == name ==> Respond(w, UpdateSite(w, copy), o).1.Ok?
    ensures copy.name == name && Sound(w, name) ==>
              var w' := Respond(w, UpdateSite(w, copy), o).0;
              name in w'.sites ==> w'.sites[name].spec == Admitted(copy.spec) && w'.sites[name].annotations == copy.annotations
  { }

  /** In every reachable state all sites are. */
  lemma ReachableIsSound(c: Config, names: set<string>, moves: seq<Move>, s: System, n: string)
    requires n in names && Reaches(c, names, moves, s)
    ensures Sound(s.w, n)
  {
    if n in s.w.sites {
      StoredIsAdmitted(c, names, moves, s, n);
      ReachesIsRun(c, names, moves, s);
      RunKeepsBase(c, names, moves);
      StoredHasItsName(s, n);
    }
  }

  lemma StoredHasItsName(s: System, n: string)
    requires BaseAt(s, n) && n in s.w.sites
    ensures s.w.sites[n].name == n
  {
    assert s.w.sites[n] in s.ctl[n].versions;
  }

  /** The form's fields, the rest of the spec as it was. */
  predicate Filled(dto: SiteDTO, was: Spec, sp: Spec) {
    && sp.domain == dto.domain && sp.aliases == dto.aliases && sp.image == dto.image
    && sp.replicas == (if dto.replicas > 0 then Some(dto.replicas) else was.replicas)
    && sp.ingressClassName == dto.ingressClass
    && sp.tablePrefix == (if dto.tablePrefix == "" then "wp_" else dto.tablePrefix)
    && sp.phpConfig == dto.phpConfig && sp.phpIni == dto.phpIni
    && sp.forceHTTPS == (if dto.forceHTTPS.Some? then dto.forceHTTPS else was.forceHTTPS)
    && sp.tls.enabled == dto.tlsEnabled && sp.tls.issuer == dto.tlsIssuer && sp.tls.secretName == ""
    && sp.resources == was.resources && sp.storage == was.storage && sp.database == was.database
    && sp.ingressAnnotations == was.ingressAnnotations && sp.env == was.env && sp.suspend == was.suspend
  }

  lemma FormIsFilled(dto: SiteDTO, was: Spec)
    requires Admitted(was) == was
    ensures Filled(dto, was, Admitted(PutForm(was, dto)))
  { }

  /** A site just created from a form: running, with nothing but what the form gives and the defaults. */
  predicate IsNew(s: Site, namespace: string, dto: SiteDTO) {
    && s.name == dto.name && s.namespace == namespace && s.generation == 1 && s.resourceVersion == s.uid
    && s.annotations == map[] && s.finalizers == {} && !s.deleting && s.status.phase == Unset && s.status.conditions == []
    && s.spec.domain == dto.domain && s.spec.aliases == dto.aliases && s.spec.image == dto.image
    && s.spec.replicas == Some(if dto.replicas == 0 then 1 else dto.replicas)
    && s.spec.ingressClassName == dto.ingressClass
    && s.spec.tablePrefix == (if dto.tablePrefix == "" then "wp_" else dto.tablePrefix)
    && s.spec.phpConfig == dto.phpConfig && s.spec.phpIni == dto.phpIni && s.spec.forceHTTPS == dto.forceHTTPS
    && s.spec.tls == TLSSpec(dto.tlsEnabled, dto.tlsIssuer, "") && !s.spec.suspend
    && s.spec.resources == map[] && s.spec.storage == StorageSpec("", "") && s.spec.database == DatabaseSpec("", "", "%")
    && s.spec.ingressAnnotations == map[] && s.spec.env == []
  }

  lemma {:induction false} VersionsStay(c: Config, s: System, moves: seq<Move>, n: string)
    requires n in s.ctl
    ensures n in Run(c, s, moves).ctl && s.ctl[n].versions <= Run(c, s, moves).ctl[n].versions
  {
    if moves != [] {
      VersionsStay(c, s, moves[..|moves| - 1], n);
      StepKeepsVersions(c, Run(c, s, moves[..|moves| - 1]), moves[|moves| - 1], n);
    }
  }

  lemma StepKeepsVersions(c: Config, s: System, m: Move, n: string)
    requires n in s.ctl
    ensures n in Step(c, s, m).ctl && s.ctl[n].versions <= Step(c, s, m).ctl[n].versions
  { }

  lemma WriteIsCommit(c: Config, s: System, name: string, copy: Site, e: Edit)
    requires name in s.ctl && copy in s.ctl[name].versions && Accepted(e)
    ensures var r, s' := UpdateSite(s.w, EditedCopy(copy, e)), Step(c, s, Move(name, Commit(copy, e)));
            if r.1.Ok? then s'.w == r.0 && name in s'.ctl && s'.ctl[name].log == s.ctl[name].log + [e]
            else s' == s && SameServers(r.0, s.w)
  { }

  /** A request is a commit of the system: if it fetches in state s and writes after some more moves of
      anybody, then either nothing was written, or what it wrote is what the commit of its edit, made on
      the version it fetched, writes; and OK means that the edit entered the log. */
  lemma RequestIsCommit(c: Config, s: System, moves: seq<Move>, o1: Tick, o2: Tick, others: Others, i: nat,
                        before: World, after: World, name: string, e: Edit, code: int)
    requires AllBase(s) && name in s.ctl && Requested(before, after, o1, o2, others, i, name, e, code)
    requires others(i, before) == s.w && others(i + 1, s.w) == Run(c, s, moves).w
    ensures var s1 := Run(c, s, moves);
            || (code != OK && after in {before, s.w})
            || (code != OK && SameServers(after, s1.w))
            || (&& name in s.w.sites && name in s1.ctl
                && var s2 := Step(c, s1, Move(name, Commit(s.w.sites[name], e)));
                   after == s2.w && name in s2.ctl && s2.ctl[name].log == s1.ctl[name].log + [e])
  {
    var s1 := Run(c, s, moves);
    VersionsStay(c, s, moves, name);
    if Accepted(e) && o1.outcome.Done? && name in s.w.sites {
      assert s.w.sites[name] in s.ctl[name].versions;
      WriteIsCommit(c, s1, name, s.w.sites[name], e);
    }
  }

  class Admin {
    const servers: Servers
    const namespace: string

    constructor (servers: Servers, namespace: string)
      ensures this.servers == servers && this.namespace == namespace
    {
      this.servers := servers;
      this.namespace := namespace;
    }

    twostate predicate Did(name: string, e: Edit, code: int)
      reads servers
    {
      Requested(old(servers.w), servers.w, servers.oracle(old(servers.calls)), servers.oracle(old(servers.calls) + 1),
                servers.others, old(servers.calls), name, e, code)
    }

    /** The world a request fetches from and the one it writes to. */
    function FetchedFrom(): World reads servers { servers.others(servers.calls, servers.w) }

    function WrittenTo(): World reads servers { servers.others(servers.calls + 1, FetchedFrom()) }

    /** The site was there when it was fetched; and, if it is still there, it is stored with this spec
        and these annotations. */
    twostate predicate Stores(name: string, spec: Spec, annotations: map<string, string>)
      reads servers
    {
      WasSound(name) && name in servers.w.sites ==>
        servers.w.sites[name].spec == spec && servers.w.sites[name].annotations == annotations
    }

    twostate predicate WasSound(name: string)
      reads servers
    {
      Sound(old(FetchedFrom()), name) && Sound(old(WrittenTo()), name)
    }

    twostate predicate StoresForm(name: string, dto: SiteDTO)
      reads servers
    {
      name in old(FetchedFrom()).sites &&
      (WasSound(name) && name in servers.w.sites ==>
        && Filled(dto, old(FetchedFrom()).sites[name].spec, servers.w.sites[name].spec)
        && servers.w.sites[name].annotations == old(FetchedFrom()).sites[name].annotations)
    }

    /** The assignments to the fetched spec, one field at a time. */
    method FillForm(was: Spec, dto: SiteDTO) returns (sp: Spec)
      ensures sp == PutForm(was, dto)
    {
      sp := was;
      sp := sp.(domain := dto.domain);
      sp := sp.(aliases := dto.aliases);
      sp := sp.(image := dto.image);
      if dto.replicas > 0 {
        sp := sp.(replicas := Some(dto.replicas));
      }
      sp := sp.(ingressClassName := dto.ingressClass);
      sp := sp.(tablePrefix := dto.tablePrefix);
      sp := sp.(phpConfig := dto.phpConfig);
      sp := sp.(phpIni := dto.phpIni);
      if dto.forceHTTPS.Some? {
        sp := sp.(forceHTTPS := dto.forceHTTPS);
      }
      sp := sp.(tls := TLSSpec(dto.tlsEnabled, dto.tlsIssuer, ""));
    }

    /** The structured form: the fields it models, everything else preserved. */
    method UpdateSite(name: string, dto: SiteDTO) returns (code: int)
      modifies servers
      ensures Did(name, FormEdit(dto), code)
      ensures code in {200, 400, 404, 500} && (code == 400 <==> dto.domain == "")
      ensures code == 200 ==> StoresForm(name, dto)
    {
      if dto.domain == "" { return BAD_REQUEST; }
      var fetched := servers.Fetch(name);
      if fetched.Err? { return NotFoundOr500(fetched.error); }
      var site := fetched.value;
      var sp := FillForm(site.spec, dto);
      site := site.(spec := sp);
      if Sound(servers.w, name) { FormIsFilled(dto, fetched.value.spec); }
      assert site == EditedCopy(fetched.value, FormEdit(dto));
      ghost var now, o := servers.Now(), servers.Tick().outcome;
      var r := servers.Update(site);
      if r.Ok? { UpdateIsStored(now, site, o, name); }
      code := if r.Ok? then OK else SERVER_ERROR;
    }

    /** Suspend or resume. */
    method SetSuspend(name: string, suspend: bool) returns (code: int)
      modifies servers
      ensures Did(name, SuspendEdit(suspend), code)
      ensures code in {200, 404, 500}
      ensures code == 200 ==>
                && name in old(FetchedFrom()).sites
                && var was := old(FetchedFrom()).sites[name]; Stores(name, was.spec.(suspend := suspend), was.annotations)
    {
      var fetched := servers.Fetch(name);
      if fetched.Err? { return NotFoundOr500(fetched.error); }
      var site := fetched.value;
      site := site.(spec := site.spec.(suspend := suspend));
      assert site == EditedCopy(fetched.value, SuspendEdit(suspend));
      ghost var now, o := servers.Now(), servers.Tick().outcome;
      var r := servers.Update(site);
      if r.Ok? { UpdateIsStored(now, site, o, name); }
      code := if r.Ok? then OK else SERVER_ERROR;
    }

    /** The hand-edited document: the whole spec, and the annotations when it has any. */
    method UpdateSiteYAML(name: string, parsedName: string, spec: Spec, annotations: Option<map<string, string>>)
        returns (code: int)
      modifies servers
      ensures parsedName in {"", name} ==> Did(name, YamlEdit(spec, annotations), code)
      ensures parsedName !in {"", name} ==> code == BAD_REQUEST && servers.w == old(servers.w)
      ensures code in {200, 400, 404, 500} && (code == 400 <==> parsedName !in {"", name} || spec.domain == "")
      ensures code == 200 ==>
                && name in old(FetchedFrom()).sites
                && Stores(name, Admitted(spec),
                          if annotations.Some? then annotations.value else old(FetchedFrom()).sites[name].annotations)
    {
      if parsedName != "" && parsedName != name { return BAD_REQUEST; }
      if spec.domain == "" { return BAD_REQUEST; }
      var fetched := servers.Fetch(name);
      if fetched.Err? { return NotFoundOr500(fetched.error); }
      var site := fetched.value;
      site := site.(spec := spec);
      if annotations.Some? {
        site := site.(annotations := annotations.value);
      }
      assert site == EditedCopy(fetched.value, YamlEdit(spec, annotations));
      ghost var now, o := servers.Now(), servers.Tick().outcome;
      var r := servers.Update(site);
      if r.Ok? { UpdateIsStored(now, site, o, name); }
      code := if r.Ok? then OK else SERVER_ERROR;
    }

    method Create(dto: SiteDTO) returns (code: int)
      modifies servers
      ensures dto.name == "" || dto.domain == "" ==> code == BAD_REQUEST && servers.w == old(servers.w)
      ensures dto.name != "" && dto.domain != "" ==>
                var now := old(servers.Now());
                var r := Respond(now, (CreateSite(now, namespace, dto.name, NewContent(dto).spec, map[]),
                                       if dto.name in now.sites then Err(AlreadyExists) else Ok(())),
                                 old(servers.Tick()).outcome);
                && servers.w == r.0
                && code == (if r.1.Ok? then 201 else if r.1.error == AlreadyExists then 409 else 500)
      ensures code in {201, 400, 409, 500} && (code == 400 <==> dto.name == "" || dto.domain == "")
      ensures code == 409 ==> dto.name in old(servers.Now()).sites
      ensures code == 201 ==>
                && dto.name !in old(servers.Now()).sites && dto.name in servers.w.sites
                && IsNew(servers.w.sites[dto.name], namespace, dto)
    {
      if dto.name == "" || dto.domain == "" { return BAD_REQUEST; }
      var r := servers.Add(namespace, dto.name, NewContent(dto));
      code := if r.Ok? then CREATED else if r.error == AlreadyExists then CONFLICT else SERVER_ERROR;
    }

    method Delete(name: string) returns (code: int)
      modifies servers
      ensures var seen := old(servers.Now());
              var now := servers.others(old(servers.calls) + 1, seen);
              var r := Respond(now, (DeleteSite(now, name), if name in now.sites then Ok(()) else Err(NotFound)),
                               servers.oracle(old(servers.calls) + 1).outcome);
              if !old(servers.Tick()).outcome.Done? then code == 500 && servers.w == seen
              else if name !in seen.sites then code == 404 && servers.w == seen
              else servers.w == r.0 && code == if r.1.Ok? then 204 else 500
      ensures code in {204, 404, 500}
      ensures code == 204 ==> name in servers.w.sites ==> servers.w.sites[name].deleting
    {
      var fetched := servers.Fetch(name);
      if fetched.Err? { return NotFoundOr500(fetched.error); }
      var r := servers.Remove(name);
      code := if r.Ok? then NO_CONTENT else SERVER_ERROR;
    }
  }
}
