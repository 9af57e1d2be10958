/** The administrator's edits of a site (internal/apiserver/handlers.go), as functions of the spec. */
module Edits {
  import opened Api
  import opened Resources
  import opened Wrappers

  datatype SiteDTO = SiteDTO(
    name: string,
    domain: string,
    aliases: seq<string>,
    image: string,
    replicas: int,
    tlsEnabled: bool,
    tlsIssuer: string,
    ingressClass: string,
    tablePrefix: string,
    phpConfig: string,
    phpIni: string,
    forceHTTPS: Option<bool>,
    suspended: bool)

  function ToDTO(s: Site): SiteDTO {
    SiteDTO(
      s.name, s.spec.domain, s.spec.aliases, s.spec.image,
      if s.spec.replicas.Some? then s.spec.replicas.value else 1,
      s.spec.tls.enabled, s.spec.tls.issuer, s.spec.ingressClassName, s.spec.tablePrefix,
      s.spec.phpConfig, s.spec.phpIni, Some(ForceHTTPSEnabled(s)), s.spec.suspend)
  }

  /** The spec updateSite writes back: the fields of the form, everything else preserved. */
  function PutForm(sp: Spec, d: SiteDTO): Spec {
    sp.(domain := d.domain,
        aliases := d.aliases,
        image := d.image,
        replicas := if d.replicas > 0 then Some(d.replicas) else sp.replicas,
        ingressClassName := d.ingressClass,
        tablePrefix := d.tablePrefix,
        phpConfig := d.phpConfig,
        phpIni := d.phpIni,
        forceHTTPS := if d.forceHTTPS.Some? then d.forceHTTPS else sp.forceHTTPS,
        tls := TLSSpec(d.tlsEnabled, d.tlsIssuer, ""))
  }

  datatype Edit =
    | FormEdit(dto: SiteDTO)
    | SuspendEdit(suspend: bool)
    | YamlEdit(spec: Spec, annotations: Option<map<string, string>>)

  /** The part of a site an administrator owns. */
  datatype Content = Content(spec: Spec, annotations: map<string, string>)

  predicate Accepted(e: Edit) {
    match e
    case FormEdit(d) => d.domain != ""
    case SuspendEdit(_) => true
    case YamlEdit(spec, _) => spec.domain != ""
  }

  function Edited(x: Content, e: Edit): Content {
    match e
    case FormEdit(d) => x.(spec := PutForm(x.spec, d))
    case SuspendEdit(b) => x.(spec := x.spec.(suspend := b))
    case YamlEdit(spec, ann) => Content(spec, if ann.Some? then ann.value else x.annotations)
  }

  /** The fetched copy with the edit made, as a handler sends it back. */
  function EditedCopy(copy: Site, e: Edit): Site {
    var x := Edited(Content(copy.spec, copy.annotations), e);
    copy.(spec := x.spec, annotations := x.annotations)
  }

  /** The content of a newly created site. */
  function NewContent(d: SiteDTO): Content {
    Content(
      Spec(d.domain, d.aliases, d.image, Some(if d.replicas == 0 then 1 else d.replicas), map[],
           StorageSpec("", ""), DatabaseSpec("", "", ""), TLSSpec(d.tlsEnabled, d.tlsIssuer, ""),
           d.ingressClass, map[], [], d.phpConfig, d.phpIni, d.tablePrefix, d.forceHTTPS, false),
      map[])
  }

  /** The defaults the resource definition fills in on admission (deploy/01-crd.yaml). */
  function Admitted(sp: Spec): Spec {
    sp.(replicas := if sp.replicas.None? then Some(1) else sp.replicas,
        tablePrefix := if sp.tablePrefix == "" then "wp_" else sp.tablePrefix,
        database := sp.database.(host := if sp.database.host == "" then "%" else sp.database.host))
  }

  function Kept(x: Content): Content { x.(spec := Admitted(x.spec)) }

  /** The edits applied in order, each result as the API server keeps it. */
  function Fold(x: Content, log: seq<Edit>): Content {
    if log == [] then Kept(x) else Kept(Edited(Fold(x, log[..|log| - 1]), log[|log| - 1]))
  }
}
