/** The edit form as a view of a site: what reading a site and writing the form back keeps. */
module Lens {
  import opened Api
  import opened Edits
  import opened Names
  import opened Resources
  import opened Wrappers

  /** The spec the API server keeps of a form written to a spec. */
  function Put(sp: Spec, d: SiteDTO): Spec { Admitted(PutForm(sp, d)) }

  function PutBack(s: Site, d: SiteDTO): Site { s.(spec := Put(s.spec, d)) }

  ghost predicate RendersTheSame(c: Config, a: Site, b: Site) {
    forall kind :: Desired(c, a, kind) == Desired(c, b, kind)
  }

  /** The TLS Secret is the one the generated name gives, where it is used at all. */
  predicate StandardTLS(s: Site) { s.spec.tls.enabled ==> s.spec.tls.secretName in {"", s.name + "-tls"} }

  lemma DeploymentIsKept(c: Config, s: Site)
    ensures SiteDeployment(c, PutBack(s, ToDTO(s))) == SiteDeployment(c, s)
  { }

  lemma IngressIsKept(c: Config, s: Site)
    ensures SiteIngress(c, PutBack(s, ToDTO(s))) == SiteIngress(c, s) <==> StandardTLS(s)
  { }

  /** Writing back what was read renders the same objects exactly when the site uses no TLS Secret of
      its own name: the form has no field for it and the write drops it. The fields outside the form
      are kept in any case, but for the default host of a spec that was never admitted. */
  lemma GetPut(c: Config, s: Site)
    ensures RendersTheSame(c, PutBack(s, ToDTO(s)), s) <==> StandardTLS(s)
    ensures var sp := Put(s.spec, ToDTO(s));
            && sp.env == s.spec.env && sp.resources == s.spec.resources && sp.storage == s.spec.storage
            && sp.database == Admitted(s.spec).database && sp.ingressAnnotations == s.spec.ingressAnnotations
            && sp.suspend == s.spec.suspend
  {
    var s' := PutBack(s, ToDTO(s));
    DeploymentIsKept(c, s);
    IngressIsKept(c, s);
    if StandardTLS(s) {
      forall kind ensures Desired(c, s', kind) == Desired(c, s, kind) {
        match kind
        case ConfigMapKind =>
        case DeploymentKind =>
        case ServiceKind =>
        case IngressKind =>
      }
    } else {
      assert Desired(c, s', IngressKind) != Desired(c, s, IngressKind);
    }
  }

  /** What the form shows of a site. */
  lemma FormShows(s: Site)
    ensures var d := ToDTO(s);
            && d.name == s.name && d.suspended == s.spec.suspend && d.domain == s.spec.domain && d.aliases == s.spec.aliases
            && d.image == s.spec.image && d.replicas == (if s.spec.replicas == None then 1 else s.spec.replicas.value)
            && d.tlsEnabled == s.spec.tls.enabled && d.tlsIssuer == s.spec.tls.issuer && d.ingressClass == s.spec.ingressClassName
            && d.tablePrefix == s.spec.tablePrefix && d.phpConfig == s.spec.phpConfig && d.phpIni == s.spec.phpIni
            && d.forceHTTPS == Some(s.spec.forceHTTPS != Some(false))
  { }

  predicate Complete(d: SiteDTO) { d.replicas > 0 && d.forceHTTPS.Some? }

  const BLANK := SiteDTO("", "a", [], "", 1, false, "", "", "", "", "", Some(true), false)

  /** The last form wins, whatever was there and whatever form came before, exactly when it gives a
      positive replica count and says whether HTTPS is forced. */
  lemma PutPut(sp: Spec, d: SiteDTO)
    ensures (forall s: Spec, e: SiteDTO :: Put(Put(s, e), d) == Put(s, d)) <==> Complete(d)
  {
    if d.replicas <= 0 {
      var s := sp.(replicas := Some(2));
      assert Put(Put(s, BLANK), d).replicas == Some(1);
      assert Put(s, d).replicas == Some(2);
    } else if d.forceHTTPS.None? {
      var s := sp.(forceHTTPS := Some(false));
      assert Put(Put(s, BLANK), d).forceHTTPS == Some(true);
      assert Put(s, d).forceHTTPS == Some(false);
    }
  }

  /** What can be read back of a form: everything but the name and the suspension, which it does not set. */
  function Fields(d: SiteDTO): SiteDTO { d.(name := "", suspended := false) }

  /** A form is read back as it was written, to whatever site, exactly if moreover it gives a table
      prefix: an empty one comes back as the default. */
  lemma PutGet(site: Site, d: SiteDTO)
    ensures (forall s: Site :: Fields(ToDTO(PutBack(s, d))) == Fields(d)) <==> Complete(d) && d.tablePrefix != ""
  {
    if d.replicas <= 0 {
      var s := site.(spec := site.spec.(replicas := Some(1)));
      assert ToDTO(PutBack(s, d)).replicas == 1;
      assert Fields(ToDTO(PutBack(s, d))) != Fields(d);
    } else if d.forceHTTPS.None? {
      assert ToDTO(PutBack(site, d)).forceHTTPS.Some?;
      assert Fields(ToDTO(PutBack(site, d))) != Fields(d);
    } else if d.tablePrefix == "" {
      assert ToDTO(PutBack(site, d)).tablePrefix == "wp_";
      assert Fields(ToDTO(PutBack(site, d))) != Fields(d);
    }
  }

  /** A created site reads back as the form it was created from exactly when that form gives a replica
      count and a table prefix and says whether HTTPS is forced. */
  lemma CreateGet(site: Site, d: SiteDTO)
    requires site.spec == Admitted(NewContent(d).spec)
    ensures Fields(ToDTO(site)) == Fields(d) <==> d.replicas != 0 && d.forceHTTPS.Some? && d.tablePrefix != ""
  { }

  /** The defaults filled in on admission change nothing that is rendered, and no derived database, user or host. */
  lemma AdmissionIsInvisible(c: Config, s: Site)
    ensures var s' := s.(spec := Admitted(s.spec));
            && RendersTheSame(c, s', s) && DatabaseName(s') == DatabaseName(s)
            && DatabaseUser(s') == DatabaseUser(s) && DatabaseHost(s') == DatabaseHost(s)
  {
    var s' := s.(spec := Admitted(s.spec));
    assert GeneratedEnv(c, s') == GeneratedEnv(c, s);
    assert Mounts(s') == Mounts(s);
    assert Rules(s') == Rules(s);
    forall kind ensures Desired(c, s', kind) == Desired(c, s, kind) {
      match kind
      case ConfigMapKind =>
      case DeploymentKind =>
      case ServiceKind =>
      case IngressKind =>
    }
  }
}
