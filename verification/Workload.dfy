/** What is running after a reconcile, in the terms of the spec. */
module Workload {
  import opened Api
  import opened Convergence
  import opened Honesty
  import opened Mysql
  import opened Operator
  import opened Recovery
  import opened Rendering
  import opened Resources
  import opened Store
  import opened System
  import opened Theorems
  import opened Versions
  import opened Wrappers

  function Or(given: string, default: string): string { if given != "" then given else default }

  // ---- The Deployment ----

  /** Nothing runs while the site is suspended. */
  predicate Scaled(spec: Spec, replicas: int) {
    replicas == (if spec.suspend then 0 else if spec.replicas.Some? then spec.replicas.value else 1)
  }

  /** The site's files are in its own folder of the shared volume, mounted where the image keeps them. */
  ghost predicate FilesIn(d: Child, claim: string, folder: string)
    requires d.Deployment?
  {
    && ClaimVolume("site-data", claim) in d.volumes
    && Mount("site-data", "/var/www/html", folder, false) in d.container.mounts
    && (forall m :: m in d.container.mounts && m.volume == "site-data" ==> m.path == "/var/www/html" && m.subPath == folder)
    && (forall v :: v in d.volumes && v.name == "site-data" ==> v == ClaimVolume("site-data", claim))
  }

  /** One file of the ConfigMap, read-only, under its own name in a directory. */
  function PhpMount(directory: string, file: string): Mount { Mount("php-config", directory + file, file, true) }

  ghost predicate PhpIn(d: Child, configMap: string, force: bool)
    requires d.Deployment?
  {
    && ConfigMapVolume("php-config", configMap) in d.volumes
    && PhpMount("/usr/local/etc/php/conf.d/", "zz-wpmgr.ini") in d.container.mounts
    && (force <==> PhpMount("/etc/wpmgr/", "forwarded-proto.php") in d.container.mounts)
    && (force <==> d.container.postStart == Some(InsertForwardedProto))
  }

  /** The site's own variables come last and are all there; extra configuration and table prefix are told. */
  ghost predicate Told(spec: Spec, env: seq<EnvVar>) {
    && |spec.env| <= |env| && env[|env| - |spec.env|..] == spec.env
    && (Leaves(spec.env, {"WORDPRESS_TABLE_PREFIX"}) ==>
          Effective(env, "WORDPRESS_TABLE_PREFIX") == Some(EnvValue("WORDPRESS_TABLE_PREFIX", Or(spec.tablePrefix, "wp_"))))
    && (Leaves(spec.env, {"WORDPRESS_CONFIG_EXTRA"}) ==>
          Effective(env, "WORDPRESS_CONFIG_EXTRA")
          == if spec.phpConfig == "" then None else Some(EnvValue("WORDPRESS_CONFIG_EXTRA", spec.phpConfig)))
  }

  predicate Labelled(name: string, labels: map<string, string>) {
    labels == map["app.kubernetes.io/managed-by" := "wordpress-manager-operator", "app.kubernetes.io/name" := "wordpress",
                  "app.kubernetes.io/instance" := name, "wp.benji.dev/site" := name]
  }

  /** One container, with the image, probes and resources of the spec. */
  predicate Contains(spec: Spec, k: Container) {
    && k.name == "wordpress" && k.image == Or(spec.image, "wordpress:latest")
    && k.portName == "http" && k.port == 80 && k.resources == spec.resources
    && k.readiness == Probe("/wp-login.php", 80, 20, 15, 5, 6)
    && k.liveness == Probe("/wp-login.php", 80, 60, 15, 5, 6)
  }

  /** What surrounds the container. */
  predicate Deploys(c: Config, site: Site, d: Child) {
    && d.Deployment? && d.meta.name == site.name && d.meta.namespace == site.namespace
    && Labelled(site.name, d.meta.labels) && d.podLabels == d.meta.labels
    && Scaled(site.spec, d.replicas) && d.strategy == "Recreate"
    && d.podAnnotations == map["wp.benji.dev/php-ini-hash" := c.phpIniHash(Or(site.spec.phpIni, c.defaultPhpIni))]
  }

  ghost predicate Runs(c: Config, site: Site, d: Child) {
    && Deploys(c, site, d) && Contains(site.spec, d.container)
    && FilesIn(d, Or(site.spec.storage.sharedPVCName, c.defaultPVC), Or(site.spec.storage.subPath, site.name))
    && PhpIn(d, site.name + "-php", site.spec.forceHTTPS != Some(false))
    && Told(site.spec, d.container.env)
  }

  lemma RenderedDeploys(c: Config, site: Site)
    ensures Deploys(c, site, SiteDeployment(c, site))
  { }

  lemma RenderedContains(c: Config, site: Site)
    ensures Contains(site.spec, SiteDeployment(c, site).container)
  { }

  lemma FilesAreIn(c: Config, site: Site)
    ensures FilesIn(SiteDeployment(c, site), Or(site.spec.storage.sharedPVCName, c.defaultPVC), Or(site.spec.storage.subPath, site.name))
  {
    var d := SiteDeployment(c, site);
    assert d.volumes == Volumes(c, site) && d.container.mounts == Mounts(site);
    VolumeList(c, site);
    MountList(site);
  }

  lemma VolumeList(c: Config, site: Site)
    ensures Volumes(c, site)
            == [ClaimVolume("site-data", Or(site.spec.storage.sharedPVCName, c.defaultPVC)), ConfigMapVolume("php-config", site.name + "-php")]
    ensures Volumes(c, site)[0] in Volumes(c, site) && Volumes(c, site)[1] in Volumes(c, site)
    ensures forall v :: v in Volumes(c, site) && v.name == "site-data" ==> v == Volumes(c, site)[0]
  {
    assert "php-config"[0] != "site-data"[0];
  }

  lemma Directories()
    ensures PHP_MOUNT == "/usr/local/etc/php/conf.d/" + "zz-wpmgr.ini"
    ensures FORWARDED_PROTO_MOUNT == "/etc/wpmgr/" + "forwarded-proto.php"
  { }

  lemma MountList(site: Site)
    ensures var ms, force := Mounts(site), site.spec.forceHTTPS != Some(false);
            && |ms| == (if force then 3 else 2)
            && ms[0] == Mount("site-data", "/var/www/html", Or(site.spec.storage.subPath, site.name), false)
            && ms[1] == PhpMount("/usr/local/etc/php/conf.d/", "zz-wpmgr.ini")
            && (force ==> ms[2] == PhpMount("/etc/wpmgr/", "forwarded-proto.php"))
            && (forall m :: m in ms && m.volume == "site-data" ==> m == ms[0])
            && (forall i :: 0 <= i < |ms| ==> ms[i] in ms)
  {
    Directories();
    assert "php-config"[0] != "site-data"[0];
  }

  lemma PhpIsIn(c: Config, site: Site)
    ensures PhpIn(SiteDeployment(c, site), site.name + "-php", site.spec.forceHTTPS != Some(false))
  {
    var d, ms := SiteDeployment(c, site), Mounts(site);
    assert d.volumes == Volumes(c, site) && d.container.mounts == ms;
    VolumeList(c, site);
    MountList(site);
    OtherMounts(ms[0], ms[1]);
  }

  lemma OtherMounts(a: Mount, b: Mount)
    requires a.volume == "site-data" && b.subPath == "zz-wpmgr.ini"
    ensures PhpMount("/etc/wpmgr/", "forwarded-proto.php") != a && PhpMount("/etc/wpmgr/", "forwarded-proto.php") != b
  {
    assert a.volume[0] != "php-config"[0] && b.subPath[0] != "forwarded-proto.php"[0];
  }

  lemma TablePrefixIsTold(c: Config, site: Site)
    requires Leaves(site.spec.env, {"WORDPRESS_TABLE_PREFIX"})
    ensures Effective(SiteDeployment(c, site).container.env, "WORDPRESS_TABLE_PREFIX")
            == Some(EnvValue("WORDPRESS_TABLE_PREFIX", Or(site.spec.tablePrefix, "wp_")))
  {
    assert GeneratedEnv(c, site)[3] == EnvValue("WORDPRESS_TABLE_PREFIX", Or(site.spec.tablePrefix, "wp_"));
    GeneratedIsSeen(c, site, 3);
  }

  lemma ExtraIsTold(c: Config, site: Site)
    requires Leaves(site.spec.env, {"WORDPRESS_CONFIG_EXTRA"})
    ensures Effective(SiteDeployment(c, site).container.env, "WORDPRESS_CONFIG_EXTRA")
            == if site.spec.phpConfig == "" then None else Some(EnvValue("WORDPRESS_CONFIG_EXTRA", site.spec.phpConfig))
  {
    if site.spec.phpConfig != "" {
      assert GeneratedEnv(c, site)[13] == EnvValue("WORDPRESS_CONFIG_EXTRA", site.spec.phpConfig);
      GeneratedIsSeen(c, site, 13);
    } else {
      UserEnvWins(c, site, "WORDPRESS_CONFIG_EXTRA");
      NoneEffective(site.spec.env, "WORDPRESS_CONFIG_EXTRA");
      NoExtra(c, site);
    }
  }

  lemma NoExtra(c: Config, site: Site)
    requires site.spec.phpConfig == ""
    ensures Effective(GeneratedEnv(c, site), "WORDPRESS_CONFIG_EXTRA") == None
  {
    GeneratedPositions(c, site);
    assert Position("WORDPRESS_CONFIG_EXTRA") == 13;
    NoneEffective(GeneratedEnv(c, site), "WORDPRESS_CONFIG_EXTRA");
  }

  lemma VariablesAreTold(c: Config, site: Site)
    ensures Told(site.spec, SiteDeployment(c, site).container.env)
  {
    var generated := GeneratedEnv(c, site);
    assert SiteDeployment(c, site).container.env == generated + site.spec.env;
    assert (generated + site.spec.env)[|generated|..] == site.spec.env;
    if Leaves(site.spec.env, {"WORDPRESS_TABLE_PREFIX"}) { TablePrefixIsTold(c, site); }
    if Leaves(site.spec.env, {"WORDPRESS_CONFIG_EXTRA"}) { ExtraIsTold(c, site); }
  }

  lemma RenderedRuns(c: Config, site: Site)
    ensures Runs(c, site, SiteDeployment(c, site))
  {
    RenderedDeploys(c, site);
    RenderedContains(c, site);
    FilesAreIn(c, site);
    PhpIsIn(c, site);
    VariablesAreTold(c, site);
  }

  // ---- The other children ----

  ghost predicate Configured(c: Config, site: Site, m: Child) {
    && m.ConfigMap? && m.meta.name == site.name + "-php" && m.meta.namespace == site.namespace
    && Labelled(site.name, m.meta.labels)
    && m.data == map["zz-wpmgr.ini" := Or(site.spec.phpIni, c.defaultPhpIni),
                     "forwarded-proto.php" := "$_SERVER['HTTP_X_FORWARDED_PROTO']" + " = 'https';"
                                              + " // wpmgr-forwarded-proto" + "\n"]
  }

  ghost predicate Serves(site: Site, s: Child, d: Child) {
    && s.Service? && s.meta.name == site.name && s.meta.namespace == site.namespace && s.kind == "ClusterIP"
    && Labelled(site.name, s.meta.labels)
    && s.port == 80 && s.targetPort == 80 && d.Deployment? && s.targetPort == d.container.port
    && s.selector == map["wp.benji.dev/site" := site.name] && SelectedBy(s.selector, d.podLabels)
    && d.selector == s.selector
  }

  /** One rule a host, the domain first, then the aliases, each to the site's Service; TLS for all of
      them or for none. */
  ghost predicate Routes(c: Config, site: Site, g: Child) {
    && g.Ingress? && g.meta.name == site.name && g.meta.namespace == site.namespace && Labelled(site.name, g.meta.labels)
    && g.className == Or(site.spec.ingressClassName, c.defaultIngressClass)
    && |g.rules| == 1 + |site.spec.aliases|
    && (forall i :: 0 <= i < |g.rules| ==>
          g.rules[i] == IngressRule(if i == 0 then site.spec.domain else site.spec.aliases[i - 1], "/", site.name, 80))
    && g.tls == (if site.spec.tls.enabled
                 then [IngressTLS([site.spec.domain] + site.spec.aliases, Or(site.spec.tls.secretName, site.name + "-tls"))]
                 else [])
    && (forall k :: k in site.spec.ingressAnnotations ==>
          k in g.meta.annotations && g.meta.annotations[k] == site.spec.ingressAnnotations[k])
    && Annotated(g.meta.annotations, site.spec.ingressAnnotations, "nginx.ingress.kubernetes.io/proxy-body-size", "256m")
    && (if site.spec.tls.enabled && site.spec.tls.issuer != ""
        then Annotated(g.meta.annotations, site.spec.ingressAnnotations, "cert-manager.io/cluster-issuer", site.spec.tls.issuer)
        else "cert-manager.io/cluster-issuer" in g.meta.annotations ==>
               "cert-manager.io/cluster-issuer" in site.spec.ingressAnnotations)
  }

  /** The default holds where the user says nothing. */
  predicate Annotated(annotations: map<string, string>, user: map<string, string>, key: string, default: string) {
    key in annotations && (key !in user ==> annotations[key] == default)
  }

  lemma RenderedConfigured(c: Config, site: Site)
    ensures Configured(c, site, PHPConfigMap(c, site))
  {
    assert "zz-wpmgr.ini"[0] != "forwarded-proto.php"[0];
    assert ForwardedProtoLine() + "\n"
           == "$_SERVER['HTTP_X_FORWARDED_PROTO']" + " = 'https';" + " // wpmgr-forwarded-proto" + "\n";
  }

  lemma RenderedServes(c: Config, site: Site)
    ensures Serves(site, SiteService(site), SiteDeployment(c, site))
  { }

  lemma RenderedRoutes(c: Config, site: Site)
    ensures Routes(c, site, SiteIngress(c, site))
  {
    assert "nginx.ingress.kubernetes.io/proxy-body-size"[0] != "cert-manager.io/cluster-issuer"[0];
  }

  // ---- What a reconcile leaves ----

  /** Every child is stored under its own kind and name. */
  ghost predicate Running(c: Config, w: World, site: Site) {
    && Key(ConfigMapKind, site.name + "-php") in w.children && Key(DeploymentKind, site.name) in w.children
    && Key(ServiceKind, site.name) in w.children && Key(IngressKind, site.name) in w.children
    && var d := w.children[Key(DeploymentKind, site.name)].data;
       && Configured(c, site, w.children[Key(ConfigMapKind, site.name + "-php")].data) && Runs(c, site, d)
       && Serves(site, w.children[Key(ServiceKind, site.name)].data, d)
       && Routes(c, site, w.children[Key(IngressKind, site.name)].data)
  }

  lemma ShownIsRunning(c: Config, w: World, site: Site)
    requires Shown(c, w, site, 4)
    ensures Running(c, w, site)
  {
    assert Matches(c, w, site, KINDS[0]) && Matches(c, w, site, KINDS[1])
           && Matches(c, w, site, KINDS[2]) && Matches(c, w, site, KINDS[3]);
    RenderedConfigured(c, site);
    RenderedRuns(c, site);
    RenderedServes(c, site);
    RenderedRoutes(c, site);
    IsRunning(c, w, site);
  }

  lemma IsRunning(c: Config, w: World, site: Site)
    requires Configured(c, site, PHPConfigMap(c, site)) && Runs(c, site, SiteDeployment(c, site))
    requires Serves(site, SiteService(site), SiteDeployment(c, site)) && Routes(c, site, SiteIngress(c, site))
    requires Matches(c, w, site, ConfigMapKind) && Matches(c, w, site, DeploymentKind)
    requires Matches(c, w, site, ServiceKind) && Matches(c, w, site, IngressKind)
    ensures Running(c, w, site)
  { }

  /** After one fault-free reconcile of a live site, suspended or not, everything its spec says is there;
      while it is suspended nothing of it runs. */
  lemma ReconciledIsRunning(c: Config, w: World, n: string, o: Oracle)
    requires Calm(o) && Live(w, n) && (w.sites[n].spec.suspend || UsableNames(w.sites[n]))
    ensures var w' := Reconciled(c, w, n, o);
            && n in w'.sites && w'.sites[n].spec == w.sites[n].spec && Running(c, w', w'.sites[n])
            && w'.sites[n].status.phase == (if w.sites[n].spec.suspend then Suspended else Ready)
  {
    if w.sites[n].spec.suspend { RecoverSuspended(c, w, n, o); } else { Recover(c, w, n, o); }
    ShownIsRunning(c, Reconciled(c, w, n, o), Reconciled(c, w, n, o).sites[n]);
  }

  /** And so it is in every reachable state in which a site as in HonestReady is Ready for its current
      generation. */
  lemma ReadyIsRunning(c: Config, names: set<string>, before: seq<Move>, birth: System, since: seq<Move>, s: System, n: string)
    requires Unadopted(c, names, before, birth, since, s, n)
    ensures n in s.w.sites && UpToDate(s.w.sites[n]) ==> Running(c, s.w, s.w.sites[n])
  {
    if n in s.w.sites && UpToDate(s.w.sites[n]) {
      HonestReady(c, names, before, birth, since, s, n);
      forall j | 0 <= j < 4 && j < |KINDS| ensures Matches(c, s.w, s.w.sites[n], KINDS[j]) { }
      ShownIsRunning(c, s.w, s.w.sites[n]);
    }
  }

  /** Two sites without a folder of their own choice never share one. */
  lemma FoldersAreApart(c: Config, a: Site, b: Site)
    requires a.name != b.name && a.spec.storage.subPath == "" && b.spec.storage.subPath == ""
    ensures var x, y := SiteDeployment(c, a).container.mounts, SiteDeployment(c, b).container.mounts;
            forall m, k :: m in x && k in y && m.volume == "site-data" && k.volume == "site-data" ==> m.subPath != k.subPath
  {
    FilesAreIn(c, a);
    FilesAreIn(c, b);
  }

  /** The ConfigMap comes before the Deployment that mounts it: whatever a reconcile in flight does to the
      stored Deployment, the ConfigMap it renders is stored already. */
  lemma ConfigMapComesFirst(c: Config, s: System, n: string, k: Tick)
    requires BaseAt(s, n) && HonorAt(c, s, n) && !s.ctl[n].pc.Stopped?
    requires ChildOf(Effect(c, s.w, s.ctl[n].pc, k).0, n, DeploymentKind) != ChildOf(s.w, n, DeploymentKind)
    ensures Matches(c, s.w, s.ctl[n].pc.site, ConfigMapKind)
  {
    var pc := s.ctl[n].pc;
    if pc.Apply? && pc.next < 4 {
      if KINDS[pc.next] == DeploymentKind {
        assert Matches(c, s.w, pc.site, KINDS[0]);
      } else {
        ApplyTouches(c, s.w, pc.site, pc.next, k);
      }
    } else {
      OthersTouchNoChild(c, s.w, pc, k);
    }
  }

  lemma ApplyTouches(c: Config, w: World, l: Site, next: nat, k: Tick)
    requires next < 4 && KINDS[next] != DeploymentKind
    ensures ChildOf(DoApply(c, w, l, next, k).0, l.name, DeploymentKind) == ChildOf(w, l.name, DeploymentKind)
  { }

  lemma WritesTouchNoChild(w: World, l: Site, phase: Phase, message: string, k: Tick)
    ensures DoAddFinalizer(w, l, k).0.children == w.children && DoRemoveFinalizer(w, l, k).0.children == w.children
    ensures DoWriteStatus(w, l, phase, message, k).0.children == w.children
  { }

  lemma SqlTouchesNoChild(w: World, s: Statement, o: Outcome)
    ensures Respond(w, ExecuteSql(w, s), o).0.children == w.children
  { }

  lemma OthersTouchNoChild(c: Config, w: World, pc: Pc, k: Tick)
    requires pc.Apply? ==> pc.next >= 4
    ensures Effect(c, w, pc, k).0.children == w.children
  {
    match pc
    case AddFinalizer(l) => WritesTouchNoChild(w, l, Error, "", k);
    case RemoveFinalizer(l) => WritesTouchNoChild(w, l, Error, "", k);
    case WriteStatus(l, phase, message) => WritesTouchNoChild(w, l, phase, message, k);
    case RunSql(l, password, next) => if next < 5 { SqlTouchesNoChild(w, EnsureOf(l, password)[next], k.outcome); }
    case DropSql(l, next) => if next < 3 { SqlTouchesNoChild(w, DropOf(l)[next], k.outcome); }
    case _ =>
  }
}
