/** The objects rendered from a site (internal/resources: deployment.go, service.go,
    ingress.go, configmap.go). */
module Resources {
  import opened Api
  import opened Names
  import opened Wrappers

  const DEFAULT_IMAGE := "wordpress:latest"
  const DB_PASSWORD_KEY := "WORDPRESS_DB_PASSWORD"
  const SALT_KEYS: seq<string> := [
    "WORDPRESS_AUTH_KEY", "WORDPRESS_SECURE_AUTH_KEY", "WORDPRESS_LOGGED_IN_KEY", "WORDPRESS_NONCE_KEY",
    "WORDPRESS_AUTH_SALT", "WORDPRESS_SECURE_AUTH_SALT", "WORDPRESS_LOGGED_IN_SALT", "WORDPRESS_NONCE_SALT"]
  const SITE_LABEL := "wp.benji.dev/site"
  const PHP_INI_FILE := "zz-wpmgr.ini"
  const PHP_MOUNT := "/usr/local/etc/php/conf.d/zz-wpmgr.ini"
  const FORWARDED_PROTO_FILE := "forwarded-proto.php"
  const FORWARDED_PROTO_MOUNT := "/etc/wpmgr/forwarded-proto.php"
  const FORCE_HTTPS_SNIPPET := "$_SERVER['HTTP_X_FORWARDED_PROTO']" + " = 'https';"
  const FORWARDED_PROTO_MARKER := "wpmgr-forwarded-proto"
  const HASH_ANNOTATION := "wp.benji.dev/php-ini-hash"
  const ISSUER_ANNOTATION := "cert-manager.io/cluster-issuer"
  const BODY_SIZE_ANNOTATION := "nginx.ingress.kubernetes.io/proxy-body-size"

  function Labels(site: Site): map<string, string> {
    map[
      "app.kubernetes.io/managed-by" := "wordpress-manager-operator",
      "app.kubernetes.io/name" := "wordpress",
      "app.kubernetes.io/instance" := site.name,
      SITE_LABEL := site.name]
  }

  function Selector(site: Site): map<string, string> { map[SITE_LABEL := site.name] }

  function MetaOf(site: Site, name: string, annotations: map<string, string>): Meta {
    Meta(name, site.namespace, Labels(site), annotations)
  }

  function PHPConfigMapName(site: Site): string { site.name + "-php" }

  function EffectivePHPIni(c: Config, site: Site): string {
    if site.spec.phpIni != "" then site.spec.phpIni else c.defaultPhpIni
  }

  function SharedPVCName(c: Config, site: Site): string {
    if site.spec.storage.sharedPVCName != "" then site.spec.storage.sharedPVCName else c.defaultPVC
  }

  function ForceHTTPSEnabled(site: Site): bool {
    site.spec.forceHTTPS.None? || site.spec.forceHTTPS.value
  }

  function ForwardedProtoLine(): string { FORCE_HTTPS_SNIPPET + " // " + FORWARDED_PROTO_MARKER }

  function PHPConfigMap(c: Config, site: Site): Child {
    ConfigMap(
      MetaOf(site, PHPConfigMapName(site), map[]),
      map[PHP_INI_FILE := EffectivePHPIni(c, site), FORWARDED_PROTO_FILE := ForwardedProtoLine() + "\n"])
  }

  function SecretEnv(site: Site, key: string): EnvVar { EnvSecret(key, SecretName(site), key) }

  /** The environment the operator generates, before the user's own variables. */
  function GeneratedEnv(c: Config, site: Site): seq<EnvVar> {
    [ EnvValue("WORDPRESS_DB_HOST", c.dbHost + ":" + c.dbPort),
      EnvValue("WORDPRESS_DB_NAME", DatabaseName(site)),
      EnvValue("WORDPRESS_DB_USER", DatabaseUser(site)),
      EnvValue("WORDPRESS_TABLE_PREFIX", if site.spec.tablePrefix == "" then "wp_" else site.spec.tablePrefix),
      SecretEnv(site, DB_PASSWORD_KEY) ]
    + seq(|SALT_KEYS|, i requires 0 <= i < |SALT_KEYS| => SecretEnv(site, SALT_KEYS[i]))
    + if site.spec.phpConfig != "" then [EnvValue("WORDPRESS_CONFIG_EXTRA", site.spec.phpConfig)] else []
  }

  function Replicas(site: Site): int {
    if site.spec.suspend then 0 else if site.spec.replicas.Some? then site.spec.replicas.value else 1
  }

  function Mounts(site: Site): seq<Mount> {
    [ Mount("site-data", "/var/www/html", SubPath(site), false),
      Mount("php-config", PHP_MOUNT, PHP_INI_FILE, true) ]
    + if ForceHTTPSEnabled(site) then
        [Mount("php-config", FORWARDED_PROTO_MOUNT, FORWARDED_PROTO_FILE, true)]
      else []
  }

  function Volumes(c: Config, site: Site): seq<Volume> {
    [ ClaimVolume("site-data", SharedPVCName(c, site)), ConfigMapVolume("php-config", PHPConfigMapName(site)) ]
  }

  function LoginProbe(initial: int): Probe { Probe("/wp-login.php", 80, initial, 15, 5, 6) }

  function SiteDeployment(c: Config, site: Site): Child {
    Deployment(
      MetaOf(site, site.name, map[]),
      Replicas(site),
      Selector(site),
      "Recreate",
      Labels(site),
      map[HASH_ANNOTATION := c.phpIniHash(EffectivePHPIni(c, site))],
      Container(
        "wordpress",
        if site.spec.image == "" then DEFAULT_IMAGE else site.spec.image,
        "http", 80,
        GeneratedEnv(c, site) + site.spec.env,
        Mounts(site),
        site.spec.resources,
        LoginProbe(20), LoginProbe(60),
        if ForceHTTPSEnabled(site) then Some(InsertForwardedProto) else None),
      Volumes(c, site))
  }

  function SiteService(site: Site): Child {
    Service(MetaOf(site, site.name, map[]), "ClusterIP", Selector(site), "http", 80, 80)
  }

  function IngressAnnotations(site: Site): map<string, string> {
    map[BODY_SIZE_ANNOTATION := "256m"]
    + (if site.spec.tls.enabled && site.spec.tls.issuer != "" then map[ISSUER_ANNOTATION := site.spec.tls.issuer]
       else map[])
    + site.spec.ingressAnnotations
  }

  function RuleFor(site: Site, host: string): IngressRule { IngressRule(host, "/", site.name, 80) }

  function Rules(site: Site): seq<IngressRule> {
    seq(|Hosts(site)|, i requires 0 <= i < |Hosts(site)| => RuleFor(site, Hosts(site)[i]))
  }

  function SiteIngress(c: Config, site: Site): Child {
    Ingress(
      MetaOf(site, site.name, IngressAnnotations(site)),
      if site.spec.ingressClassName == "" then c.defaultIngressClass else site.spec.ingressClassName,
      Rules(site),
      if site.spec.tls.enabled then [IngressTLS(Hosts(site), TLSSecretName(site))] else [])
  }

  function Desired(c: Config, site: Site, kind: Kind): Child {
    match kind
    case ConfigMapKind => PHPConfigMap(c, site)
    case DeploymentKind => SiteDeployment(c, site)
    case ServiceKind => SiteService(site)
    case IngressKind => SiteIngress(c, site)
  }

  function ChildName(name: string, kind: Kind): string {
    if kind == ConfigMapKind then name + "-php" else name
  }

  // ---- the builders with loops, in the form of the program ----

  method DesiredDeployment(c: Config, site: Site) returns (d: Child)
    ensures d == SiteDeployment(c, site)
  {
    var image := site.spec.image;
    if image == "" { image := DEFAULT_IMAGE; }
    var tablePrefix := site.spec.tablePrefix;
    if tablePrefix == "" { tablePrefix := "wp_"; }
    var replicas := 1;
    if site.spec.replicas.Some? { replicas := site.spec.replicas.value; }
    if site.spec.suspend { replicas := 0; }

    var env := [
      EnvValue("WORDPRESS_DB_HOST", c.dbHost + ":" + c.dbPort),
      EnvValue("WORDPRESS_DB_NAME", DatabaseName(site)),
      EnvValue("WORDPRESS_DB_USER", DatabaseUser(site)),
      EnvValue("WORDPRESS_TABLE_PREFIX", tablePrefix),
      SecretEnv(site, DB_PASSWORD_KEY)];
    ghost var fixed := env;
    for i := 0 to |SALT_KEYS|
      invariant env == fixed + seq(i, j requires 0 <= j < i => SecretEnv(site, SALT_KEYS[j]))
    {
      env := env + [SecretEnv(site, SALT_KEYS[i])];
    }
    if site.spec.phpConfig != "" {
      env := env + [EnvValue("WORDPRESS_CONFIG_EXTRA", site.spec.phpConfig)];
    }
    assert env == GeneratedEnv(c, site);
    env := env + site.spec.env;

    var mounts := [Mount("site-data", "/var/www/html", SubPath(site), false)];
    var volumes := [ClaimVolume("site-data", SharedPVCName(c, site))];
    mounts := mounts + [Mount("php-config", PHP_MOUNT, PHP_INI_FILE, true)];
    volumes := volumes + [ConfigMapVolume("php-config", PHPConfigMapName(site))];
    var lifecycle := None;
    if ForceHTTPSEnabled(site) {
      mounts := mounts + [Mount("php-config", FORWARDED_PROTO_MOUNT, FORWARDED_PROTO_FILE, true)];
      lifecycle := Some(InsertForwardedProto);
    }
    assert mounts == Mounts(site);
    assert volumes == Volumes(c, site);

    d := Deployment(
      MetaOf(site, site.name, map[]), replicas, Selector(site), "Recreate",
      Labels(site), map[HASH_ANNOTATION := c.phpIniHash(EffectivePHPIni(c, site))],
      Container("wordpress", image, "http", 80, env, mounts, site.spec.resources,
                LoginProbe(20), LoginProbe(60), lifecycle),
      volumes);
  }

  method DesiredIngress(c: Config, site: Site) returns (ing: Child)
    ensures ing == SiteIngress(c, site)
  {
    var className := site.spec.ingressClassName;
    if className == "" { className := c.defaultIngressClass; }
    var annotations := map[BODY_SIZE_ANNOTATION := "256m"];
    if site.spec.tls.enabled && site.spec.tls.issuer != "" {
      annotations := annotations[ISSUER_ANNOTATION := site.spec.tls.issuer];
    }
    annotations := annotations + site.spec.ingressAnnotations;
    assert annotations == IngressAnnotations(site);

    var hosts := Hosts(site);
    var rules := [];
    for i := 0 to |hosts|
      invariant rules == seq(i, j requires 0 <= j < i => RuleFor(site, hosts[j]))
    {
      rules := rules + [RuleFor(site, hosts[i])];
    }
    var tls := [];
    if site.spec.tls.enabled {
      tls := [IngressTLS(hosts, TLSSecretName(site))];
    }
    ing := Ingress(MetaOf(site, site.name, annotations), className, rules, tls);
  }
}
