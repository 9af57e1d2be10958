/** The WordPressSite custom resource and the objects rendered from it
    (api/v1alpha1/wordpresssite_types.go and the Kubernetes types the builders fill in). */
module Api {
  import opened Wrappers

  const FINALIZER := "wp.benji.dev/finalizer"

  datatype EnvVar =
    | EnvValue(name: string, value: string)
    | EnvSecret(name: string, secret: string, key: string)

  datatype StorageSpec = StorageSpec(sharedPVCName: string, subPath: string)

  datatype DatabaseSpec = DatabaseSpec(name: string, user: string, host: string)

  datatype TLSSpec = TLSSpec(enabled: bool, issuer: string, secretName: string)

  datatype Spec = Spec(
    domain: string,
    aliases: seq<string>,
    image: string,
    replicas: Option<int>,
    resources: map<string, string>,
    storage: StorageSpec,
    database: DatabaseSpec,
    tls: TLSSpec,
    ingressClassName: string,
    ingressAnnotations: map<string, string>,
    env: seq<EnvVar>,
    phpConfig: string,
    phpIni: string,
    tablePrefix: string,
    forceHTTPS: Option<bool>,
    suspend: bool)

  /** `Unset` is the empty phase of a site no reconcile has reported on. */
  datatype Phase = Unset | Pending | Provisioning | Ready | Suspended | Error

  datatype Condition = Condition(
    kind: string,
    status: bool,
    reason: Phase,
    message: string,
    observedGeneration: int,
    lastTransitionTime: int)

  datatype Status = Status(
    phase: Phase,
    url: string,
    databaseName: string,
    databaseUser: string,
    secretName: string,
    observedGeneration: int,
    conditions: seq<Condition>)

  const EMPTY_STATUS := Status(Unset, "", "", "", "", 0, [])

  /** One stored version of a site. `uid` identifies the incarnation, `resourceVersion` the version. */
  datatype Site = Site(
    namespace: string,
    name: string,
    uid: nat,
    resourceVersion: nat,
    generation: nat,
    annotations: map<string, string>,
    finalizers: set<string>,
    deleting: bool,
    spec: Spec,
    status: Status)

  datatype Meta = Meta(
    name: string,
    namespace: string,
    labels: map<string, string>,
    annotations: map<string, string>)

  datatype Probe = Probe(path: string, port: int, initialDelay: int, period: int, timeout: int, failures: int)

  datatype Mount = Mount(volume: string, path: string, subPath: string, readOnly: bool)

  datatype Volume = ClaimVolume(name: string, claim: string) | ConfigMapVolume(name: string, configMap: string)

  /** The one postStart hook the operator installs; PostStart.dfy models what it does. */
  datatype Hook = InsertForwardedProto

  datatype Container = Container(
    name: string,
    image: string,
    portName: string,
    port: int,
    env: seq<EnvVar>,
    mounts: seq<Mount>,
    resources: map<string, string>,
    readiness: Probe,
    liveness: Probe,
    postStart: Option<Hook>)

  datatype IngressRule = IngressRule(host: string, path: string, backend: string, port: int)

  datatype IngressTLS = IngressTLS(hosts: seq<string>, secretName: string)

  /** The four child objects applied by the operator. */
  datatype Child =
    | ConfigMap(meta: Meta, data: map<string, string>)
    | Deployment(meta: Meta, replicas: int, selector: map<string, string>, strategy: string,
                 podLabels: map<string, string>, podAnnotations: map<string, string>,
                 container: Container, volumes: seq<Volume>)
    | Service(meta: Meta, kind: string, selector: map<string, string>,
              portName: string, port: int, targetPort: int)
    | Ingress(meta: Meta, className: string, rules: seq<IngressRule>, tls: seq<IngressTLS>)

  datatype Kind = ConfigMapKind | DeploymentKind | ServiceKind | IngressKind

  /** Operator start-up settings. `phpIniHash` stands for the truncated SHA-256 digest. */
  datatype Config = Config(
    dbHost: string,
    dbPort: string,
    defaultPVC: string,
    defaultIngressClass: string,
    defaultPhpIni: string,
    phpIniHash: string -> string,
    dropDataOnDelete: bool)
}
