/** The rendered objects fit together, whatever the spec. */
module Rendering {
  import opened Api
  import opened Credentials
  import opened Names
  import opened Operator
  import opened Resources
  import opened Wrappers

  ghost predicate SelectedBy(selector: map<string, string>, labels: map<string, string>) {
    forall k :: k in selector ==> k in labels && labels[k] == selector[k]
  }

  /** Every mount names a volume of the pod; a file mounted from the ConfigMap is one of its keys. */
  ghost predicate MountResolves(m: Mount, volumes: seq<Volume>, configMap: Child) {
    exists i :: 0 <= i < |volumes| && volumes[i].name == m.volume
                && (volumes[i].ConfigMapVolume? ==>
                      configMap.ConfigMap? && volumes[i].configMap == configMap.meta.name && m.subPath in configMap.data)
  }

  lemma TrafficReachesPods(c: Config, site: Site)
    ensures var d, s, ing := SiteDeployment(c, site), SiteService(site), SiteIngress(c, site);
            && |ing.rules| == 1 + |site.spec.aliases|
            && (forall i :: 0 <= i < |ing.rules| ==> ing.rules[i].backend == s.meta.name && ing.rules[i].port == s.port)
            && SelectedBy(s.selector, d.podLabels) && SelectedBy(d.selector, d.podLabels)
            && s.targetPort == d.container.port
            && (forall h :: h in Hosts(site) ==> exists i :: 0 <= i < |ing.rules| && ing.rules[i].host == h)
            && (if site.spec.tls.enabled then |ing.tls| == 1 && ing.tls[0].hosts == Hosts(site) else ing.tls == [])
  {
    var ing := SiteIngress(c, site);
    forall h | h in Hosts(site) ensures exists i :: 0 <= i < |ing.rules| && ing.rules[i].host == h {
      var i :| 0 <= i < |Hosts(site)| && Hosts(site)[i] == h;
      assert ing.rules[i].host == h;
    }
  }

  lemma FilesAreMounted(c: Config, site: Site)
    ensures var d := SiteDeployment(c, site);
            && (forall i :: 0 <= i < |d.container.mounts| ==>
                  MountResolves(d.container.mounts[i], d.volumes, PHPConfigMap(c, site)))
            && (d.container.postStart.Some? <==>
                  exists i :: 0 <= i < |d.container.mounts| && d.container.mounts[i].path == FORWARDED_PROTO_MOUNT)
  {
    var ms, vs := Mounts(site), Volumes(c, site);
    assert vs[0].name == "site-data" && vs[1].name == "php-config";
    assert ms[0].path[0] == '/' && ms[0].path[1] == 'v' && ms[1].path[1] == 'u' && FORWARDED_PROTO_MOUNT[1] == 'e';
    if ForceHTTPSEnabled(site) { assert ms[2].path == FORWARDED_PROTO_MOUNT; }
  }

  lemma SecretVariables(c: Config, site: Site)
    ensures var env := GeneratedEnv(c, site);
            && |env| >= 13 && env[4] == SecretEnv(site, DB_PASSWORD_KEY)
            && (forall i :: 0 <= i < 8 ==> env[5 + i] == SecretEnv(site, SALT_KEYS[i]))
            && (forall i :: 0 <= i < 4 || 13 <= i < |env| ==> !env[i].EnvSecret?)
  { }

  lemma OnlyOwnCredentials(c: Config, site: Site, i: nat)
    requires i < |GeneratedEnv(c, site)| && GeneratedEnv(c, site)[i].EnvSecret?
    ensures var v := GeneratedEnv(c, site)[i]; v.secret == SecretKey(site.name) && v.key in CredentialKeys() && v.name == v.key
  {
    SecretVariables(c, site);
    if i > 4 { assert GeneratedEnv(c, site)[5 + (i - 5)] == SecretEnv(site, SALT_KEYS[i - 5]); }
  }

  lemma EveryCredential(c: Config, site: Site, k: string)
    requires k in CredentialKeys()
    ensures EnvSecret(k, SecretKey(site.name), k) in GeneratedEnv(c, site)
  {
    SecretVariables(c, site);
    if k != DB_PASSWORD_KEY {
      var i :| 0 <= i < |SALT_KEYS| && SALT_KEYS[i] == k;
      assert GeneratedEnv(c, site)[5 + i] == SecretEnv(site, k);
    }
  }

  /** Every credential the container reads comes from the site's own Secret, under a key the Secret
      always has. */
  lemma CredentialsComeFromOwnSecret(c: Config, site: Site)
    ensures var env := GeneratedEnv(c, site);
            forall i :: 0 <= i < |env| && env[i].EnvSecret? ==>
              env[i].secret == SecretKey(site.name) && env[i].key in CredentialKeys() && env[i].name == env[i].key
    ensures forall k :: k in CredentialKeys() ==> EnvSecret(k, SecretKey(site.name), k) in GeneratedEnv(c, site)
  {
    var env := GeneratedEnv(c, site);
    forall i | 0 <= i < |env| && env[i].EnvSecret?
      ensures env[i].secret == SecretKey(site.name) && env[i].key in CredentialKeys() && env[i].name == env[i].key
    {
      OnlyOwnCredentials(c, site, i);
    }
    forall k | k in CredentialKeys() ensures EnvSecret(k, SecretKey(site.name), k) in env { EveryCredential(c, site, k); }
  }

  /** The variable the container sees: of several of the same name the last one counts. */
  function Effective(env: seq<EnvVar>, name: string): Option<EnvVar> {
    if env == [] then None
    else if env[|env| - 1].name == name then Some(env[|env| - 1])
    else Effective(env[..|env| - 1], name)
  }

  lemma {:induction false} EffectiveOfConcat(a: seq<EnvVar>, b: seq<EnvVar>, name: string)
    ensures Effective(a + b, name) == if Effective(b, name).Some? then Effective(b, name) else Effective(a, name)
    decreases |b|
  {
    if b == [] {
      assert a + b == a;
    } else {
      assert (a + b)[..|a + b| - 1] == a + b[..|b| - 1];
      EffectiveOfConcat(a, b[..|b| - 1], name);
    }
  }

  /** Where names may repeat, as on the client-side path, user-supplied environment wins, and extends. */
  lemma UserEnvWins(c: Config, site: Site, name: string)
    ensures Effective(SiteDeployment(c, site).container.env, name)
            == if Effective(site.spec.env, name).Some? then Effective(site.spec.env, name)
               else Effective(GeneratedEnv(c, site), name)
  {
    EffectiveOfConcat(GeneratedEnv(c, site), site.spec.env, name);
  }

  ghost predicate DistinctNames(env: seq<EnvVar>) { forall i, j :: 0 <= i < j < |env| ==> env[i].name != env[j].name }

  ghost predicate Named(env: seq<EnvVar>, name: string) { exists i :: 0 <= i < |env| && env[i].name == name }

  /** The position a generated variable has, read off the length and two letters of its name. */
  function Position(name: string): nat {
    if |name| == 17 then (if name[13] == 'H' then 0 else if name[13] == 'N' then 1 else 2)
    else if |name| == 22 then (if name[10] == 'T' then 3 else 13)
    else if |name| == 21 then 4
    else if |name| == 18 then 5
    else if |name| == 25 then 6
    else if |name| == 23 then 7
    else if |name| == 19 then (if name[10] == 'N' then 8 else 9)
    else if |name| == 26 then 10
    else if |name| == 24 then 11
    else 12
  }

  lemma SaltPositions(i: nat)
    requires i < |SALT_KEYS|
    ensures Position(SALT_KEYS[i]) == 5 + i
  { }

  lemma GeneratedPositions(c: Config, site: Site)
    ensures var env := GeneratedEnv(c, site);
            && |env| == (if site.spec.phpConfig == "" then 13 else 14)
            && forall i :: 0 <= i < |env| ==> Position(env[i].name) == i
  {
    var env := GeneratedEnv(c, site);
    forall i | 0 <= i < |env| ensures Position(env[i].name) == i {
      if 5 <= i < 13 {
        assert env[i] == SecretEnv(site, SALT_KEYS[i - 5]);
        SaltPositions(i - 5);
      }
    }
  }

  lemma GeneratedIsDistinct(c: Config, site: Site)
    ensures DistinctNames(GeneratedEnv(c, site))
  {
    GeneratedPositions(c, site);
  }

  /** Server-Side Apply refuses a container that names a variable twice: the rendered one is acceptable
      exactly when the user's variables are distinct and none has a generated name. */
  lemma EnvIsApplicableIff(c: Config, site: Site)
    ensures DistinctNames(SiteDeployment(c, site).container.env) <==>
            && DistinctNames(site.spec.env)
            && forall j :: 0 <= j < |site.spec.env| ==> !Named(GeneratedEnv(c, site), site.spec.env[j].name)
  {
    GeneratedIsDistinct(c, site);
    DistinctConcat(GeneratedEnv(c, site), site.spec.env);
  }

  lemma DistinctConcat(a: seq<EnvVar>, b: seq<EnvVar>)
    ensures DistinctNames(a + b) <==>
            DistinctNames(a) && DistinctNames(b) && forall j :: 0 <= j < |b| ==> !Named(a, b[j].name)
  {
    var e := a + b;
    if DistinctNames(e) {
      forall i, j | 0 <= i < j < |a| ensures a[i].name != a[j].name { assert e[i].name != e[j].name; }
      forall i, j | 0 <= i < j < |b| ensures b[i].name != b[j].name { assert e[|a| + i].name != e[|a| + j].name; }
      forall i, j | 0 <= i < |a| && 0 <= j < |b| ensures a[i].name != b[j].name { assert e[i].name != e[|a| + j].name; }
    }
  }

  // ---- What the container is told ----

  /** No variable has one of these names. */
  predicate Leaves(env: seq<EnvVar>, names: set<string>) { forall v :: v in env ==> v.name !in names }

  lemma {:induction false} NoneEffective(env: seq<EnvVar>, name: string)
    requires forall v :: v in env ==> v.name != name
    ensures Effective(env, name) == None
  {
    if env != [] { NoneEffective(env[..|env| - 1], name); }
  }

  lemma {:induction false} EffectiveAt(env: seq<EnvVar>, i: nat)
    requires DistinctNames(env) && i < |env|
    ensures Effective(env, env[i].name) == Some(env[i])
  {
    if i < |env| - 1 {
      assert env[i].name != env[|env| - 1].name;
      EffectiveAt(env[..|env| - 1], i);
    }
  }

  /** A generated variable is what the container sees, if the user has none of its name. */
  lemma GeneratedIsSeen(c: Config, site: Site, i: nat)
    requires i < |GeneratedEnv(c, site)| && forall v :: v in site.spec.env ==> v.name != GeneratedEnv(c, site)[i].name
    ensures var v := GeneratedEnv(c, site)[i];
            Effective(SiteDeployment(c, site).container.env, v.name) == Some(v)
  {
    var v := GeneratedEnv(c, site)[i];
    UserEnvWins(c, site, v.name);
    NoneEffective(site.spec.env, v.name);
    GeneratedIsDistinct(c, site);
    EffectiveAt(GeneratedEnv(c, site), i);
  }

  lemma LoginVariables(c: Config, site: Site)
    requires Leaves(site.spec.env, {"WORDPRESS_DB_HOST", "WORDPRESS_DB_NAME", "WORDPRESS_DB_USER", "WORDPRESS_DB_PASSWORD"})
    ensures var env := SiteDeployment(c, site).container.env;
            && Effective(env, "WORDPRESS_DB_HOST") == Some(EnvValue("WORDPRESS_DB_HOST", c.dbHost + ":" + c.dbPort))
            && Effective(env, "WORDPRESS_DB_NAME") == Some(EnvValue("WORDPRESS_DB_NAME", DatabaseName(site)))
            && Effective(env, "WORDPRESS_DB_USER") == Some(EnvValue("WORDPRESS_DB_USER", DatabaseUser(site)))
            && Effective(env, "WORDPRESS_DB_PASSWORD")
               == Some(EnvSecret("WORDPRESS_DB_PASSWORD", site.name + "-wp", "WORDPRESS_DB_PASSWORD"))
  {
    GeneratedIsSeen(c, site, 0);
    GeneratedIsSeen(c, site, 1);
    GeneratedIsSeen(c, site, 2);
    SecretVariables(c, site);
    GeneratedIsSeen(c, site, 4);
  }
}
