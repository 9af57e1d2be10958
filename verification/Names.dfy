/** Derived names (internal/resources/names.go). */
module Names {
  import opened Api

  const MAX_DATABASE := 64
  const MAX_USER := 32

  /** strings.ToLower on one rune, as far as the result can be ASCII: besides A-Z only
      the Kelvin sign and the dotted capital I lower-case to an ASCII letter. */
  function LowerRune(c: char): char {
    if 'A' <= c <= 'Z' then (c as int + 32) as char
    else if c == '\U{212A}' then 'k'
    else if c == '\U{0130}' then 'i'
    else c
  }

  predicate TokenRune(c: char) { 'a' <= c <= 'z' || '0' <= c <= '9' || c == '_' }

  function SanitizeRune(c: char): char {
    var l := LowerRune(c);
    if TokenRune(l) then l else '_'
  }

  function MapSanitize(s: string): (r: string)
    ensures |r| == |s|
  {
    seq(|s|, i requires 0 <= i < |s| => SanitizeRune(s[i]))
  }

  function TrimLeft(s: string): string {
    if s != "" && s[0] == '_' then TrimLeft(s[1..]) else s
  }

  function TrimRight(s: string): string {
    if s != "" && s[|s| - 1] == '_' then TrimRight(s[..|s| - 1]) else s
  }

  function Sanitize(name: string): string { TrimRight(TrimLeft(MapSanitize(name))) }

  function Truncate(s: string, n: nat): (r: string)
    ensures |r| <= n && r <= s && (|s| <= n ==> r == s) && (n < |s| ==> |r| == n)
  {
    if |s| <= n then s else s[..n]
  }

  function DatabaseNameFor(name: string, db: DatabaseSpec): string {
    if db.name != "" then db.name else Truncate("wp_" + Sanitize(name), MAX_DATABASE)
  }

  function DatabaseUserFor(name: string, db: DatabaseSpec): string {
    if db.user != "" then db.user else Truncate("wpu_" + Sanitize(name), MAX_USER)
  }

  function DatabaseHostFor(db: DatabaseSpec): string { if db.host != "" then db.host else "%" }

  function DatabaseName(site: Site): string { DatabaseNameFor(site.name, site.spec.database) }

  function DatabaseUser(site: Site): string { DatabaseUserFor(site.name, site.spec.database) }

  function DatabaseHost(site: Site): string { DatabaseHostFor(site.spec.database) }

  function SecretName(site: Site): string { site.name + "-wp" }

  function SubPath(site: Site): string {
    if site.spec.storage.subPath != "" then site.spec.storage.subPath else site.name
  }

  function TLSSecretName(site: Site): string {
    if site.spec.tls.secretName != "" then site.spec.tls.secretName else site.name + "-tls"
  }

  function Hosts(site: Site): seq<string> { [site.spec.domain] + site.spec.aliases }

  function URL(site: Site): string {
    (if site.spec.tls.enabled then "https" else "http") + "://" + site.spec.domain
  }

  /** validateIdent of internal/mysql/provisioner.go: 1..64 word characters. */
  predicate IdentRune(c: char) {
    'a' <= c <= 'z' || 'A' <= c <= 'Z' || '0' <= c <= '9' || c == '_'
  }

  predicate ValidIdent(s: string) {
    0 < |s| <= 64 && forall i :: 0 <= i < |s| ==> IdentRune(s[i])
  }

  /** No per-site override of the generated database, user or host. */
  predicate NoOverrides(db: DatabaseSpec) { db.name == "" && db.user == "" && db.host in {"", "%"} }

  /** A label in the sense of section 2.1 of RFC 1123, lower-case, of at most 63 characters. */
  predicate LabelRune(c: char) { 'a' <= c <= 'z' || '0' <= c <= '9' || c == '-' }

  predicate Label(s: string) {
    && 0 < |s| <= 63
    && (forall i :: 0 <= i < |s| ==> LabelRune(s[i]))
    && s[0] != '-' && s[|s| - 1] != '-'
  }

  /** A subdomain in the sense of RFC 1123, section 2.1, as Kubernetes asks of a name: labels joined by dots. */
  predicate Subdomain(s: string) {
    && 0 < |s| <= 253
    && (forall i :: 0 <= i < |s| ==> LabelRune(s[i]) || s[i] == '.')
    && Alphanumeric(s, 0) && Alphanumeric(s, |s| - 1)
    && (forall i :: 0 < i < |s| - 1 && s[i] == '.' ==> Alphanumeric(s, i - 1) && Alphanumeric(s, i + 1))
  }

  predicate Alphanumeric(s: string, i: int)
    requires 0 <= i < |s|
  {
    s[i] != '-' && s[i] != '.'
  }

  /** The name with '.' read as '-'. */
  function Dashed(s: string): (r: string)
    ensures |r| == |s|
  {
    seq(|s|, i requires 0 <= i < |s| => if s[i] == '.' then '-' else s[i])
  }

  ghost predicate Tokens(s: string) { forall i :: 0 <= i < |s| ==> TokenRune(s[i]) }

  lemma {:induction false} TrimKeepsTokens(s: string)
    requires Tokens(s)
    ensures Tokens(TrimLeft(s)) && Tokens(TrimRight(s))
    decreases |s|
  {
    if s != "" {
      TrimKeepsTokens(s[1..]);
      TrimKeepsTokens(s[..|s| - 1]);
    }
  }

  lemma SanitizeYieldsTokens(name: string)
    ensures Tokens(Sanitize(name))
  {
    TrimKeepsTokens(MapSanitize(name));
    TrimKeepsTokens(TrimLeft(MapSanitize(name)));
  }

  lemma TruncatedTokensAreIdent(prefix: string, s: string, n: nat)
    requires prefix != "" && Tokens(prefix) && Tokens(s) && 0 < n <= 64
    ensures ValidIdent(Truncate(prefix + s, n))
  { }

  /** Whatever a site is called, the generated names pass the provisioner's own validation
      and respect the server's length limits, so neither path can stall on a name. */
  lemma DerivedNamesAreUsable(name: string, db: DatabaseSpec)
    requires db.name == "" && db.user == ""
    ensures ValidIdent(DatabaseNameFor(name, db)) && |DatabaseNameFor(name, db)| <= MAX_DATABASE
    ensures ValidIdent(DatabaseUserFor(name, db)) && |DatabaseUserFor(name, db)| <= MAX_USER
  {
    SanitizeYieldsTokens(name);
    TruncatedTokensAreIdent("wp_", Sanitize(name), MAX_DATABASE);
    TruncatedTokensAreIdent("wpu_", Sanitize(name), MAX_USER);
  }

  lemma SanitizeName(s: string)
    requires Subdomain(s)
    ensures |Sanitize(s)| == |s|
    ensures forall i :: 0 <= i < |s| ==> Sanitize(s)[i] == if s[i] == '-' || s[i] == '.' then '_' else s[i]
  { }

  lemma LabelIsSubdomain(s: string)
    requires Label(s)
    ensures Subdomain(s) && Dashed(s) == s
  { }

  lemma SanitizeIff(a: string, b: string)
    requires Subdomain(a) && Subdomain(b)
    ensures Sanitize(a) == Sanitize(b) <==> Dashed(a) == Dashed(b)
  {
    SanitizeName(a);
    SanitizeName(b);
    if Sanitize(a) == Sanitize(b) {
      forall i | 0 <= i < |a| ensures Dashed(a)[i] == Dashed(b)[i] {
        assert Sanitize(a)[i] == Sanitize(b)[i];
      }
    }
    if Dashed(a) == Dashed(b) {
      assert |a| == |b|;
      forall i | 0 <= i < |a| ensures Sanitize(a)[i] == Sanitize(b)[i] {
        assert Dashed(a)[i] == Dashed(b)[i];
      }
    }
  }

  /** The generated names of two sites are told apart by what survives truncation, reading '.' as '-'. */
  lemma DerivedIff(prefix: string, limit: nat, a: string, b: string)
    requires Subdomain(a) && Subdomain(b)
    requires |prefix| + |a| <= limit && |prefix| + |b| <= limit
    ensures Truncate(prefix + Sanitize(a), limit) == Truncate(prefix + Sanitize(b), limit) <==> Dashed(a) == Dashed(b)
  {
    SanitizeName(a);
    SanitizeName(b);
    SanitizeIff(a, b);
    var pa, pb := prefix + Sanitize(a), prefix + Sanitize(b);
    assert Sanitize(a) == pa[|prefix|..] && Sanitize(b) == pb[|prefix|..];
  }

  lemma DerivedInjective(prefix: string, limit: nat, a: string, b: string)
    requires Label(a) && Label(b)
    requires |prefix| + |a| <= limit && |prefix| + |b| <= limit
    requires Truncate(prefix + Sanitize(a), limit) == Truncate(prefix + Sanitize(b), limit)
    ensures a == b
  {
    LabelIsSubdomain(a);
    LabelIsSubdomain(b);
    DerivedIff(prefix, limit, a, b);
  }

  function Repeat(c: char, n: nat): (r: string)
    ensures |r| == n && forall i :: 0 <= i < n ==> r[i] == c
  {
    seq(n, _ => c)
  }

  /** A label one character too long shares its generated name with another label of the same length. */
  lemma DerivedCollision(prefix: string, limit: nat, n: nat) returns (a: string, b: string)
    requires |prefix| <= limit && limit - |prefix| < n <= 63 && 1 < n
    ensures Label(a) && Label(b) && |a| == |b| == n && a != b
    ensures Truncate(prefix + Sanitize(a), limit) == Truncate(prefix + Sanitize(b), limit)
  {
    a, b := Repeat('a', n - 1) + "a", Repeat('a', n - 1) + "b";
    assert a[n - 1] != b[n - 1];
    LabelIsSubdomain(a);
    LabelIsSubdomain(b);
    SanitizeName(a);
    SanitizeName(b);
    var pa, pb := prefix + Sanitize(a), prefix + Sanitize(b);
    assert forall i :: 0 <= i < limit ==> pa[i] == pb[i];
    assert pa[..limit] == pb[..limit];
  }

  ghost predicate UserInjectiveUpTo(n: nat) {
    forall a, b :: Label(a) && Label(b) && |a| <= n && |b| <= n &&
                   DatabaseUserFor(a, DatabaseSpec("", "", "")) == DatabaseUserFor(b, DatabaseSpec("", "", ""))
                   ==> a == b
  }

  ghost predicate DatabaseInjectiveUpTo(n: nat) {
    forall a, b :: Label(a) && Label(b) && |a| <= n && |b| <= n &&
                   DatabaseNameFor(a, DatabaseSpec("", "", "")) == DatabaseNameFor(b, DatabaseSpec("", "", ""))
                   ==> a == b
  }

  /** Generated users are pairwise distinct on labels of at most n characters exactly when n <= 28. */
  lemma UserBoundIsTight(n: nat)
    requires n <= 63
    ensures UserInjectiveUpTo(n) <==> n <= 28
  {
    if n <= 28 {
      forall a, b | Label(a) && Label(b) && |a| <= n && |b| <= n &&
                    DatabaseUserFor(a, DatabaseSpec("", "", "")) == DatabaseUserFor(b, DatabaseSpec("", "", ""))
        ensures a == b
      {
        DerivedInjective("wpu_", MAX_USER, a, b);
      }
    } else {
      var a, b := DerivedCollision("wpu_", MAX_USER, n);
      assert DatabaseUserFor(a, DatabaseSpec("", "", "")) == DatabaseUserFor(b, DatabaseSpec("", "", "")) && |a| == |b| == n;
    }
  }

  /** Generated databases are pairwise distinct on labels of at most n characters exactly when n <= 61. */
  lemma DatabaseBoundIsTight(n: nat)
    requires n <= 63
    ensures DatabaseInjectiveUpTo(n) <==> n <= 61
  {
    if n <= 61 {
      forall a, b | Label(a) && Label(b) && |a| <= n && |b| <= n &&
                    DatabaseNameFor(a, DatabaseSpec("", "", "")) == DatabaseNameFor(b, DatabaseSpec("", "", ""))
        ensures a == b
      {
        DerivedInjective("wp_", MAX_DATABASE, a, b);
      }
    } else {
      var a, b := DerivedCollision("wp_", MAX_DATABASE, n);
      assert DatabaseNameFor(a, DatabaseSpec("", "", "")) == DatabaseNameFor(b, DatabaseSpec("", "", "")) && |a| == |b| == n;
    }
  }

  /** Dots are legal in a site name but not told apart from dashes: short names get the same generated
      user, or database, exactly when they are the same with '.' read as '-'. */
  lemma DottedNamesCollide(a: string, b: string, db: DatabaseSpec)
    requires Subdomain(a) && Subdomain(b) && db.name == "" && db.user == ""
    ensures |a| <= 28 && |b| <= 28 ==> (DatabaseUserFor(a, db) == DatabaseUserFor(b, db) <==> Dashed(a) == Dashed(b))
    ensures |a| <= 61 && |b| <= 61 ==> (DatabaseNameFor(a, db) == DatabaseNameFor(b, db) <==> Dashed(a) == Dashed(b))
  {
    if |a| <= 28 && |b| <= 28 { DerivedIff("wpu_", MAX_USER, a, b); }
    if |a| <= 61 && |b| <= 61 { DerivedIff("wp_", MAX_DATABASE, a, b); }
  }

  /** What a spec gives for its database is taken as it is; what it does not give is generated from the
      site's name by truncation of a prefixed token, or is any host. */
  lemma OverridesWin(site: Site)
    ensures var db := site.spec.database;
            && (if db.name != "" then DatabaseName(site) == db.name
                else DatabaseName(site) <= "wp_" + Sanitize(site.name)
                     && |DatabaseName(site)| == if |Sanitize(site.name)| <= 61 then 3 + |Sanitize(site.name)| else 64)
            && (if db.user != "" then DatabaseUser(site) == db.user
                else DatabaseUser(site) <= "wpu_" + Sanitize(site.name)
                     && |DatabaseUser(site)| == if |Sanitize(site.name)| <= 28 then 4 + |Sanitize(site.name)| else 32)
            && DatabaseHost(site) == if db.host != "" then db.host else "%"
  { }

  // ---- The token of a name ----

  predicate Trimmed(s: string) { s != "" ==> s[0] != '_' && s[|s| - 1] != '_' }

  lemma {:induction false} TrimLeftDrops(s: string) returns (k: nat)
    ensures k <= |s| && TrimLeft(s) == s[k..] && forall i :: 0 <= i < k ==> s[i] == '_'
    ensures k < |s| ==> s[k] != '_'
  {
    if s != "" && s[0] == '_' {
      var t := s[1..];
      var l := TrimLeftDrops(t);
      k := l + 1;
      assert t[l..] == s[k..];
      assert forall i :: 1 <= i < k ==> s[i] == t[i - 1];
    } else {
      k := 0;
    }
  }

  lemma {:induction false} TrimRightDrops(s: string) returns (k: nat)
    ensures k <= |s| && TrimRight(s) == s[..k] && forall i :: k <= i < |s| ==> s[i] == '_'
    ensures k > 0 ==> s[k - 1] != '_'
  {
    if s != "" && s[|s| - 1] == '_' {
      var t := s[..|s| - 1];
      k := TrimRightDrops(t);
      assert t[..k] == s[..k];
    } else {
      k := |s|;
    }
  }

  lemma TrimCuts(m: string) returns (from: nat, to: nat)
    ensures from <= to <= |m| && TrimRight(TrimLeft(m)) == m[from..to] && Trimmed(m[from..to])
    ensures forall i :: 0 <= i < |m| && !(from <= i < to) ==> m[i] == '_'
  {
    from := TrimLeftDrops(m);
    var t := m[from..];
    var l := TrimRightDrops(t);
    to := from + l;
    assert t[..l] == m[from..to];
    forall i | to <= i < |m| ensures m[i] == '_' { assert m[i] == t[i - from]; }
  }

  /** The token is what stands between the outer underscores of the name read rune by rune. */
  lemma SanitizeCuts(name: string) returns (from: nat, to: nat)
    ensures from <= to <= |name| && |Sanitize(name)| == to - from && Trimmed(Sanitize(name))
    ensures forall i :: from <= i < to ==> Sanitize(name)[i - from] == SanitizeRune(name[i])
    ensures forall i :: 0 <= i < |name| && !(from <= i < to) ==> SanitizeRune(name[i]) == '_'
  {
    from, to := TrimCuts(MapSanitize(name));
    forall i | 0 <= i < |name| ensures MapSanitize(name)[i] == SanitizeRune(name[i]) { }
  }

  /** Letters, digits and underscores stay, upper-case letters are lowered, anything else in ASCII is an
      underscore. */
  lemma RuneIsRead(c: char)
    ensures 'a' <= c <= 'z' || '0' <= c <= '9' || c == '_' ==> SanitizeRune(c) == c
    ensures 'A' <= c <= 'Z' ==> SanitizeRune(c) as int - 'a' as int == c as int - 'A' as int
    ensures c < '0' || '9' < c < 'A' || 'Z' < c < '_' || '_' < c < 'a' || 'z' < c <= '\U{7F}' ==> SanitizeRune(c) == '_'
  { }

  /** Case makes no difference to a generated name. */
  lemma CaseIsIgnored(a: string, b: string)
    requires |a| == |b| && forall i :: 0 <= i < |a| ==> LowerRune(a[i]) == LowerRune(b[i])
    ensures Sanitize(a) == Sanitize(b)
  {
    assert MapSanitize(a) == MapSanitize(b);
  }

  /** A token is its own token. */
  lemma SanitizeTwice(name: string)
    ensures Sanitize(Sanitize(name)) == Sanitize(name)
  {
    var s := Sanitize(name);
    SanitizeYieldsTokens(name);
    var from, to := SanitizeCuts(name);
    forall i | 0 <= i < |s| ensures SanitizeRune(s[i]) == s[i] { RuneIsRead(s[i]); }
    assert MapSanitize(s) == s;
  }

  /** No name derived for MySQL or for an object depends on the namespace: two sites of one name and one
      database section share database, user and host whatever their namespaces. */
  lemma NamespaceIsIgnored(a: Site, b: Site)
    requires a.name == b.name && a.spec.database == b.spec.database
    ensures DatabaseName(a) == DatabaseName(b) && DatabaseUser(a) == DatabaseUser(b)
    ensures DatabaseHost(a) == DatabaseHost(b) && SecretName(a) == SecretName(b)
  { }
}
