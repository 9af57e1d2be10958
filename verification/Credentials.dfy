/** The per-site Secret: generated passwords and their preservation (internal/resources/secret.go). */
module Credentials {
  import opened Api
  import opened Names
  import opened Resources
  import opened Wrappers

  newtype byte = x: int | 0 <= x < 256

  type SecretData = map<string, string>

  // ---- RandomPassword: unpadded URL-safe base64 (section 5 of RFC 4648) of random bytes ----

  function UrlChar(v: int): (r: char)
    requires 0 <= v < 64
    ensures UrlSafe(r)
  {
    if v < 26 then ('A' as int + v) as char
    else if v < 52 then ('a' as int + v - 26) as char
    else if v < 62 then ('0' as int + v - 52) as char
    else if v == 62 then '-' else '_'
  }

  predicate UrlSafe(c: char) {
    'a' <= c <= 'z' || 'A' <= c <= 'Z' || '0' <= c <= '9' || c == '-' || c == '_'
  }

  function FourDigits(n: int): (r: string)
    requires 0 <= n < 16777216
    ensures |r| == 4 && forall i :: 0 <= i < 4 ==> UrlSafe(r[i])
  {
    [UrlChar(n / 262144), UrlChar(n / 4096 % 64), UrlChar(n / 64 % 64), UrlChar(n % 64)]
  }

  function ThreeDigits(n: int): (r: string)
    requires 0 <= n < 65536
    ensures |r| == 3 && forall i :: 0 <= i < 3 ==> UrlSafe(r[i])
  {
    [UrlChar(n / 1024), UrlChar(n / 16 % 64), UrlChar(n % 16 * 4)]
  }

  function TwoDigits(n: int): (r: string)
    requires 0 <= n < 256
    ensures |r| == 2 && forall i :: 0 <= i < 2 ==> UrlSafe(r[i])
  {
    [UrlChar(n / 4), UrlChar(n % 4 * 16)]
  }

  function Two(b: seq<byte>): (n: int)
    requires |b| == 2
    ensures 0 <= n < 65536
  {
    b[0] as int * 256 + b[1] as int
  }

  function Three(b: seq<byte>): (n: int)
    requires |b| >= 3
    ensures 0 <= n < 16777216
  {
    b[0] as int * 65536 + b[1] as int * 256 + b[2] as int
  }

  function RawUrlEncode(b: seq<byte>): (r: string)
    ensures |r| == (4 * |b| + 2) / 3
    ensures forall i :: 0 <= i < |r| ==> UrlSafe(r[i])
  {
    if |b| == 0 then ""
    else if |b| == 1 then TwoDigits(b[0] as int)
    else if |b| == 2 then ThreeDigits(Two(b))
    else FourDigits(Three(b)) + RawUrlEncode(b[3..])
  }

  lemma UrlCharInjective(v: int, w: int)
    requires 0 <= v < 64 && 0 <= w < 64
    ensures UrlChar(v) == UrlChar(w) <==> v == w
  { }

  lemma SixtyFours(m: int)
    requires 0 <= m
    ensures m == 262144 * (m / 262144) + 4096 * (m / 4096 % 64) + 64 * (m / 64 % 64) + m % 64
  {
    assert m / 4096 == 64 * (m / 262144) + m / 4096 % 64;
    assert m / 64 == 64 * (m / 4096) + m / 64 % 64;
  }

  lemma Sixteens(m: int)
    requires 0 <= m
    ensures m == 1024 * (m / 1024) + 16 * (m / 16 % 64) + m % 16
  {
    assert m / 16 == 64 * (m / 1024) + m / 16 % 64;
  }

  lemma BytesInjective(a: int, b: int, c: int, x: int, y: int, z: int)
    requires 0 <= b < 256 && 0 <= c < 256 && 0 <= y < 256 && 0 <= z < 256
    requires a * 65536 + b * 256 + c == x * 65536 + y * 256 + z
    ensures a == x && b == y && c == z
  {
    assert c == z && a * 256 + b == x * 256 + y;
  }

  lemma FourInjective(m: int, n: int)
    requires 0 <= m < 16777216 && 0 <= n < 16777216 && FourDigits(m) == FourDigits(n)
    ensures m == n
  {
    var x, y := FourDigits(m), FourDigits(n);
    assert x[0] == y[0] && x[1] == y[1] && x[2] == y[2] && x[3] == y[3];
    UrlCharInjective(m / 262144, n / 262144);
    UrlCharInjective(m / 4096 % 64, n / 4096 % 64);
    UrlCharInjective(m / 64 % 64, n / 64 % 64);
    UrlCharInjective(m % 64, n % 64);
    SixtyFours(m);
    SixtyFours(n);
  }

  lemma ThreeInjective(m: int, n: int)
    requires 0 <= m < 65536 && 0 <= n < 65536 && ThreeDigits(m) == ThreeDigits(n)
    ensures m == n
  {
    var x, y := ThreeDigits(m), ThreeDigits(n);
    assert x[0] == y[0] && x[1] == y[1] && x[2] == y[2];
    UrlCharInjective(m / 1024, n / 1024);
    UrlCharInjective(m / 16 % 64, n / 16 % 64);
    UrlCharInjective(m % 16 * 4, n % 16 * 4);
    Sixteens(m);
    Sixteens(n);
  }

  lemma TwoInjective(m: int, n: int)
    requires 0 <= m < 256 && 0 <= n < 256 && TwoDigits(m) == TwoDigits(n)
    ensures m == n
  {
    var x, y := TwoDigits(m), TwoDigits(n);
    assert x[0] == y[0] && x[1] == y[1];
    UrlCharInjective(m / 4, n / 4);
    UrlCharInjective(m % 4 * 16, n % 4 * 16);
  }

  lemma ThreeBytes(a: seq<byte>, b: seq<byte>)
    requires |a| >= 3 && |b| >= 3 && Three(a) == Three(b)
    ensures a[..3] == b[..3]
  {
    BytesInjective(a[0] as int, a[1] as int, a[2] as int, b[0] as int, b[1] as int, b[2] as int);
  }

  lemma TwoBytes(a: seq<byte>, b: seq<byte>)
    requires |a| == |b| == 2 && Two(a) == Two(b)
    ensures a == b
  {
    BytesInjective(0, a[0] as int, a[1] as int, 0, b[0] as int, b[1] as int);
  }

  lemma BlockThenRest(a: seq<byte>)
    requires |a| >= 3
    ensures RawUrlEncode(a)[..4] == FourDigits(Three(a)) && RawUrlEncode(a)[4..] == RawUrlEncode(a[3..])
  { }

  /** No randomness is lost: different buffers give different passwords. */
  lemma {:induction false} PasswordInjective(a: seq<byte>, b: seq<byte>)
    ensures RawUrlEncode(a) == RawUrlEncode(b) <==> a == b
  {
    if RawUrlEncode(a) == RawUrlEncode(b) {
      assert |a| == |b|;
      if |a| >= 3 {
        BlockThenRest(a);
        BlockThenRest(b);
        FourInjective(Three(a), Three(b));
        ThreeBytes(a, b);
        PasswordInjective(a[3..], b[3..]);
        assert a == a[..3] + a[3..] && b == b[..3] + b[3..];
      } else if |a| == 2 {
        ThreeInjective(Two(a), Two(b));
        TwoBytes(a, b);
      } else if |a| == 1 {
        TwoInjective(a[0] as int, b[0] as int);
      }
    }
  }

  /** The value generated for each key, should it be needed. */
  type Passwords = string -> string

  ghost predicate NonEmpty(random: Passwords) { forall k: string :: random(k) != "" }

  function RandomPassword(buffer: seq<byte>): (r: string)
    requires buffer != []
    ensures r != "" && |r| == (4 * |buffer| + 2) / 3
    ensures forall i :: 0 <= i < |r| ==> UrlSafe(r[i])
  {
    RawUrlEncode(buffer)
  }

  // ---- DesiredSecret ----

  function CredentialKeys(): set<string> { {DB_PASSWORD_KEY} + set k | k in SALT_KEYS }

  /** The database password and the eight keys and salts of WordPress. */
  lemma NineCredentials(k: string)
    ensures var nine := ["WORDPRESS_DB_PASSWORD", "WORDPRESS_AUTH_KEY", "WORDPRESS_SECURE_AUTH_KEY",
                         "WORDPRESS_LOGGED_IN_KEY", "WORDPRESS_NONCE_KEY", "WORDPRESS_AUTH_SALT",
                         "WORDPRESS_SECURE_AUTH_SALT", "WORDPRESS_LOGGED_IN_SALT", "WORDPRESS_NONCE_SALT"];
            k in CredentialKeys() <==> k in nine
  { }

  predicate Present(data: SecretData, key: string) { key in data && data[key] != "" }

  ghost predicate PresentAll(data: SecretData, keys: set<string>) { forall k :: k in keys ==> Present(data, k) }

  ghost predicate Complete(data: SecretData) { PresentAll(data, CredentialKeys()) }

  /** Every missing or empty one of the keys is generated; everything else is kept. */
  function Fill(existing: SecretData, keys: set<string>, random: Passwords): SecretData {
    map k | k in existing.Keys + keys :: if k in keys && !Present(existing, k) then random(k) else existing[k]
  }

  function Filled(existing: SecretData, random: Passwords): SecretData { Fill(existing, CredentialKeys(), random) }

  lemma FillOne(before: SecretData, keys: set<string>, key: string, random: Passwords)
    requires NonEmpty(random)
    ensures var data := Fill(before, keys, random);
            (if Present(data, key) then data else data[key := random(key)])
            == Fill(before, keys + {key}, random)
  { }

  /** What is there stays, what is missing is generated, and nothing is missing afterwards;
      a Secret is left alone exactly when it is complete. */
  lemma FillKeepsAndCompletes(existing: SecretData, keys: set<string>, random: Passwords)
    requires NonEmpty(random)
    ensures PresentAll(Fill(existing, keys, random), keys)
    ensures forall k :: k in existing && (k !in keys || existing[k] != "")
                        ==> k in Fill(existing, keys, random) && Fill(existing, keys, random)[k] == existing[k]
    ensures Fill(existing, keys, random).Keys == existing.Keys + keys
    ensures forall k :: k in keys && !Present(existing, k) ==> Fill(existing, keys, random)[k] == random(k)
    ensures Fill(existing, keys, random) == existing <==> PresentAll(existing, keys)
  { }

  lemma FillNone(before: SecretData, random: Passwords)
    ensures Fill(before, {}, random) == before
  { }

  datatype Secret = Secret(meta: Meta, kind: string, data: SecretData)

  /** DesiredSecret in the form of the program: a copied map filled in place, password first. */
  method DesiredSecret(site: Site, existing: Option<SecretData>, random: Passwords) returns (secret: Secret)
    requires NonEmpty(random)
    ensures secret.meta == MetaOf(site, SecretName(site), map[]) && secret.kind == "Opaque"
    ensures secret.data == Filled(if existing.Some? then existing.value else map[], random)
  {
    var data: SecretData := map[];
    if existing.Some? {
      data := existing.value;
    }
    ghost var before := data;
    FillNone(before, random);
    FillOne(before, {}, DB_PASSWORD_KEY, random);
    if !Present(data, DB_PASSWORD_KEY) {
      data := data[DB_PASSWORD_KEY := random(DB_PASSWORD_KEY)];
    }
    FirstKeysGrow();
    for i := 0 to |SALT_KEYS|
      invariant data == Fill(before, FirstKeys(i), random)
    {
      var k := SALT_KEYS[i];
      FillOne(before, FirstKeys(i), k, random);
      if !Present(data, k) {
        data := data[k := random(k)];
      }
    }
    secret := Secret(MetaOf(site, SecretName(site), map[]), "Opaque", data);
  }

  /** The password key and the first salt keys. */
  ghost function FirstKeys(i: nat): set<string>
    requires i <= |SALT_KEYS|
  {
    {DB_PASSWORD_KEY} + set k | k in SALT_KEYS[..i]
  }

  lemma FirstKeysGrow()
    ensures FirstKeys(0) == {} + {DB_PASSWORD_KEY} && FirstKeys(|SALT_KEYS|) == CredentialKeys()
    ensures forall i: nat :: i < |SALT_KEYS| ==> FirstKeys(i + 1) == FirstKeys(i) + {SALT_KEYS[i]}
  {
    assert SALT_KEYS[..|SALT_KEYS|] == SALT_KEYS;
    forall i: nat | i < |SALT_KEYS| ensures FirstKeys(i + 1) == FirstKeys(i) + {SALT_KEYS[i]} {
      assert SALT_KEYS[..i + 1] == SALT_KEYS[..i] + [SALT_KEYS[i]];
    }
  }
}
