/** The MySQL provisioner (internal/mysql/provisioner.go): string literals, statement texts and
    the effect of the two statement lists on the shared server.
    A Go string is a byte sequence; a byte is represented here by the char of the same code. */
module Mysql {
  import opened Names
  import opened Wrappers

  // ---- String literals ----

  const QUOTE := '\''
  const BACKSLASH := '\\'

  function EscapeChar(c: char): string {
    if c == QUOTE || c == BACKSLASH then [BACKSLASH, c]
    else if c == '\0' then [BACKSLASH, '0']
    else if c == '\n' then [BACKSLASH, 'n']
    else if c == '\r' then [BACKSLASH, 'r']
    else [c]
  }

  function Escaped(s: string): string {
    if s == "" then "" else EscapeChar(s[0]) + Escaped(s[1..])
  }

  lemma {:induction false} EscapedAppend(s: string, c: char)
    ensures Escaped(s + [c]) == Escaped(s) + EscapeChar(c)
  {
    if s != "" {
      assert (s + [c])[1..] == s[1..] + [c];
      EscapedAppend(s[1..], c);
    } else {
      assert ([c])[1..] == "";
    }
  }

  /** escapeString: the builder loop over the bytes. */
  method EscapeString(s: string) returns (b: string)
    ensures b == Escaped(s)
  {
    b := "";
    for i := 0 to |s|
      invariant b == Escaped(s[..i])
    {
      EscapedAppend(s[..i], s[i]);
      assert s[..i + 1] == s[..i] + [s[i]];
      var c := s[i];
      if c == QUOTE || c == BACKSLASH {
        b := b + [BACKSLASH];
        b := b + [c];
      } else if c == '\0' {
        b := b + [BACKSLASH, '0'];
      } else if c == '\n' {
        b := b + [BACKSLASH, 'n'];
      } else if c == '\r' {
        b := b + [BACKSLASH, 'r'];
      } else {
        b := b + [c];
      }
    }
    assert s[..|s|] == s;
  }

  /** What an escape sequence denotes (section 11.1.1 of the MySQL 8.4 manual, outside pattern
      contexts): `\%` and `\_` stand for both their characters, any other unknown one for its second. */
  function Unescape(c: char): string {
    if c == '0' then "\0"
    else if c == 'n' then "\n"
    else if c == 'r' then "\r"
    else if c == 't' then "\t"
    else if c == 'b' then "\U{8}"
    else if c == 'Z' then "\U{1A}"
    else if c == '%' || c == '_' then [BACKSLASH, c]
    else [c]
  }

  /** The server's scan of the rest of a single-quoted literal: its value and what follows the
      closing quote. A doubled quote denotes one quote. */
  function ScanBody(t: string): Option<(string, string)> {
    if t == "" then None
    else if t[0] == BACKSLASH then
      if |t| < 2 then None else Prepend(Unescape(t[1]), ScanBody(t[2..]))
    else if t[0] == QUOTE then
      if |t| >= 2 && t[1] == QUOTE then Prepend([QUOTE], ScanBody(t[2..])) else Some(("", t[1..]))
    else Prepend([t[0]], ScanBody(t[1..]))
  }

  function Prepend(s: string, r: Option<(string, string)>): Option<(string, string)> {
    if r.None? then None else Some((s + r.value.0, r.value.1))
  }

  function ScanLiteral(t: string): Option<(string, string)> {
    if t != "" && t[0] == QUOTE then ScanBody(t[1..]) else None
  }

  function Quoted(body: string): string { [QUOTE] + body + [QUOTE] }

  predicate StartsWithQuote(s: string) { s != "" && s[0] == QUOTE }

  lemma ScanEscapedChar(c: char, t: string)
    ensures ScanBody(EscapeChar(c) + t) == Prepend([c], ScanBody(t))
  { }

  lemma {:induction false} ScanBodyOfEscaped(s: string, r: string)
    requires !StartsWithQuote(r)
    ensures ScanBody(Escaped(s) + [QUOTE] + r) == Some((s, r))
  {
    if s == "" {
      assert Escaped(s) + [QUOTE] + r == [QUOTE] + r;
    } else {
      ScanBodyOfEscaped(s[1..], r);
      assert Escaped(s) + [QUOTE] + r == EscapeChar(s[0]) + (Escaped(s[1..]) + [QUOTE] + r);
      ScanEscapedChar(s[0], Escaped(s[1..]) + [QUOTE] + r);
      assert [s[0]] + s[1..] == s;
    }
  }

  lemma LiteralOpens(body: string, r: string)
    ensures ScanLiteral(Quoted(body) + r) == ScanBody(body + [QUOTE] + r)
  {
    assert (Quoted(body) + r)[1..] == body + [QUOTE] + r;
  }

  /** Whatever the password, the server reads back exactly it and resumes right after the literal. */
  lemma LiteralRoundTrip(s: string, r: string)
    requires !StartsWithQuote(r)
    ensures ScanLiteral(Quoted(Escaped(s)) + r) == Some((s, r))
  {
    ScanBodyOfEscaped(s, r);
    LiteralOpens(Escaped(s), r);
  }

  lemma EscapedInjective(a: string, b: string)
    ensures Escaped(a) == Escaped(b) <==> a == b
  {
    LiteralRoundTrip(a, "");
    LiteralRoundTrip(b, "");
  }

  /** The text of a literal has no NUL, newline or carriage return, whatever the value. */
  lemma {:induction false} EscapedIsOneLine(s: string)
    ensures forall c :: c in Escaped(s) ==> c != '\0' && c != '\n' && c != '\r'
  {
    if s != "" { EscapedIsOneLine(s[1..]); }
  }

  /** No quote, and no backslash but before `%` or `_`. */
  predicate Plain(s: string) { forall i :: 0 <= i < |s| ==> PlainAt(s, i) }

  predicate PlainAt(s: string, i: nat)
    requires i < |s|
  {
    s[i] != QUOTE && (s[i] == BACKSLASH ==> i + 1 < |s| && (s[i + 1] == '%' || s[i + 1] == '_'))
  }

  lemma {:induction false} ScanShrinks(t: string)
    ensures ScanBody(t).Some? ==>
              |ScanBody(t).value.0| + |ScanBody(t).value.1| < |t|
  {
    if t != "" {
      if t[0] == BACKSLASH || (|t| >= 2 && t[0] == QUOTE && t[1] == QUOTE) {
        if |t| >= 2 { ScanShrinks(t[2..]); }
      } else {
        ScanShrinks(t[1..]);
      }
    }
  }

  lemma PlainTail(s: string, k: nat)
    requires k <= |s| && forall i :: 0 <= i < k ==> PlainAt(s, i)
    ensures Plain(s) <==> Plain(s[k..])
  {
    assert forall i :: k <= i < |s| ==> (PlainAt(s, i) <==> PlainAt(s[k..], i - k));
    assert forall i :: 0 <= i < |s| - k ==> (PlainAt(s[k..], i) <==> PlainAt(s, k + i));
  }

  lemma {:induction false} RawBodyIff(s: string, r: string)
    requires !StartsWithQuote(r)
    ensures ScanBody(s + [QUOTE] + r) == Some((s, r)) <==> Plain(s)
  {
    var t := s + [QUOTE] + r;
    if s == "" {
      assert t == [QUOTE] + r;
    } else if s[0] == BACKSLASH && PlainAt(s, 0) {
      assert t[2..] == s[2..] + [QUOTE] + r;
      assert s[..2] + s[2..] == s && s[..2] == Unescape(t[1]);
      RawBodyIff(s[2..], r);
      PlainTail(s, 2);
    } else if s[0] == BACKSLASH {
      assert !PlainAt(s, 0);
      assert t[1] == if |s| > 1 then s[1] else QUOTE;
      ScanShrinks(t[2..]);
    } else if s[0] == QUOTE {
      assert !PlainAt(s, 0);
      if |t| >= 2 && t[1] == QUOTE { ScanShrinks(t[2..]); }
    } else {
      assert t[1..] == s[1..] + [QUOTE] + r;
      assert [s[0]] + s[1..] == s;
      RawBodyIff(s[1..], r);
      PlainTail(s, 1);
    }
  }

  /** User and host are quoted without escaping; the server reads back the value that was meant
      exactly when it contains no quote and no backslash but before `%` or `_`. */
  lemma RawLiteralIff(s: string, r: string)
    requires !StartsWithQuote(r)
    ensures ScanLiteral(Quoted(s) + r) == Some((s, r)) <==> Plain(s)
  {
    RawBodyIff(s, r);
    LiteralOpens(s, r);
  }

  // ---- Identifiers ----

  const BACKQUOTE := '`'

  /** ASCII digits, capitals, underscore and small letters. */
  predicate WordCode(n: int) { 48 <= n <= 57 || 65 <= n <= 90 || n == 95 || 97 <= n <= 122 }

  /** validateIdent: length check, then a loop with early return. */
  method ValidateIdent(s: string) returns (ok: bool)
    ensures ok == ValidIdent(s)
    ensures ok <==> 1 <= |s| <= 64 && forall c :: c in s ==> WordCode(c as int)
  {
    if s == "" || |s| > 64 { return false; }
    for i := 0 to |s|
      invariant forall j :: 0 <= j < i ==> IdentRune(s[j])
    {
      var r := s[i];
      var good := ('a' <= r <= 'z') || ('A' <= r <= 'Z') || ('0' <= r <= '9') || r == '_';
      if !good {
        assert r in s && !WordCode(r as int);
        return false;
      }
    }
    return true;
  }

  /** The server's scan of the rest of a back-quoted identifier. */
  function ScanIdentBody(t: string): Option<(string, string)> {
    if t == "" then None
    else if t[0] == BACKQUOTE then
      if |t| >= 2 && t[1] == BACKQUOTE then Prepend([BACKQUOTE], ScanIdentBody(t[2..])) else Some(("", t[1..]))
    else Prepend([t[0]], ScanIdentBody(t[1..]))
  }

  lemma {:induction false} IdentRoundTrip(s: string, r: string)
    requires forall i :: 0 <= i < |s| ==> s[i] != BACKQUOTE
    requires r == "" || r[0] != BACKQUOTE
    ensures ScanIdentBody(s + [BACKQUOTE] + r) == Some((s, r))
  {
    var t := s + [BACKQUOTE] + r;
    if s == "" {
      assert t == [BACKQUOTE] + r;
    } else {
      assert t[1..] == s[1..] + [BACKQUOTE] + r;
      assert [s[0]] + s[1..] == s;
      IdentRoundTrip(s[1..], r);
    }
  }

  // ---- Statements ----

  datatype Account = Account(user: string, host: string)

  datatype Statement =
    | CreateDatabase(db: string)
    | CreateUser(account: Account, password: string)
    | AlterUser(account: Account, password: string)
    | GrantAll(pattern: string, account: Account)
    | FlushPrivileges
    | DropDatabase(db: string)
    | DropUser(account: Account)

  function EnsureStatements(db: string, account: Account, password: string): seq<Statement> {
    [CreateDatabase(db), CreateUser(account, password), AlterUser(account, password),
     GrantAll(db, account), FlushPrivileges]
  }

  function DropStatements(db: string, account: Account): seq<Statement> {
    [DropDatabase(db), DropUser(account), FlushPrivileges]
  }

  const CREATE_DATABASE := "CREATE DATABASE IF NOT EXISTS `"
  const CHARSET := " CHARACTER SET utf8mb4" + " COLLATE utf8mb4_unicode_ci"
  const CREATE_USER := "CREATE USER IF NOT EXISTS "
  const ALTER_USER := "ALTER USER "
  const IDENTIFIED_BY := " IDENTIFIED BY "
  const GRANT_ON := "GRANT ALL PRIVILEGES ON `"
  const GRANT_TO := ".* TO "
  const FLUSH := "FLUSH PRIVILEGES"
  const DROP_DATABASE := "DROP DATABASE IF EXISTS `"
  const DROP_USER := "DROP USER IF EXISTS "

  function AccountText(a: Account): string { Quoted(a.user) + "@" + Quoted(a.host) }

  function CredentialText(a: Account, password: string): string {
    AccountText(a) + IDENTIFIED_BY + Quoted(Escaped(password))
  }

  /** The text sent for each statement: only the password is escaped. */
  function Text(s: Statement): string {
    match s
    case CreateDatabase(db) => CREATE_DATABASE + db + [BACKQUOTE] + CHARSET
    case CreateUser(a, p) => CREATE_USER + CredentialText(a, p)
    case AlterUser(a, p) => ALTER_USER + CredentialText(a, p)
    case GrantAll(db, a) => GRANT_ON + db + [BACKQUOTE] + GRANT_TO + AccountText(a)
    case FlushPrivileges => FLUSH
    case DropDatabase(db) => DROP_DATABASE + db + [BACKQUOTE]
    case DropUser(a) => DROP_USER + AccountText(a)
  }

  // What is sent, spelt out.

  lemma AccountIsText(a: Account)
    ensures AccountText(a) == "'" + a.user + "'@'" + a.host + "'"
  {
    assert Quoted(a.user) + "@" + Quoted(a.host) == "'" + a.user + ("'" + "@" + "'") + a.host + "'";
    assert "'" + "@" + "'" == "'@'";
  }

  lemma CredentialIsText(a: Account, password: string)
    ensures CredentialText(a, password) == AccountText(a) + " IDENTIFIED BY '" + Escaped(password) + "'"
  {
    assert " IDENTIFIED BY " + "'" == " IDENTIFIED BY '";
    assert AccountText(a) + " IDENTIFIED BY " + ("'" + Escaped(password) + "'")
           == AccountText(a) + (" IDENTIFIED BY " + "'") + Escaped(password) + "'";
  }

  /** The five texts of EnsureDatabase, in order. */
  lemma EnsureTexts(db: string, a: Account, password: string)
    ensures var s, account := EnsureStatements(db, a, password), "'" + a.user + "'@'" + a.host + "'";
            var credential := account + " IDENTIFIED BY '" + Escaped(password) + "'";
            && |s| == 5
            && Text(s[0]) == "CREATE DATABASE IF NOT EXISTS `" + db + "`" + " CHARACTER SET utf8mb4" + " COLLATE utf8mb4_unicode_ci"
            && Text(s[1]) == "CREATE USER IF NOT EXISTS " + credential
            && Text(s[2]) == "ALTER USER " + credential
            && Text(s[3]) == "GRANT ALL PRIVILEGES ON `" + db + "`" + ".* TO " + account
            && Text(s[4]) == "FLUSH PRIVILEGES"
  {
    AccountIsText(a);
    CredentialIsText(a, password);
    assert CREATE_DATABASE + db + "`" + (" CHARACTER SET utf8mb4" + " COLLATE utf8mb4_unicode_ci")
           == CREATE_DATABASE + db + "`" + " CHARACTER SET utf8mb4" + " COLLATE utf8mb4_unicode_ci";
  }

  /** The three texts of DropDatabase, in order. */
  lemma DropTexts(db: string, a: Account)
    ensures var s := DropStatements(db, a);
            && |s| == 3 && Text(s[0]) == "DROP DATABASE IF EXISTS `" + db + "`"
            && Text(s[1]) == "DROP USER IF EXISTS " + "'" + a.user + "'@'" + a.host + "'"
            && Text(s[2]) == "FLUSH PRIVILEGES"
  {
    AccountIsText(a);
    assert "DROP USER IF EXISTS " + ("'" + a.user + "'@'" + a.host + "'")
           == "DROP USER IF EXISTS " + "'" + a.user + "'@'" + a.host + "'";
  }

  // The server's reading of a text.

  function Strip(prefix: string, t: string): Option<string> {
    if |prefix| <= |t| && t[..|prefix|] == prefix then Some(t[|prefix|..]) else None
  }

  function ReadAccount(t: string): Option<(Account, string)> {
    var u := ScanLiteral(t);
    if u.None? then None else
      var at := Strip("@", u.value.1);
      if at.None? then None else
        var h := ScanLiteral(at.value);
        if h.None? then None else Some((Account(u.value.0, h.value.0), h.value.1))
  }

  function ReadCredential(t: string): Option<(Account, string)> {
    var a := ReadAccount(t);
    if a.None? then None else
      var ident := Strip(IDENTIFIED_BY, a.value.1);
      if ident.None? then None else
        var p := ScanLiteral(ident.value);
        if p.Some? && p.value.1 == "" then Some((a.value.0, p.value.0)) else None
  }

  function ReadGrant(t: string): Option<Statement> {
    var d := ScanIdentBody(t);
    if d.None? then None else
      var to := Strip(GRANT_TO, d.value.1);
      if to.None? then None else
        var a := ReadAccount(to.value);
        if a.Some? && a.value.1 == "" then Some(GrantAll(d.value.0, a.value.0)) else None
  }

  function ReadText(t: string): Option<Statement> {
    if Strip(CREATE_DATABASE, t).Some? then
      var d := ScanIdentBody(Strip(CREATE_DATABASE, t).value);
      if d.Some? && d.value.1 == CHARSET then Some(CreateDatabase(d.value.0)) else None
    else if Strip(CREATE_USER, t).Some? then
      var r := ReadCredential(Strip(CREATE_USER, t).value);
      if r.Some? then Some(CreateUser(r.value.0, r.value.1)) else None
    else if Strip(ALTER_USER, t).Some? then
      var r := ReadCredential(Strip(ALTER_USER, t).value);
      if r.Some? then Some(AlterUser(r.value.0, r.value.1)) else None
    else if Strip(GRANT_ON, t).Some? then ReadGrant(Strip(GRANT_ON, t).value)
    else if t == FLUSH then Some(FlushPrivileges)
    else if Strip(DROP_DATABASE, t).Some? then
      var d := ScanIdentBody(Strip(DROP_DATABASE, t).value);
      if d.Some? && d.value.1 == "" then Some(DropDatabase(d.value.0)) else None
    else if Strip(DROP_USER, t).Some? then
      var a := ReadAccount(Strip(DROP_USER, t).value);
      if a.Some? && a.value.1 == "" then Some(DropUser(a.value.0)) else None
    else None
  }

  predicate SafeAccount(a: Account) { ValidIdent(a.user) && Plain(a.host) }

  predicate Safe(s: Statement) {
    match s
    case CreateDatabase(db) => ValidIdent(db)
    case CreateUser(a, _) => SafeAccount(a)
    case AlterUser(a, _) => SafeAccount(a)
    case GrantAll(db, a) => ValidIdent(db) && SafeAccount(a)
    case FlushPrivileges => true
    case DropDatabase(db) => ValidIdent(db)
    case DropUser(a) => SafeAccount(a)
  }

  lemma StripOwn(prefix: string, r: string)
    ensures Strip(prefix, prefix + r) == Some(r)
  { }

  lemma StripOther(prefix: string, t: string, i: nat)
    requires i < |prefix| && i < |t| && prefix[i] != t[i]
    ensures Strip(prefix, t) == None
  { }

  lemma ValidIdentIsPlain(s: string)
    requires ValidIdent(s)
    ensures Plain(s) && forall i :: 0 <= i < |s| ==> s[i] != BACKQUOTE
  { }

  lemma AccountRoundTrip(a: Account, r: string)
    requires SafeAccount(a) && !StartsWithQuote(r)
    ensures ReadAccount(AccountText(a) + r) == Some((a, r))
  {
    ValidIdentIsPlain(a.user);
    var rest := "@" + (Quoted(a.host) + r);
    RawLiteralIff(a.user, rest);
    assert AccountText(a) + r == Quoted(a.user) + rest;
    StripOwn("@", Quoted(a.host) + r);
    RawLiteralIff(a.host, r);
  }

  lemma CredentialRoundTrip(a: Account, password: string)
    requires SafeAccount(a)
    ensures ReadCredential(CredentialText(a, password)) == Some((a, password))
  {
    var literal := Quoted(Escaped(password));
    AccountRoundTrip(a, IDENTIFIED_BY + literal);
    assert CredentialText(a, password) == AccountText(a) + (IDENTIFIED_BY + literal);
    StripOwn(IDENTIFIED_BY, literal);
    LiteralRoundTrip(password, "");
    assert literal + "" == literal;
  }

  lemma ReadCreateDatabase(db: string)
    requires ValidIdent(db)
    ensures ReadText(Text(CreateDatabase(db))) == Some(CreateDatabase(db))
  {
    var t, rest := Text(CreateDatabase(db)), db + [BACKQUOTE] + CHARSET;
    assert t == CREATE_DATABASE + rest;
    StripOwn(CREATE_DATABASE, rest);
    ValidIdentIsPlain(db);
    assert CHARSET[0] == ' ';
    IdentRoundTrip(db, CHARSET);
  }

  lemma ReadCreateUser(a: Account, p: string)
    requires SafeAccount(a)
    ensures ReadText(Text(CreateUser(a, p))) == Some(CreateUser(a, p))
  {
    var t := Text(CreateUser(a, p));
    assert t[7] == 'U' != CREATE_DATABASE[7];
    StripOther(CREATE_DATABASE, t, 7);
    StripOwn(CREATE_USER, CredentialText(a, p));
    CredentialRoundTrip(a, p);
  }

  lemma ReadAlterUser(a: Account, p: string)
    requires SafeAccount(a)
    ensures ReadText(Text(AlterUser(a, p))) == Some(AlterUser(a, p))
  {
    var t := Text(AlterUser(a, p));
    assert t[0] == 'A';
    StripOther(CREATE_DATABASE, t, 0);
    StripOther(CREATE_USER, t, 0);
    StripOwn(ALTER_USER, CredentialText(a, p));
    CredentialRoundTrip(a, p);
  }

  lemma GrantRoundTrip(db: string, a: Account)
    requires ValidIdent(db) && SafeAccount(a)
    ensures ReadGrant(db + [BACKQUOTE] + GRANT_TO + AccountText(a)) == Some(GrantAll(db, a))
  {
    var rest := GRANT_TO + AccountText(a);
    assert db + [BACKQUOTE] + GRANT_TO + AccountText(a) == db + [BACKQUOTE] + rest;
    ValidIdentIsPlain(db);
    IdentRoundTrip(db, rest);
    StripOwn(GRANT_TO, AccountText(a));
    AccountRoundTrip(a, "");
    assert AccountText(a) + "" == AccountText(a);
  }

  lemma ReadGrantAll(db: string, a: Account)
    requires ValidIdent(db) && SafeAccount(a)
    ensures ReadText(Text(GrantAll(db, a))) == Some(GrantAll(db, a))
  {
    var t, rest := Text(GrantAll(db, a)), db + [BACKQUOTE] + GRANT_TO + AccountText(a);
    assert t == GRANT_ON + rest;
    assert t[0] == 'G';
    StripOther(CREATE_DATABASE, t, 0);
    StripOther(CREATE_USER, t, 0);
    StripOther(ALTER_USER, t, 0);
    StripOwn(GRANT_ON, rest);
    GrantRoundTrip(db, a);
  }

  lemma ReadDropDatabase(db: string)
    requires ValidIdent(db)
    ensures ReadText(Text(DropDatabase(db))) == Some(DropDatabase(db))
  {
    var t, rest := Text(DropDatabase(db)), db + [BACKQUOTE] + "";
    assert t == DROP_DATABASE + rest;
    DropIsNoOther(t);
    StripOwn(DROP_DATABASE, rest);
    ValidIdentIsPlain(db);
    IdentRoundTrip(db, "");
  }

  lemma ReadDropUser(a: Account)
    requires SafeAccount(a)
    ensures ReadText(Text(DropUser(a))) == Some(DropUser(a))
  {
    var t := Text(DropUser(a));
    DropIsNoOther(t);
    assert t[5] == 'U' != DROP_DATABASE[5];
    StripOther(DROP_DATABASE, t, 5);
    StripOwn(DROP_USER, AccountText(a));
    AccountRoundTrip(a, "");
    assert AccountText(a) + "" == AccountText(a);
  }

  lemma DropIsNoOther(t: string)
    requires t != "" && t[0] == 'D'
    ensures Strip(CREATE_DATABASE, t).None? && Strip(CREATE_USER, t).None? && Strip(ALTER_USER, t).None?
    ensures Strip(GRANT_ON, t).None? && t != FLUSH
  { }

  lemma ReadFlush()
    ensures ReadText(FLUSH) == Some(FlushPrivileges)
  {
    StripOther(CREATE_DATABASE, FLUSH, 0);
    StripOther(CREATE_USER, FLUSH, 0);
    StripOther(ALTER_USER, FLUSH, 0);
    StripOther(GRANT_ON, FLUSH, 0);
  }

  /** With validated identifiers and a plain host, the server reads every statement text as the
      statement that was meant, whatever bytes the password holds. */
  lemma TextMeansStatement(s: Statement)
    requires Safe(s)
    ensures ReadText(Text(s)) == Some(s)
  {
    match s
    case CreateDatabase(db) => ReadCreateDatabase(db);
    case CreateUser(a, p) => ReadCreateUser(a, p);
    case AlterUser(a, p) => ReadAlterUser(a, p);
    case GrantAll(db, a) => ReadGrantAll(db, a);
    case FlushPrivileges => ReadFlush();
    case DropDatabase(db) => ReadDropDatabase(db);
    case DropUser(a) => ReadDropUser(a);
  }

  // ---- The server ----

  /** A grant holds the name as the GRANT statement gave it, which is a pattern. */
  datatype Server = Server(databases: set<string>, users: map<Account, string>, grants: set<(string, Account)>)

  const EMPTY_SERVER := Server({}, map[], {})

  /** The effect of one statement; None when the server reports an error and changes nothing. */
  function Execute(srv: Server, s: Statement): Option<Server> {
    match s
    case CreateDatabase(db) => Some(srv.(databases := srv.databases + {db}))
    case CreateUser(a, p) => Some(if a in srv.users then srv else srv.(users := srv.users[a := p]))
    case AlterUser(a, p) => if a in srv.users then Some(srv.(users := srv.users[a := p])) else None
    case GrantAll(db, a) => if a in srv.users then Some(srv.(grants := srv.grants + {(db, a)})) else None
    case FlushPrivileges => Some(srv)
    case DropDatabase(db) => Some(srv.(databases := srv.databases - {db}))
    case DropUser(a) =>
      Some(Server(srv.databases, srv.users - {a}, set g | g in srv.grants && g.1 != a))
  }

  function ExecuteAll(srv: Server, stmts: seq<Statement>): Option<Server>
    decreases |stmts|
  {
    if stmts == [] then Some(srv)
    else
      var r := Execute(srv, stmts[0]);
      if r.None? then None else ExecuteAll(r.value, stmts[1..])
  }

  /** What a completed EnsureDatabase leaves behind. */
  function Provisioned(srv: Server, db: string, a: Account, password: string): Server {
    Server(srv.databases + {db}, srv.users[a := password], srv.grants + {(db, a)})
  }

  /** What a completed DropDatabase leaves behind. */
  function Dropped(srv: Server, db: string, a: Account): Server {
    Server(srv.databases - {db}, srv.users - {a}, set g | g in srv.grants && g.1 != a)
  }

  lemma EnsureProvisions(srv: Server, db: string, a: Account, password: string)
    ensures ExecuteAll(srv, EnsureStatements(db, a, password)) == Some(Provisioned(srv, db, a, password))
  {
    var s := EnsureStatements(db, a, password);
    var s1 := srv.(databases := srv.databases + {db});
    var s2 := Execute(s1, s[1]).value;
    var s3 := s2.(users := s2.users[a := password]);
    var s4 := s3.(grants := s3.grants + {(db, a)});
    assert s3.users == srv.users[a := password];
    calc {
      ExecuteAll(srv, s);
      ExecuteAll(s1, s[1..]);
      { assert s[1..][0] == s[1] && s[1..][1..] == s[2..]; }
      ExecuteAll(s2, s[2..]);
      { assert s[2..][0] == s[2] && s[2..][1..] == s[3..]; }
      ExecuteAll(s3, s[3..]);
      { assert s[3..][0] == s[3] && s[3..][1..] == s[4..]; }
      ExecuteAll(s4, s[4..]);
      { assert s[4..][0] == s[4] && s[4..][1..] == []; }
      ExecuteAll(s4, []);
    }
  }

  lemma DropDrops(srv: Server, db: string, a: Account)
    ensures ExecuteAll(srv, DropStatements(db, a)) == Some(Dropped(srv, db, a))
  {
    var s := DropStatements(db, a);
    var s1 := srv.(databases := srv.databases - {db});
    calc {
      ExecuteAll(srv, s);
      ExecuteAll(s1, s[1..]);
      { assert s[1..][0] == s[1] && s[1..][1..] == s[2..]; }
      ExecuteAll(Dropped(srv, db, a), s[2..]);
      { assert s[2..][0] == s[2] && s[2..][1..] == []; }
      ExecuteAll(Dropped(srv, db, a), []);
    }
  }

  /** The servers that differ from `srv` at most in what one site's provisioning may touch. */
  ghost predicate Touched(srv: Server, srv': Server, db: string, a: Account) {
    && srv.databases <= srv'.databases <= srv.databases + {db}
    && srv.grants <= srv'.grants <= srv.grants + {(db, a)}
    && srv'.users.Keys - {a} == srv.users.Keys - {a}
    && (forall x :: x in srv.users && x != a ==> x in srv'.users && srv'.users[x] == srv.users[x])
  }

  lemma {:induction false} PrefixTouches(srv: Server, mid: Server, stmts: seq<Statement>, db: string, a: Account, old': string)
    requires forall i :: 0 <= i < |stmts| ==> stmts[i] in EnsureStatements(db, a, old')
    requires Touched(srv, mid, db, a) && ExecuteAll(mid, stmts).Some?
    ensures Touched(srv, ExecuteAll(mid, stmts).value, db, a)
    decreases |stmts|
  {
    if stmts != [] {
      var next := Execute(mid, stmts[0]).value;
      assert stmts[0] in EnsureStatements(db, a, old');
      assert Touched(srv, next, db, a);
      PrefixTouches(srv, next, stmts[1..], db, a, old');
    }
  }

  lemma {:induction false} PrefixRuns(srv: Server, stmts: seq<Statement>, k: nat)
    requires k <= |stmts| && ExecuteAll(srv, stmts).Some?
    ensures ExecuteAll(srv, stmts[..k]).Some?
    decreases k
  {
    if k != 0 {
      assert stmts[..k][1..] == stmts[1..][..k - 1];
      PrefixRuns(Execute(srv, stmts[0]).value, stmts[1..], k - 1);
    }
  }

  /** The server after the first k statements of an EnsureDatabase: none of them fails. */
  ghost function AfterPrefix(srv: Server, db: string, a: Account, password: string, k: nat): (r: Server)
    requires k <= 5
    ensures Touched(srv, r, db, a)
  {
    EnsureProvisions(srv, db, a, password);
    PrefixRuns(srv, EnsureStatements(db, a, password), k);
    PrefixTouches(srv, srv, EnsureStatements(db, a, password)[..k], db, a, password);
    ExecuteAll(srv, EnsureStatements(db, a, password)[..k]).value
  }

  /** However far an earlier attempt came, and with whatever password, one full run gives what
      it gives on the server as it was before that attempt. */
  lemma EnsureConverges(srv: Server, db: string, a: Account, old': string, password: string, k: nat)
    requires k <= 5
    ensures ExecuteAll(AfterPrefix(srv, db, a, old', k), EnsureStatements(db, a, password))
            == ExecuteAll(srv, EnsureStatements(db, a, password))
  {
    var mid := AfterPrefix(srv, db, a, old', k);
    EnsureProvisions(srv, db, a, password);
    EnsureProvisions(mid, db, a, password);
    var x, y := mid.users[a := password], srv.users[a := password];
    assert x.Keys == (mid.users.Keys - {a}) + {a};
    assert y.Keys == (srv.users.Keys - {a}) + {a};
    assert x == y;
    assert mid.databases + {db} == srv.databases + {db};
    assert mid.grants + {(db, a)} == srv.grants + {(db, a)};
  }

  /** Dropping undoes an attempt that came any distance, on a server that knew neither the
      database nor the user, and leaves every other site's data as it was. */
  lemma DropUndoesEnsure(srv: Server, db: string, a: Account, password: string, k: nat)
    requires k <= 5
    requires db !in srv.databases && a !in srv.users && forall g :: g in srv.grants ==> g.1 != a
    ensures ExecuteAll(AfterPrefix(srv, db, a, password, k), DropStatements(db, a)) == Some(srv)
  {
    var mid := AfterPrefix(srv, db, a, password, k);
    DropDrops(mid, db, a);
    var u := mid.users - {a};
    assert u.Keys == mid.users.Keys - {a} == srv.users.Keys - {a} == srv.users.Keys;
    assert u == srv.users;
    assert mid.databases - {db} == srv.databases;
    assert (set g | g in mid.grants && g.1 != a) == srv.grants;
  }

  // ---- What a grant covers ----

  /** The database name of a GRANT is a pattern, in back-quotes too: `_` stands for any one character,
      `%` for any number of them, and a backslash takes the special meaning away. */
  predicate Covers(pattern: string, db: string)
    decreases |pattern| + |db|
  {
    if pattern == "" then db == ""
    else if pattern[0] == '%' then Covers(pattern[1..], db) || (db != "" && Covers(pattern, db[1..]))
    else if pattern[0] == BACKSLASH && |pattern| >= 2 then
      db != "" && db[0] == pattern[1] && Covers(pattern[2..], db[1..])
    else db != "" && (pattern[0] == '_' || pattern[0] == db[0]) && Covers(pattern[1..], db[1..])
  }

  /** The account has all privileges on this database. */
  ghost predicate CanUse(srv: Server, a: Account, db: string) {
    exists g :: g in srv.grants && g.1 == a && Covers(g.0, db)
  }

  /** Equal but for what stands at the first one's underscores. */
  predicate Fits(pattern: string, db: string) {
    |pattern| == |db| && forall i :: 0 <= i < |pattern| ==> pattern[i] == '_' || pattern[i] == db[i]
  }

  lemma {:induction false} IdentCovers(pattern: string, db: string)
    requires forall i :: 0 <= i < |pattern| ==> IdentRune(pattern[i])
    ensures Covers(pattern, db) <==> Fits(pattern, db)
  {
    if pattern != "" && db != "" {
      IdentCovers(pattern[1..], db[1..]);
      var p, d := pattern[1..], db[1..];
      assert Fits(pattern, db) ==> Fits(p, d);
      if Fits(p, d) && (pattern[0] == '_' || pattern[0] == db[0]) {
        forall i | 0 <= i < |pattern| ensures pattern[i] == '_' || pattern[i] == db[i] {
          if i > 0 { assert p[i - 1] == pattern[i] && d[i - 1] == db[i]; }
        }
      }
    }
  }

  /** A completed EnsureDatabase gives the account every database its pattern covers, and nobody else
      anything. */
  lemma EnsureReaches(srv: Server, db: string, a: Account, password: string, x: Account, d: string)
    requires ValidIdent(db)
    ensures CanUse(Provisioned(srv, db, a, password), x, d) <==> CanUse(srv, x, d) || (x == a && Fits(db, d))
  {
    IdentCovers(db, d);
    var srv' := Provisioned(srv, db, a, password);
    if CanUse(srv, x, d) {
      var g :| g in srv.grants && g.1 == x && Covers(g.0, d);
      assert g in srv'.grants;
    }
    if x == a && Fits(db, d) { assert (db, a) in srv'.grants; }
  }

  /** The grant is scoped to only that database exactly when the name has no underscore. */
  lemma ScopeIff(db: string)
    requires ValidIdent(db)
    ensures (forall d :: Covers(db, d) ==> d == db) <==> '_' !in db
  {
    if i: nat :| i < |db| && db[i] == '_' {
      var d := db[i := '-'];
      IdentCovers(db, d);
      assert d[i] != db[i];
    } else {
      forall d | Covers(db, d) ensures d == db { IdentCovers(db, d); }
    }
  }
}
