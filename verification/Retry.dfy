/** No failure is swallowed: a reconcile that does not ask to be retried has finished its job. */
module Retry {
  import opened Api
  import opened Convergence
  import opened Credentials
  import opened Honesty
  import opened Interference
  import opened Keyring
  import opened Mysql
  import opened Names
  import opened Operator
  import opened Recovery
  import opened Store
  import opened System
  import opened Wrappers

  /** The same clock and random values, without failures. */
  function Calmed(o: Oracle): Oracle { (i: nat) => o(i).(outcome := Done) }

  /** The reconcile is bound to ask for a retry. */
  predicate Doomed(pc: Pc) { pc == Stopped(true) || (pc.WriteStatus? && pc.phase in {Error, Provisioning}) }

  lemma FaultDooms(c: Config, w: World, pc: Pc, k: Tick)
    requires !pc.Stopped? && !k.outcome.Done?
    ensures Doomed(Effect(c, w, pc, k).1)
  { }

  lemma DoomedRetries(c: Config, w: World, pc: Pc, o: Oracle, i: nat)
    requires Doomed(pc)
    ensures Drive(c, w, pc, o, i).1 == Stopped(true)
  { }

  /** Without a retry, nothing failed on the way. */
  lemma {:induction false} NoRetryIsCalm(c: Config, w: World, pc: Pc, o: Oracle, i: nat)
    requires Drive(c, w, pc, o, i).1 == Stopped(false)
    ensures Drive(c, w, pc, Calmed(o), i) == Drive(c, w, pc, o, i)
    decreases Rank(pc)
  {
    if !pc.Stopped? {
      var (w', pc') := Effect(c, w, pc, o(i));
      EffectAdvances(c, w, pc, o(i));
      DriveOne(c, w, pc, o, i, w', pc');
      if !o(i).outcome.Done? {
        FaultDooms(c, w, pc, o(i));
        DoomedRetries(c, w', pc', o, i + 1);
      } else {
        assert Calmed(o)(i) == o(i);
        DriveOne(c, w, pc, Calmed(o), i, w', pc');
        NoRetryIsCalm(c, w', pc', o, i + 1);
      }
    }
  }

  /** A read that, if of the stored version, is of the stored object. */
  ghost predicate Truthful(w: World, n: string, x: Option<SecretObject>) {
    x.Some? && SecretOf(w, n).Some? && x.value.version == SecretOf(w, n).value.version ==> x == SecretOf(w, n)
  }

  /** In every reachable state (Keyring.RunHolds), what the cache can show is truthful. */
  lemma ReadableIsTruthful(s: System, n: string, v: View)
    requires Held(s, n) && Readable(CacheOf(s, n), v)
    ensures Truthful(s.w, n, SecretRead(s.w, SecretKey(n), v))
  {
    ReadIsGenuine(s, n, v);
  }

  ghost predicate ReadComplete(x: Option<SecretObject>) { x.Some? && Complete(x.value.data) }

  /** Writing over an incomplete Secret that is not the stored one is refused. */
  lemma StaleWriteRetries(c: Config, w: World, l: Site, x: Option<SecretObject>, desired: SecretData, o: Oracle, i: nat)
    requires Faultless(o) && Truthful(w, l.name, x) && x != SecretOf(w, l.name)
    ensures Drive(c, w, PutSecret(l, x, desired), o, i).1 == Stopped(true)
  {
    var (w', pc') := DoPutSecret(w, l, x, desired, o(i));
    DriveOne(c, w, PutSecret(l, x, desired), o, i, w', pc');
    DoomedRetries(c, w', pc', o, i + 1);
  }

  lemma StaleReadRetries(c: Config, w: World, n: string, o: Oracle)
    requires Faultless(o) && Live(w, n) && !w.sites[n].spec.suspend
    requires !ReadComplete(ReadBy(w, n, o)) && Truthful(w, n, ReadBy(w, n, o)) && ReadBy(w, n, o) != SecretOf(w, n)
    ensures Drive(c, w, Start(c, w.sites[n]), o, 0).1 == Stopped(true)
  {
    var x := ReadBy(w, n, o);
    var w1, l, i := DriveStart(c, w, n, o);
    var desired := Filled(if x.Some? then x.value.data else map[], o(i).random);
    CalmGet(w1, l, o(i));
    DriveOne(c, w1, GetSecret(l), o, i, Tock(w1), PutSecret(l, x, desired));
    StaleWriteRetries(c, Tock(w1), l, x, desired, o, i + 1);
  }

  lemma UnusableRetries(c: Config, w: World, n: string, o: Oracle)
    requires Faultless(o) && Live(w, n) && !w.sites[n].spec.suspend && !UsableNames(w.sites[n])
    requires ReadComplete(ReadBy(w, n, o)) || ReadBy(w, n, o) == SecretOf(w, n)
    ensures Drive(c, w, Start(c, w.sites[n]), o, 0).1 == Stopped(true)
  {
    var w1, l, i := DriveStart(c, w, n, o);
    var w2, password, j := SecretStage(c, w1, l, o, i);
    DoomedRetries(c, w2, Provision(l, password), o, j);
  }

  lemma SecretStage(c: Config, w: World, l: Site, o: Oracle, i: nat) returns (w': World, password: string, j: nat)
    requires Faultless(o)
    requires var x := SecretRead(w, SecretKey(l.name), o(i).view); ReadComplete(x) || x == SecretOf(w, l.name)
    ensures Drive(c, w, GetSecret(l), o, i) == Drive(c, w', Provision(l, password), o, j)
  {
    var x := SecretRead(w, SecretKey(l.name), o(i).view);
    if ReadComplete(x) {
      DriveKept(c, w, l, x.value, o, i);
      w', password, j := Tock(w), Password(x.value.data), i + 1;
    } else {
      w', j := DriveSecret(c, w, l, o, i);
      password := Password(SecretOf(w', l.name).value.data);
    }
  }

  /** A reconcile of an active site that asks for no retry met usable names and read either the stored
      Secret or a complete one. */
  lemma NoRetryReads(c: Config, w: World, n: string, o: Oracle)
    requires Live(w, n) && !w.sites[n].spec.suspend && Truthful(w, n, ReadBy(w, n, o))
    requires (forall i: nat :: NonEmpty(o(i).random)) && Drive(c, w, Start(c, w.sites[n]), o, 0).1 == Stopped(false)
    ensures UsableNames(w.sites[n]) && (ReadComplete(ReadBy(w, n, o)) || ReadBy(w, n, o) == SecretOf(w, n))
    ensures Reconciled(c, w, n, o) == Reconciled(c, w, n, Calmed(o))
  {
    var calm := Calmed(o);
    NoRetryIsCalm(c, w, Start(c, w.sites[n]), o, 0);
    assert ReadBy(w, n, calm) == ReadBy(w, n, o);
    if !ReadComplete(ReadBy(w, n, o)) && ReadBy(w, n, o) != SecretOf(w, n) {
      StaleReadRetries(c, w, n, calm);
    } else if !UsableNames(w.sites[n]) {
      UnusableRetries(c, w, n, calm);
    }
  }

  /** What a reconcile kept is what is stored, as far as it matters to MySQL. */
  ghost predicate KeptIsStored(w: World, n: string, x: Option<SecretObject>) {
    ReadComplete(x) ==> SecretComplete(w, n) && Password(SecretOf(w, n).value.data) == Password(x.value.data)
  }

  /** Under any failures, lost answers, lagging Secret reads, clock and random values: a reconcile of a
      live site that does not ask for a retry leaves the site settled, so that the next one changes
      nothing, unless it kept a complete Secret that is not stored any more; and exactly then not. */
  lemma NoRetryMeansSettled(c: Config, w: World, n: string, o: Oracle)
    requires Live(w, n) && (forall i: nat :: NonEmpty(o(i).random)) && Truthful(w, n, ReadBy(w, n, o))
    requires Drive(c, w, Start(c, w.sites[n]), o, 0).1 == Stopped(false)
    ensures Settled(c, Reconciled(c, w, n, o), n) <==> w.sites[n].spec.suspend || KeptIsStored(w, n, ReadBy(w, n, o))
  {
    var calm, x := Calmed(o), ReadBy(w, n, o);
    NoRetryIsCalm(c, w, Start(c, w.sites[n]), o, 0);
    if w.sites[n].spec.suspend {
      RecoverSuspended(c, w, n, calm);
    } else {
      NoRetryReads(c, w, n, o);
      ActiveIsSettledIff(c, w, n, calm);
    }
  }

  lemma ActiveIsSettledIff(c: Config, w: World, n: string, o: Oracle)
    requires Faultless(o) && Live(w, n) && !w.sites[n].spec.suspend && UsableNames(w.sites[n])
    requires ReadComplete(ReadBy(w, n, o)) || ReadBy(w, n, o) == SecretOf(w, n)
    ensures Settled(c, Reconciled(c, w, n, o), n) <==> KeptIsStored(w, n, ReadBy(w, n, o))
  {
    var w', x := Reconciled(c, w, n, o), ReadBy(w, n, o);
    if ReadComplete(x) {
      RecoverKeeping(c, w, n, x.value, o);
      if SecretComplete(w, n) {
        EnsuredIff(w.mysql, w.sites[n], w'.sites[n], Password(x.value.data), Password(SecretOf(w, n).value.data));
      }
    } else {
      Recover(c, w, n, o);
      EnsuredTwice(w.mysql, w.sites[n], w'.sites[n], Password(SecretOf(w', n).value.data));
    }
  }

  /** Provisioning again changes nothing exactly when the password is the same. */
  lemma EnsuredIff(srv: Server, l: Site, s: Site, password: string, again: string)
    requires SameSite(l, s)
    ensures Ensured(Ensured(srv, l, password), s, again) == Ensured(srv, l, password) <==> again == password
  {
    EnsuredTwice(srv, l, s, password);
    assert Ensured(Ensured(srv, l, password), s, again).users[AccountOf(s)] == again;
    assert Ensured(srv, l, password).users[AccountOf(s)] == password;
  }

  /** A Ready site can log in with the password of a complete Secret that is its own. */
  ghost predicate Vouched(w: World, n: string)
    requires n in w.sites
  {
    && OwnSecret(w, w.sites[n])
    && Ensured(w.mysql, w.sites[n], Password(SecretOf(w, w.sites[n].name).value.data)) == w.mysql
  }

  /** The same with the Secret being the site's own. */
  ghost predicate KeptIsOwn(w: World, n: string, x: Option<SecretObject>)
    requires n in w.sites
  {
    ReadComplete(x) ==> OwnSecret(w, w.sites[n]) && Password(SecretOf(w, w.sites[n].name).value.data) == Password(x.value.data)
  }

  /** An active site that a reconcile without retry left Ready stands by its report, through the next
      collection too, exactly when the complete Secret it kept, if it kept one, is its own and stored. */
  lemma ReadyIsVouchedIff(c: Config, w: World, n: string, o: Oracle)
    requires Live(w, n) && !w.sites[n].spec.suspend && Truthful(w, n, ReadBy(w, n, o))
    requires (forall i: nat :: NonEmpty(o(i).random)) && Drive(c, w, Start(c, w.sites[n]), o, 0).1 == Stopped(false)
    ensures var w' := CollectSecret(Reconciled(c, w, n, o), n, SecretKey(n));
            && n in w'.sites && UpToDate(w'.sites[n])
            && (Vouched(w', n) <==> KeptIsOwn(w, n, ReadBy(w, n, o)))
  {
    var calm, x := Calmed(o), ReadBy(w, n, o);
    NoRetryReads(c, w, n, o);
    assert ReadBy(w, n, calm) == x;
    if ReadComplete(x) {
      KeptIsVouchedIff(c, w, n, x.value, calm);
    } else {
      FilledIsVouched(c, w, n, calm);
    }
  }

  lemma FilledIsVouched(c: Config, w: World, n: string, o: Oracle)
    requires Faultless(o) && Live(w, n) && !w.sites[n].spec.suspend && UsableNames(w.sites[n])
    requires ReadBy(w, n, o) == SecretOf(w, n) && !ReadComplete(SecretOf(w, n))
    ensures var w' := CollectSecret(Reconciled(c, w, n, o), n, SecretKey(n));
            n in w'.sites && UpToDate(w'.sites[n]) && Vouched(w', n)
  {
    var w' := Reconciled(c, w, n, o);
    Recover(c, w, n, o);
    EnsuredTwice(w.mysql, w.sites[n], w'.sites[n], Password(SecretOf(w', n).value.data));
    CollectKeepsSecret(w', n, w'.sites[n]);
  }

  lemma KeptIsVouchedIff(c: Config, w: World, n: string, x: SecretObject, o: Oracle)
    requires Faultless(o) && Live(w, n) && !w.sites[n].spec.suspend && UsableNames(w.sites[n])
    requires ReadBy(w, n, o) == Some(x) && Complete(x.data)
    ensures var w' := CollectSecret(Reconciled(c, w, n, o), n, SecretKey(n));
            && n in w'.sites && UpToDate(w'.sites[n])
            && (Vouched(w', n) <==> KeptIsOwn(w, n, Some(x)))
  {
    var w' := Reconciled(c, w, n, o);
    RecoverKeeping(c, w, n, x, o);
    if OwnSecret(w, w.sites[n]) {
      EnsuredIff(w.mysql, w.sites[n], w'.sites[n], Password(x.data), Password(SecretOf(w, n).value.data));
      CollectKeepsSecret(w', n, w'.sites[n]);
    }
  }

  /** The same for a site being deleted: without a retry its data is gone, if it was to go, and the object
      has been let go. */
  lemma NoRetryMeansReleased(c: Config, w: World, n: string, o: Oracle)
    requires n in w.sites && w.sites[n].name == n && w.sites[n].deleting && FINALIZER in w.sites[n].finalizers
    requires (forall i: nat :: NonEmpty(o(i).random)) && Drive(c, w, Start(c, w.sites[n]), o, 0).1 == Stopped(false)
    ensures var w', s := Reconciled(c, w, n, o), w.sites[n];
            && (n in w'.sites <==> s.finalizers != {FINALIZER})
            && (n in w'.sites ==> FINALIZER !in w'.sites[n].finalizers)
            && (c.dropDataOnDelete ==>
                  && DatabaseName(s) !in w'.mysql.databases && AccountOf(s) !in w'.mysql.users
                  && forall g :: g in w'.mysql.grants ==> g.1 != AccountOf(s))
            && (!c.dropDataOnDelete ==> w'.mysql == w.mysql)
  {
    var calm := Calmed(o);
    NoRetryIsCalm(c, w, Start(c, w.sites[n]), o, 0);
    RecoverDeletion(c, w, n, calm);
  }

  // ---- A reconcile left alone ----

  function Shifted(o: Oracle, k: nat): Oracle { (i: nat) => o(i + k) }

  /** Driven by the one oracle and by the other, the reconcile ends in the same world and the same way. */
  ghost predicate Alike(c: Config, w: World, pc: Pc, o: Oracle, j: nat, s: Oracle, i: nat) {
    var a, b := Drive(c, w, pc, o, j), Drive(c, w, pc, s, i);
    a.0 == b.0 && a.1 == b.1
  }

  ghost predicate AllAlike(c: Config, bound: nat, o: Oracle, j: nat, s: Oracle, i: nat) {
    forall w, pc :: Rank(pc) < bound ==> Alike(c, w, pc, o, j, s, i)
  }

  lemma StoppedAlike(c: Config, w: World, pc: Pc, o: Oracle, j: nat, s: Oracle, i: nat)
    requires pc.Stopped?
    ensures Alike(c, w, pc, o, j, s, i)
  { }

  lemma AlikeBefore(c: Config, w: World, pc: Pc, o: Oracle, j: nat, s: Oracle, i: nat)
    requires !pc.Stopped? && s(i) == o(j)
    requires AllAlike(c, Rank(pc), o, j + 1, s, i + 1)
    ensures Alike(c, w, pc, o, j, s, i)
  {
    EffectAdvances(c, w, pc, o(j));
    var (w', pc') := Effect(c, w, pc, o(j));
    assert Alike(c, w', pc', o, j + 1, s, i + 1);
    DriveOne(c, w, pc, o, j, w', pc');
    DriveOne(c, w, pc, s, i, w', pc');
  }

  lemma {:induction false} DriveShifted(c: Config, w: World, pc: Pc, o: Oracle, s: Oracle, k: nat, i: nat, j: nat)
    requires j == i + k && forall m: nat :: s(m) == o(m + k)
    ensures Alike(c, w, pc, o, j, s, i)
    decreases Rank(pc)
  {
    if pc.Stopped? {
      StoppedAlike(c, w, pc, o, j, s, i);
    } else {
      var i', j' := i + 1, j + 1;
      forall w', pc' | Rank(pc') < Rank(pc) ensures Alike(c, w', pc', o, j', s, i') {
        DriveShifted(c, w', pc', o, s, k, i', j');
      }
      AlikeBefore(c, w, pc, o, j, s, i);
    }
  }

  lemma AloneIsReconciled(c: Config, w: World, n: string, o: Oracle, others: Others, i: nat)
    requires LeftAlone(others) && n in w.sites
    ensures var end := Amid(c, w, Start(c, w.sites[n]), o, others, i);
            end.0 == Reconciled(c, w, n, Shifted(o, i)) && end.1 == Drive(c, w, Start(c, w.sites[n]), Shifted(o, i), 0).1
  {
    Alone(c, w, Start(c, w.sites[n]), o, others, i);
    DriveShifted(c, w, Start(c, w.sites[n]), o, Shifted(o, i), i, 0, i);
  }

  lemma CalmNeedsNoRetry(c: Config, w: World, n: string, o: Oracle)
    requires Calm(o) && Live(w, n) && (w.sites[n].spec.suspend || UsableNames(w.sites[n]))
    ensures Drive(c, w, Start(c, w.sites[n]), o, 0).1 == Stopped(false)
  {
    var w1, l, i := DriveStart(c, w, n, o);
    if l.spec.suspend {
      DriveFinish(c, w1, l, o, i);
    } else {
      var w2, now := DriveActive(c, w1, l, o, i);
    }
  }
}
