/** The servers as the running operator reaches them: before each call the others may have moved the
    world on, and the call takes effect or not as the oracle of its number says. */
module Client {
  import opened Api
  import opened Convergence
  import opened Credentials
  import opened Edits
  import opened Interference
  import opened Mysql
  import opened Operator
  import opened Store
  import opened Wrappers

  class Servers {
    var w: World
    var calls: nat
    const oracle: Oracle
    const others: Others

    constructor (w: World, oracle: Oracle, others: Others)
      ensures this.w == w && this.oracle == oracle && this.others == others && calls == 0
    {
      this.w := w;
      this.oracle := oracle;
      this.others := others;
      calls := 0;
    }

    function Tick(): Tick reads this { oracle(calls) }

    /** The world the next call meets. */
    function Now(): World reads this { others(calls, w) }

    method Fetch(name: string) returns (r: Answer<Site>)
      modifies this
      ensures w == old(Now()) && calls == old(calls) + 1
      ensures old(Tick()).outcome.Done? ==> r == if name in w.sites then Ok(w.sites[name]) else Err(NotFound)
      ensures !old(Tick()).outcome.Done? ==> r == Err(Unavailable(old(Tick()).outcome.reason))
    {
      var o := Tick().outcome;
      w := Now();
      r := if !o.Done? then Err(Unavailable(o.reason))
           else if name in w.sites then Ok(w.sites[name]) else Err(NotFound);
      calls := calls + 1;
    }

    method Update(copy: Site) returns (r: Answer<Site>)
      modifies this
      ensures (w, r) == Respond(old(Now()), UpdateSite(old(Now()), copy), old(Tick()).outcome) && calls == old(calls) + 1
    {
      var x := Respond(Now(), UpdateSite(Now(), copy), Tick().outcome);
      w, r, calls := x.0, x.1, calls + 1;
    }

    method StatusUpdate(copy: Site) returns (r: Answer<Site>)
      modifies this
      ensures (w, r) == Respond(old(Now()), UpdateStatus(old(Now()), copy), old(Tick()).outcome) && calls == old(calls) + 1
    {
      var x := Respond(Now(), UpdateStatus(Now(), copy), Tick().outcome);
      w, r, calls := x.0, x.1, calls + 1;
    }

    /** A read of a Secret, through the cache. */
    method Get(name: string) returns (r: Answer<SecretObject>)
      modifies this
      ensures w == Tock(old(Now())) && calls == old(calls) + 1
      ensures old(Tick()).outcome.Done? ==>
                var x := SecretRead(old(Now()), name, old(Tick()).view);
                r == if x.Some? then Ok(x.value) else Err(NotFound)
      ensures !old(Tick()).outcome.Done? ==> r == Err(Unavailable(old(Tick()).outcome.reason))
    {
      var k := Tick();
      var x := SecretRead(Now(), name, k.view);
      w := Tock(Now());
      r := if !k.outcome.Done? then Err(Unavailable(k.outcome.reason))
           else if x.Some? then Ok(x.value) else Err(NotFound);
      calls := calls + 1;
    }

    method Create(name: string, owner: nat, data: SecretData) returns (r: Answer<SecretData>)
      modifies this
      ensures (w, r) == Respond(old(Now()), CreateSecret(old(Now()), name, owner, data), old(Tick()).outcome)
      ensures calls == old(calls) + 1
    {
      var x := Respond(Now(), CreateSecret(Now(), name, owner, data), Tick().outcome);
      w, r, calls := x.0, x.1, calls + 1;
    }

    method Replace(name: string, version: nat, owner: nat, data: SecretData) returns (r: Answer<SecretData>)
      modifies this
      ensures (w, r) == Respond(old(Now()), UpdateSecret(old(Now()), name, version, owner, data), old(Tick()).outcome)
      ensures calls == old(calls) + 1
    {
      var x := Respond(Now(), UpdateSecret(Now(), name, version, owner, data), Tick().outcome);
      w, r, calls := x.0, x.1, calls + 1;
    }

    method Patch(key: Key, owner: nat, child: Child) returns (r: Answer<()>)
      modifies this
      ensures (w, r) == Respond(old(Now()), (ApplyChild(old(Now()), key, owner, child), Ok(())), old(Tick()).outcome)
      ensures calls == old(calls) + 1
    {
      var x := Respond<()>(Now(), (ApplyChild(Now(), key, owner, child), Ok(())), Tick().outcome);
      w, r, calls := x.0, x.1, calls + 1;
    }

    method Add(namespace: string, name: string, x: Content) returns (r: Answer<()>)
      modifies this
      ensures var done := CreateSite(old(Now()), namespace, name, x.spec, x.annotations);
              (w, r) == Respond(old(Now()), (done, if name in old(Now()).sites then Err(AlreadyExists) else Ok(())),
                                old(Tick()).outcome)
      ensures calls == old(calls) + 1
    {
      var done := CreateSite(Now(), namespace, name, x.spec, x.annotations);
      var a := Respond<()>(Now(), (done, if name in Now().sites then Err(AlreadyExists) else Ok(())), Tick().outcome);
      w, r, calls := a.0, a.1, calls + 1;
    }

    method Remove(name: string) returns (r: Answer<()>)
      modifies this
      ensures var done := DeleteSite(old(Now()), name);
              (w, r) == Respond(old(Now()), (done, if name in old(Now()).sites then Ok(()) else Err(NotFound)),
                                old(Tick()).outcome)
      ensures calls == old(calls) + 1
    {
      var done := DeleteSite(Now(), name);
      var a := Respond<()>(Now(), (done, if name in Now().sites then Ok(()) else Err(NotFound)), Tick().outcome);
      w, r, calls := a.0, a.1, calls + 1;
    }

    method Exec(s: Statement) returns (r: Answer<()>)
      modifies this
      ensures (w, r) == Respond(old(Now()), ExecuteSql(old(Now()), s), old(Tick()).outcome) && calls == old(calls) + 1
    {
      var x := Respond(Now(), ExecuteSql(Now(), s), Tick().outcome);
      w, r, calls := x.0, x.1, calls + 1;
    }
  }
}
