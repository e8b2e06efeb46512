/** The context handed to an IPv4 adapter for one service: an alive/killed
    lifecycle, a status channel to the context's creator, and a credential
    store shared by every context built on the same database, segregated by
    adapter name (network/ipv4/ipv4.go). */
module Ipv4Context {
  import opened Common

  /** The statuses an adapter reports, in the order of their codes 0..3. */
  datatype AdapterStatus = IncorrectService | Handling | Done | Error

  /** The ports a networked service keeps open. */
  datatype ServiceDescription = ServiceDescription(openPorts: seq<u16>)

  /** The `adapter_credential` table: one value per (adapter name, key). */
  class CredentialStore {
    var rows: map<(string, string), string>

    constructor()
      ensures rows == map[]
    {
      rows := map[];
    }
  }

  /** What an adapter finds under `key` in the store, seen as `adapterName`. */
  function Lookup(rows: map<(string, string), string>, adapterName: string, key: string): Option<string>
  {
    if (adapterName, key) in rows then Some(rows[(adapterName, key)]) else None
  }

  /** Storing a value makes it the one found under its key, and nothing seen
      under another key or by another adapter changes. */
  lemma StoreThenLookup(rows: map<(string, string), string>, adapterName: string, key: string, value: string,
                        otherName: string, otherKey: string)
    ensures Lookup(rows[(adapterName, key) := value], adapterName, key) == Some(value)
    ensures otherName != adapterName || otherKey != key ==>
              Lookup(rows[(adapterName, key) := value], otherName, otherKey) == Lookup(rows, otherName, otherKey)
  {
  }

  class ServiceContext {
    /** The IP of the service, in its textual form. */
    const ip: string
    const adapterName: string
    /** The database named by the context's path. */
    const db: CredentialStore
    /** Whether the status channel is still set (not killed). */
    var alive: bool
    /** The statuses delivered on the status channel, in send order. */
    var statuses: seq<AdapterStatus>
    /** How many times the status channel has been closed. */
    var closeCount: nat

    /** BuildContext: a fresh, alive context with an open status channel. */
    constructor BuildContext(ip: string, db: CredentialStore, adapterName: string)
      ensures this.ip == ip && this.db == db && this.adapterName == adapterName
      ensures alive && statuses == [] && closeCount == 0
    {
      this.ip := ip;
      this.db := db;
      this.adapterName := adapterName;
      alive := true;
      statuses := [];
      closeCount := 0;
    }

    predicate IsAlive()
      reads this
    {
      alive
    }

    /** Fails once the context is killed; otherwise delivers the status
        after every earlier one. */
    method SendStatus(ds: AdapterStatus) returns (err: Outcome)
      modifies this`statuses
      ensures err.Fail? <==> !alive
      ensures statuses == if alive then old(statuses) + [ds] else old(statuses)
    {
      if !alive {
        return Fail("context has been killed");
      }
      statuses := statuses + [ds];
      return Pass;
    }

    /** Fails on a killed context; otherwise updates the row for this
        adapter and key when there is one, and inserts it when there is
        not. */
    method StoreData(key: string, value: string) returns (err: Outcome)
      modifies db`rows
      ensures err.Fail? <==> !alive
      ensures db.rows == if alive then old(db.rows)[(adapterName, key) := value] else old(db.rows)
    {
      if !IsAlive() {
        return Fail("Context is dead");
      }
      // The UPDATE of an existing row and the INSERT of a missing one both
      // leave exactly one row for the key, holding the value.
      db.rows := db.rows[(adapterName, key) := value];
      return Pass;
    }

    /** Fails on a killed context and when this adapter has stored nothing
        under `key`; otherwise returns the stored value. */
    method GetData(key: string) returns (r: Result<string>)
      ensures !alive ==> r.Err?
      ensures alive ==> (r.Ok? <==> Lookup(db.rows, adapterName, key).Some?)
      ensures r.Ok? ==> Lookup(db.rows, adapterName, key) == Some(r.value)
    {
      if !IsAlive() {
        return Err("Context is dead");
      }
      var k := (adapterName, key);
      if k !in db.rows {
        return Err("could not get credentials from database: no rows in result set");
      }
      return Ok(db.rows[k]);
    }
  }

  /** Kills a context, if there is one: the status channel is closed if it
      was still open and the context is dead from then on. */
  method KillContext(context: ServiceContext?)
    modifies context
    ensures context != null ==> !context.alive
    ensures context != null ==> context.statuses == old(context.statuses)
    ensures context != null ==>
              context.closeCount == if old(context.alive) then old(context.closeCount) + 1 else old(context.closeCount)
  {
    if context != null {
      if context.alive {
        context.closeCount := context.closeCount + 1;
      }
      context.alive := false;
    }
  }

  /** A context's life as its creator sees it: built alive, one status
      delivered, killed twice with the channel closed once, after which
      sending and both store operations fail and the stored row is kept. */
  method Lifecycle(db: CredentialStore) returns (r1: Outcome, r2: Outcome, r3: Outcome, r4: Result<string>, r5: Outcome)
    modifies db
    ensures r1.Pass? && r2.Fail? && r3.Fail? && r4.Err? && r5.Pass?
  {
    var c := new ServiceContext.BuildContext("10.0.0.2", db, "tcp");
    r5 := c.StoreData("token", "t");
    r1 := c.SendStatus(Handling);
    assert c.statuses == [Handling];
    KillContext(c);
    KillContext(c);
    assert c.closeCount == 1;
    r2 := c.SendStatus(Done);
    r3 := c.StoreData("token", "u");
    r4 := c.GetData("token");
    assert db.rows[("tcp", "token")] == "t";
  }

  /** Two adapters on one database: each reads back its own value under the
      same key. */
  method Segregation(db: CredentialStore) returns (a: Result<string>, b: Result<string>)
    modifies db
    ensures a == Ok("ta") && b == Ok("tb")
  {
    var ca := new ServiceContext.BuildContext("10.0.0.2", db, "connected_by_tcp");
    var cb := new ServiceContext.BuildContext("10.0.0.3", db, "chromecast");
    var _ := ca.StoreData("token", "ta");
    var _ := cb.StoreData("token", "tb");
    a := ca.GetData("token");
    b := cb.GetData("token");
  }
}
