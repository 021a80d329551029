/** The two lease stores behind the scheduler: an in-memory map, and conditional statements on a SQL table. */
module Leases {

  datatype Lease = Lease(owner: string, expiresAt: int)

  type Table = map<string, Lease>

  datatype Answer = Answer(table: Table, ok: bool)

  // ---------------------------------------------------------------- what the stores answer

  function MemoryAcquire(t: Table, key: string, owner: string, expiresAt: int, now: int): Answer {
    if key in t && t[key].expiresAt > now && t[key].owner != owner then Answer(t, false)
    else Answer(t[key := Lease(owner, expiresAt)], true)
  }

  function MemoryRenew(t: Table, key: string, owner: string, expiresAt: int): Answer {
    if key !in t || t[key].owner != owner then Answer(t, false)
    else Answer(t[key := Lease(owner, expiresAt)], true)
  }

  function MemoryRelease(t: Table, key: string, owner: string): Answer {
    if key !in t || t[key].owner != owner then Answer(t, false)
    else Answer(t - {key}, true)
  }

  /** INSERT ... ON CONFLICT DO UPDATE ... WHERE owner_id = EXCLUDED.owner_id OR expires_at < now(). */
  function SqlAcquire(t: Table, key: string, owner: string, ttl: int, now: int): Answer {
    if key in t && !(t[key].owner == owner || t[key].expiresAt < now) then Answer(t, false)
    else Answer(t[key := Lease(owner, now + ttl)], true)
  }

  /** DELETE ... WHERE lease_key = $1 AND owner_id = $2. */
  function SqlRelease(t: Table, key: string, owner: string): Answer {
    if key in t && t[key].owner == owner then Answer(t - {key}, true) else Answer(t, false)
  }

  class InMemoryLeaseStore {
    var leases: Table

    constructor ()
      ensures leases == map[]
    {
      leases := map[];
    }

    method Acquire(key: string, owner: string, expiresAt: int, now: int) returns (ok: bool)
      modifies this
      ensures Answer(leases, ok) == MemoryAcquire(old(leases), key, owner, expiresAt, now)
      ensures ok <==> key !in old(leases) || old(leases)[key].owner == owner || old(leases)[key].expiresAt <= now
      ensures leases == if ok then old(leases)[key := Lease(owner, expiresAt)] else old(leases)
    {
      if key in leases {
        var existing := leases[key];
        if existing.expiresAt > now && existing.owner != owner {
          return false;
        }
      }
      leases := leases[key := Lease(owner, expiresAt)];
      return true;
    }

    method Renew(key: string, owner: string, expiresAt: int) returns (ok: bool)
      modifies this
      ensures Answer(leases, ok) == MemoryRenew(old(leases), key, owner, expiresAt)
      ensures ok <==> key in old(leases) && old(leases)[key].owner == owner
      ensures leases == if ok then old(leases)[key := Lease(owner, expiresAt)] else old(leases)
    {
      if key !in leases || leases[key].owner != owner {
        return false;
      }
      leases := leases[key := Lease(owner, expiresAt)];
      return true;
    }

    method Release(key: string, owner: string) returns (ok: bool)
      modifies this
      ensures Answer(leases, ok) == MemoryRelease(old(leases), key, owner)
      ensures ok <==> key in old(leases) && old(leases)[key].owner == owner
      ensures ok ==> key !in leases
      ensures forall other :: other != key || !ok ==>
        (other in leases <==> other in old(leases)) && (other in leases ==> leases[other] == old(leases)[other])
    {
      if key !in leases || leases[key].owner != owner {
        return false;
      }
      leases := leases - {key};
      return true;
    }
  }

  class LeaseTable {
    var rows: Table

    constructor ()
      ensures rows == map[]
    {
      rows := map[];
    }

    method AcquireLease(key: string, owner: string, ttl: int, now: int) returns (ok: bool)
      modifies this
      ensures Answer(rows, ok) == SqlAcquire(old(rows), key, owner, ttl, now)
      ensures ok <==> key !in old(rows) || old(rows)[key].owner == owner || old(rows)[key].expiresAt < now
      ensures rows == if ok then old(rows)[key := Lease(owner, now + ttl)] else old(rows)
    {
      var rowCount := 0;
      if key !in rows {
        rows := rows[key := Lease(owner, now + ttl)];
        rowCount := 1;
      } else if rows[key].owner == owner || rows[key].expiresAt < now {
        rows := rows[key := Lease(owner, now + ttl)];
        rowCount := 1;
      }
      ok := rowCount == 1 && rows[key].owner == owner;
    }

    method ReleaseLease(key: string, owner: string) returns (ok: bool)
      modifies this
      ensures Answer(rows, ok) == SqlRelease(old(rows), key, owner)
      ensures ok <==> key in old(rows) && old(rows)[key].owner == owner
      ensures ok ==> key !in rows
      ensures forall other :: other != key || !ok ==>
        (other in rows <==> other in old(rows)) && (other in rows ==> rows[other] == old(rows)[other])
    {
      ok := key in rows && rows[key].owner == owner;
      if ok {
        rows := rows - {key};
      }
    }
  }

  /** The stores give the same answer to an acquisition, except at the very instant another's lease expires. */
  lemma StoresAgreeIff(t: Table, key: string, owner: string, ttl: int, now: int)
    ensures MemoryAcquire(t, key, owner, now + ttl, now) == SqlAcquire(t, key, owner, ttl, now)
      <==> !(key in t && t[key].owner != owner && t[key].expiresAt == now)
  {
  }

  // ---------------------------------------------------------------- exclusivity over time

  /** A request by one replica at one instant. */
  datatype Request =
    | Acquire(owner: string, expiresAt: int, at: int)
    | Renew(owner: string, expiresAt: int, at: int)
    | Release(owner: string, at: int)

  datatype Store = InMemory | Sql

  function Serve(store: Store, t: Table, key: string, r: Request): Answer {
    match r
    case Acquire(owner, expiresAt, at) =>
      if store.InMemory? then MemoryAcquire(t, key, owner, expiresAt, at)
      else SqlAcquire(t, key, owner, expiresAt - at, at)
    case Renew(owner, expiresAt, at) =>
      if store.InMemory? then MemoryRenew(t, key, owner, expiresAt)
      else SqlAcquire(t, key, owner, expiresAt - at, at)
    case Release(owner, _) =>
      if store.InMemory? then MemoryRelease(t, key, owner) else SqlRelease(t, key, owner)
  }

  function ServeAll(store: Store, t: Table, key: string, requests: seq<Request>): Table
    decreases |requests|
  {
    if requests == [] then t else ServeAll(store, Serve(store, t, key, requests[0]).table, key, requests[1..])
  }

  /** Did any request of a replica other than `owner` succeed? */
  predicate SomebodyElseGotIn(store: Store, t: Table, key: string, requests: seq<Request>, owner: string)
    decreases |requests|
  {
    && requests != []
    && var answer := Serve(store, t, key, requests[0]);
       (requests[0].owner != owner && answer.ok) || SomebodyElseGotIn(store, answer.table, key, requests[1..], owner)
  }

  /** The owner neither releases nor shortens its lease. */
  predicate OwnerKeeps(requests: seq<Request>, owner: string, until: int) {
    forall i :: 0 <= i < |requests| && requests[i].owner == owner ==>
      !requests[i].Release? && until <= requests[i].expiresAt
  }

  /**
   * Once a replica holds a key until some instant, no other replica acquires, renews or releases it before that
   * instant unless the owner gives it up; whatever all of them ask, in whatever order, of either store.
   */
  lemma {:induction false} LeaseIsExclusive(
    store: Store, t: Table, key: string, requests: seq<Request>, owner: string, until: int)
    requires key in t && t[key].owner == owner && until <= t[key].expiresAt
    requires forall i :: 0 <= i < |requests| ==> requests[i].at < until
    requires OwnerKeeps(requests, owner, until)
    ensures !SomebodyElseGotIn(store, t, key, requests, owner)
    ensures var end := ServeAll(store, t, key, requests);
      key in end && end[key].owner == owner && until <= end[key].expiresAt
    decreases |requests|
  {
    if requests != [] {
      var next := Serve(store, t, key, requests[0]).table;
      LeaseIsExclusive(store, next, key, requests[1..], owner, until);
    }
  }

  /** A crashed owner is replaced: once the lease has expired, anybody's acquisition succeeds in either store. */
  lemma ExpiredLeaseIsFree(store: Store, t: Table, key: string, owner: string, expiresAt: int, at: int)
    requires key in t ==> t[key].expiresAt < at
    ensures var a := Serve(store, t, key, Acquire(owner, expiresAt, at));
      a.ok && a.table == t[key := Lease(owner, expiresAt)]
  {
  }
}
