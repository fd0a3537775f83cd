/**
 The lease lock document and its atomic statements (server/src/repositories/lockRepo.js), and the
 holder's view of it (server/src/locks/leaseLock.js). `$$NOW` is the parameter `now`.
 */
module LockRepo {
  import opened Wrappers

  type Owner = nat
  type Millis = nat
  type Ttl = n: nat | n >= 1 witness 1

  /** expireAfterSeconds of the TTL index on expiresAt (db/migrations/002_indexes.js), in milliseconds. */
  const TTL_DELETE_MS: nat := 86_400_000

  datatype LockDoc = LockDoc(
    owner: Option<Owner>,
    fencingToken: nat,
    expiresAt: Millis,
    acquiredAt: Millis,
    heartbeatAt: Millis,
    lastWriteAt: Option<Millis>)

  function Max(a: nat, b: nat): nat {
    if a < b then b else a
  }

  /** The `grant` update; `previous` is the stored token, 0 when there is none. */
  function GrantDoc(previous: nat, owner: Owner, ttlMs: Ttl, now: Millis): LockDoc {
    LockDoc(Some(owner), Max(previous + 1, now), now + ttlMs, now, now, None)
  }

  /** Step 1 of acquire matches a lease that is free or expired. */
  predicate Takeable(lock: Option<LockDoc>, now: Millis) {
    lock.Some? && (lock.value.owner.None? || lock.value.expiresAt <= now)
  }

  /** The filter of heartbeat and fence: our owner and token on an unexpired lease. */
  predicate Holds(lock: Option<LockDoc>, owner: Owner, token: nat, now: Millis) {
    lock.Some? && lock.value.owner == Some(owner) && lock.value.fencingToken == token && lock.value.expiresAt > now
  }

  function Taken(lock: Option<LockDoc>, owner: Owner, ttlMs: Ttl, now: Millis): Option<LockDoc> {
    if Takeable(lock, now) then Some(GrantDoc(lock.value.fencingToken, owner, ttlMs, now)) else lock
  }

  /** Step 2 upserts; on an existing document the insert collides on _id and nothing changes. */
  function Created(lock: Option<LockDoc>, owner: Owner, ttlMs: Ttl, now: Millis): Option<LockDoc> {
    if lock.None? then Some(GrantDoc(0, owner, ttlMs, now)) else lock
  }

  function Beaten(lock: Option<LockDoc>, owner: Owner, token: nat, ttlMs: Ttl, now: Millis): Option<LockDoc> {
    if Holds(lock, owner, token, now) then Some(lock.value.(expiresAt := now + ttlMs, heartbeatAt := now)) else lock
  }

  function Fenced(lock: Option<LockDoc>, owner: Owner, token: nat, now: Millis): Option<LockDoc> {
    if Holds(lock, owner, token, now) then Some(lock.value.(lastWriteAt := Some(now))) else lock
  }

  predicate OwnedBy(lock: Option<LockDoc>, owner: Owner) {
    lock.Some? && lock.value.owner == Some(owner)
  }

  function Freed(lock: Option<LockDoc>, owner: Owner, now: Millis): Option<LockDoc> {
    if OwnedBy(lock, owner) then Some(lock.value.(owner := None, expiresAt := now)) else lock
  }

  /** The TTL monitor removes a lease once expiresAt is a day in the past. */
  predicate Deletable(lock: Option<LockDoc>, now: Millis) {
    lock.Some? && lock.value.expiresAt + TTL_DELETE_MS <= now
  }

  // ---- the stored document ----

  /** One lock id of the `locks` collection. Every method is one atomic statement. */
  class LockStore {
    var lock: Option<LockDoc>

    constructor ()
      ensures lock == None
    {
      lock := None;
    }

    /** First statement of acquire: take over a free or expired lease. */
    method AcquireTake(owner: Owner, ttlMs: Ttl, now: Millis) returns (doc: Option<LockDoc>)
      modifies this
      ensures lock == Taken(old(lock), owner, ttlMs, now)
      ensures doc == if Takeable(old(lock), now) then lock else None
    {
      match lock
      case Some(d) =>
        if d.owner.None? || d.expiresAt <= now {
          var token := d.fencingToken + 1;
          if token < now {
            token := now;
          }
          lock := Some(LockDoc(Some(owner), token, now + ttlMs, now, now, None));
          doc := lock;
        } else {
          doc := None;
        }
      case None => doc := None;
    }

    /** Second statement of acquire: insert the document, or collide. */
    method AcquireCreate(owner: Owner, ttlMs: Ttl, now: Millis) returns (doc: Option<LockDoc>)
      modifies this
      ensures lock == Created(old(lock), owner, ttlMs, now)
      ensures doc == if old(lock).None? then lock else None
    {
      if lock.None? {
        lock := Some(LockDoc(Some(owner), if 1 < now then now else 1, now + ttlMs, now, now, None));
        doc := lock;
      } else {
        doc := None;
      }
    }

    method Heartbeat(owner: Owner, token: nat, ttlMs: Ttl, now: Millis) returns (ok: bool)
      modifies this
      ensures lock == Beaten(old(lock), owner, token, ttlMs, now)
      ensures ok == Holds(old(lock), owner, token, now)
    {
      ok := Holds(lock, owner, token, now);
      if ok {
        lock := Some(lock.value.(expiresAt := now + ttlMs, heartbeatAt := now));
      }
    }

    method Fence(owner: Owner, token: nat, now: Millis) returns (ok: bool)
      modifies this
      ensures lock == Fenced(old(lock), owner, token, now)
      ensures ok == Holds(old(lock), owner, token, now)
    {
      ok := Holds(lock, owner, token, now);
      if ok {
        lock := Some(lock.value.(lastWriteAt := Some(now)));
      }
    }

    method Release(owner: Owner, now: Millis) returns (released: bool)
      modifies this
      ensures lock == Freed(old(lock), owner, now)
      ensures released == OwnedBy(old(lock), owner)
    {
      released := OwnedBy(lock, owner);
      if released {
        lock := Some(lock.value.(owner := None, expiresAt := now));
      }
    }
  }

  // ---- the holder ----

  /** A granted lease in the process that holds it. `lost` and `released` only ever become true. */
  class Lease {
    const owner: Owner
    const fencingToken: nat
    const ttlMs: Ttl
    const repo: LockStore
    var lost: bool
    var released: bool

    constructor (owner: Owner, fencingToken: nat, ttlMs: Ttl, repo: LockStore)
      ensures this.owner == owner && this.fencingToken == fencingToken && this.ttlMs == ttlMs && this.repo == repo
      ensures !lost && !released
    {
      this.owner, this.fencingToken, this.ttlMs, this.repo := owner, fencingToken, ttlMs, repo;
      lost, released := false, false;
    }

    method Heartbeat(now: Millis) returns (ok: bool)
      modifies this, repo
      ensures ok == (!old(lost) && !old(released) && Holds(old(repo.lock), owner, fencingToken, now))
      ensures lost == (old(lost) || (!old(released) && !ok)) && released == old(released)
      ensures repo.lock == if ok then Beaten(old(repo.lock), owner, fencingToken, ttlMs, now) else old(repo.lock)
    {
      if lost || released {
        return false;
      }
      ok := repo.Heartbeat(owner, fencingToken, ttlMs, now);
      if !ok {
        lost := true;
      }
    }

    /** First statement of a guarded transaction; Err is LockLostError, which aborts it. */
    method Fence(now: Millis) returns (r: Result<(), string>)
      modifies this, repo
      ensures r.Ok? == (!old(lost) && !old(released) && Holds(old(repo.lock), owner, fencingToken, now))
      ensures lost == (old(lost) || (!old(released) && r.Err?)) && released == old(released)
      ensures repo.lock == if r.Ok? then Fenced(old(repo.lock), owner, fencingToken, now) else old(repo.lock)
    {
      if lost || released {
        return Err("LOCK_LOST");
      }
      var ok := repo.Fence(owner, fencingToken, now);
      if ok {
        r := Ok(());
      } else {
        lost := true;
        r := Err("LOCK_LOST");
      }
    }

    /** Safe to call repeatedly: only the first call reaches the repository. */
    method Release(now: Millis) returns (freed: bool)
      modifies this, repo
      ensures released && lost == old(lost)
      ensures freed == (!old(released) && OwnedBy(old(repo.lock), owner))
      ensures repo.lock == if old(released) then old(repo.lock) else Freed(old(repo.lock), owner, now)
    {
      if released {
        return false;
      }
      released := true;
      freed := repo.Release(owner, now);
    }
  }
}
