/**
 The lease and fencing protocol as a transition system over one lock document and a monotone server
 clock. Every holder may be stale and may resume at any step. A fenced transaction keeps the lock
 document write-locked from its fence to its commit or abort; the clock, and so expiry, runs on.
 */
module LeaseProtocol {
  import opened Wrappers
  import opened LockRepo

  datatype Grant = Grant(owner: Owner, token: nat)

  /**
   `txn` is the open guarded transaction; `grants` and `commits` are histories; `lifetime` holds the
   acquisition times of the current lock document.
   */
  datatype State = State(
    now: Millis,
    lock: Option<LockDoc>,
    txn: Option<Grant>,
    grants: seq<Grant>,
    commits: seq<Grant>,
    lifetime: seq<Millis>)

  datatype Step =
    | Tick(millis: nat)
    | Take(owner: Owner, ttlMs: Ttl)
    | Create(owner: Owner, ttlMs: Ttl)
    | Heartbeat(holder: Grant, ttlMs: Ttl)
    | Fence(holder: Grant)
    | Commit
    | Abort
    | Release(owner: Owner)
    | TtlDelete

  predicate Granted(s: State, owner: Owner) {
    exists k :: 0 <= k < |s.grants| && s.grants[k].owner == owner
  }

  /** A write of the lock document conflicts with an open guarded transaction. */
  predicate Free(s: State) {
    s.txn.None?
  }

  predicate Enabled(s: State, step: Step) {
    match step
    case Tick(_) => true
    case Take(owner, _) => !Granted(s, owner) && (Takeable(s.lock, s.now) ==> Free(s))
    case Create(owner, _) => !Granted(s, owner) && (s.lock.None? ==> Free(s))
    case Heartbeat(h, _) => Holds(s.lock, h.owner, h.token, s.now) ==> Free(s)
    case Fence(h) => Holds(s.lock, h.owner, h.token, s.now) ==> Free(s)
    case Commit => s.txn.Some?
    case Abort => s.txn.Some?
    case Release(owner) => OwnedBy(s.lock, owner) ==> Free(s)
    case TtlDelete => Deletable(s.lock, s.now) && Free(s)
  }

  function WithGrant(s: State, lock: Option<LockDoc>, owner: Owner, lifetime: seq<Millis>): State
    requires lock.Some?
  {
    s.(lock := lock, grants := s.grants + [Grant(owner, lock.value.fencingToken)], lifetime := lifetime + [s.now])
  }

  function After(s: State, step: Step): State
    requires Enabled(s, step)
  {
    match step
    case Tick(d) => s.(now := s.now + d)
    case Take(owner, ttl) =>
      if Takeable(s.lock, s.now) then WithGrant(s, Taken(s.lock, owner, ttl, s.now), owner, s.lifetime)
      else s.(lock := Taken(s.lock, owner, ttl, s.now))
    case Create(owner, ttl) =>
      if s.lock.None? then WithGrant(s, Created(s.lock, owner, ttl, s.now), owner, [])
      else s.(lock := Created(s.lock, owner, ttl, s.now))
    case Heartbeat(h, ttl) => s.(lock := Beaten(s.lock, h.owner, h.token, ttl, s.now))
    case Fence(h) =>
      if Holds(s.lock, h.owner, h.token, s.now)
      then s.(lock := Fenced(s.lock, h.owner, h.token, s.now), txn := Some(h))
      else s.(lock := Fenced(s.lock, h.owner, h.token, s.now))
    case Commit => s.(commits := s.commits + [s.txn.value], txn := None)
    case Abort => s.(txn := None)
    case Release(owner) => s.(lock := Freed(s.lock, owner, s.now))
    case TtlDelete => s.(lock := None)
  }

  predicate Init(s: State) {
    s.now >= 1 && s.lock.None? && s.txn.None? && s.grants == [] && s.commits == [] && s.lifetime == []
  }

  // ---- fencing-token arithmetic ----

  /** The token after acquisitions at `times` within one document lifetime. */
  function TokenOf(times: seq<Millis>): nat {
    if times == [] then 0
    else Max(TokenOf(times[..|times| - 1]) + 1, times[|times| - 1])
  }

  /**
   Closed form: token_n = max over j <= n of (now_j + n - j). With 0-based j the term is
   times[j] + (|times| - 1 - j); no term exceeds the token and one reaches it.
   */
  lemma {:induction false} TokenClosedForm(times: seq<Millis>)
    requires times != [] && forall i | 0 <= i < |times| :: times[i] >= 1
    ensures forall j | 0 <= j < |times| :: times[j] + (|times| - 1 - j) <= TokenOf(times)
    ensures exists j :: 0 <= j < |times| && times[j] + (|times| - 1 - j) == TokenOf(times)
  {
    var n := |times| - 1;
    if n > 0 {
      var before := times[..n];
      TokenClosedForm(before);
      var j :| 0 <= j < |before| && before[j] + (|before| - 1 - j) == TokenOf(before);
      forall i | 0 <= i < n ensures times[i] + (n - i) <= TokenOf(times) {
        assert before[i] + (|before| - 1 - i) <= TokenOf(before);
      }
      if TokenOf(before) + 1 < times[n] {
        assert times[n] + (n - n) == TokenOf(times);
      } else {
        assert times[j] + (n - j) == TokenOf(times);
      }
    } else {
      assert TokenOf(times[..0]) == 0;
      assert times[0] + (0 - 0) == TokenOf(times);
    }
  }

  /** So the token leads the last acquisition time by less than the number of acquisitions. */
  lemma {:induction false} TokenLead(times: seq<Millis>)
    requires times != [] && forall i | 0 <= i < |times| :: times[i] >= 1
    requires forall i, j | 0 <= i <= j < |times| :: times[i] <= times[j]
    ensures times[|times| - 1] <= TokenOf(times) <= times[|times| - 1] + |times| - 1
  {
    TokenClosedForm(times);
    var j :| 0 <= j < |times| && times[j] + (|times| - 1 - j) == TokenOf(times);
    assert times[|times| - 1] + (|times| - 1 - (|times| - 1)) <= TokenOf(times);
  }

  /** How many acquisitions happened in the last acquisition's own millisecond. */
  function InLastMillisecond(times: seq<Millis>): nat
    requires times != []
  {
    CountOf(times, times[|times| - 1])
  }

  function CountOf(times: seq<Millis>, t: Millis): nat {
    if times == [] then 0
    else CountOf(times[..|times| - 1], t) + (if times[|times| - 1] == t then 1 else 0)
  }

  /** Ending with the last acquisition, no window of d + 1 milliseconds holds more than d + 1 + lead acquisitions. */
  ghost predicate SpreadOut(times: seq<Millis>, lead: nat)
    requires times != []
  {
    forall j | 0 <= j < |times| :: |times| - j <= times[|times| - 1] - times[j] + 1 + lead
  }

  /** A token is at most `lead` ahead of its acquisition time exactly when the acquisitions are spread out by it. */
  lemma LeadIsAtMost(times: seq<Millis>, lead: nat)
    requires times != [] && forall i | 0 <= i < |times| :: times[i] >= 1
    ensures TokenOf(times) <= times[|times| - 1] + lead <==> SpreadOut(times, lead)
  {
    TokenClosedForm(times);
    var j :| 0 <= j < |times| && times[j] + (|times| - 1 - j) == TokenOf(times);
    if SpreadOut(times, lead) {
      assert |times| - j <= times[|times| - 1] - times[j] + 1 + lead;
    }
  }

  /**
   When the comment's bound holds: the token runs ahead of the clock by no more than the acquisitions of
   its millisecond exactly when no longer window is more crowded than its length and that number allow.
   */
  lemma CommentBoundHoldsIff(times: seq<Millis>)
    requires times != [] && forall i | 0 <= i < |times| :: times[i] >= 1
    ensures TokenOf(times) - times[|times| - 1] <= InLastMillisecond(times) <==> SpreadOut(times, InLastMillisecond(times))
  {
    LeadIsAtMost(times, InLastMillisecond(times));
  }

  /**
   It fails because the lead accumulates: three acquisitions in each of two milliseconds leave the token
   four ahead of the clock, more than the three acquisitions of either.
   */
  lemma LeadExceedsOneMillisecond()
    ensures var times := [10, 10, 10, 11, 11, 11];
      TokenOf(times) - 11 == 4 && InLastMillisecond(times) == 3 && !SpreadOut(times, InLastMillisecond(times))
  {
    var times := [10, 10, 10, 11, 11, 11];
    assert times[..5] == [10, 10, 10, 11, 11];
    assert [10, 10, 10, 11, 11][..4] == [10, 10, 10, 11];
    assert [10, 10, 10, 11][..3] == [10, 10, 10];
    assert [10, 10, 10][..2] == [10, 10];
    assert [10, 10][..1] == [10];
    assert [10][..0] == [];
    assert TokenOf([10]) == 10 && TokenOf([10, 10]) == 11 && TokenOf([10, 10, 10]) == 12;
    assert TokenOf([10, 10, 10, 11]) == 13 && TokenOf([10, 10, 10, 11, 11]) == 14;
    assert CountOf([10], 11) == CountOf([10, 10], 11) == CountOf([10, 10, 10], 11) == 0;
    assert CountOf([10, 10, 10, 11], 11) == 1 && CountOf([10, 10, 10, 11, 11], 11) == 2;
    CommentBoundHoldsIff(times);
  }

  // ---- the invariant ----

  ghost predicate TokensRise(grants: seq<Grant>) {
    forall i, j | 0 <= i < j < |grants| :: grants[i].token < grants[j].token && grants[i].owner != grants[j].owner
  }

  ghost predicate LockMatches(s: State, d: LockDoc) {
    && s.grants != [] && s.lifetime != []
    && d.fencingToken == TokenOf(s.lifetime) == s.grants[|s.grants| - 1].token
    && (d.owner.Some? ==> d.owner.value == s.grants[|s.grants| - 1].owner)
    && s.lifetime[|s.lifetime| - 1] <= d.expiresAt
  }

  ghost predicate TimesRise(s: State) {
    && (forall i | 0 <= i < |s.lifetime| :: 1 <= s.lifetime[i] <= s.now)
    && (forall i, j | 0 <= i <= j < |s.lifetime| :: s.lifetime[i] <= s.lifetime[j])
  }

  ghost predicate CommitsFollow(s: State) {
    && (forall i, j | 0 <= i <= j < |s.commits| :: s.commits[i].token <= s.commits[j].token)
    && (s.commits != [] ==> s.grants != [] && s.commits[|s.commits| - 1].token <= s.grants[|s.grants| - 1].token)
  }

  ghost predicate Inv(s: State) {
    && s.now >= 1
    && TokensRise(s.grants)
    && TimesRise(s)
    && CommitsFollow(s)
    && (s.lock.Some? ==> LockMatches(s, s.lock.value))
    && (s.lock.None? && s.grants != [] ==> s.grants[|s.grants| - 1].token < s.now)
    && (s.txn.Some? ==> OwnedBy(s.lock, s.txn.value.owner) && s.lock.value.fencingToken == s.txn.value.token)
  }

  /**
   What holds with no bound on the acquisitions: owners are distinct, the lock names the newest grant, and
   an open transaction owns the lock.
   */
  ghost predicate Holders(s: State) {
    && (forall i, j | 0 <= i < j < |s.grants| :: s.grants[i].owner != s.grants[j].owner)
    && (s.lock.Some? && s.lock.value.owner.Some? ==>
          && s.grants != []
          && s.grants[|s.grants| - 1] == Grant(s.lock.value.owner.value, s.lock.value.fencingToken))
    && (s.txn.Some? ==> OwnedBy(s.lock, s.txn.value.owner) && s.lock.value.fencingToken == s.txn.value.token)
  }

  lemma StepKeepsHolders(s: State, step: Step)
    requires Holders(s) && Enabled(s, step)
    ensures Holders(After(s, step))
  {
  }

  lemma TakeKeepsInv(s: State, owner: Owner, ttl: Ttl)
    requires Inv(s) && Enabled(s, Take(owner, ttl))
    ensures Inv(After(s, Take(owner, ttl)))
  {
  }

  lemma CreateKeepsInv(s: State, owner: Owner, ttl: Ttl)
    requires Inv(s) && Enabled(s, Create(owner, ttl))
    ensures Inv(After(s, Create(owner, ttl)))
  {
  }

  /** A day after expiry the clock has overtaken the token, if the lifetime had at most TTL_DELETE_MS acquisitions. */
  lemma DeleteKeepsInv(s: State)
    requires Inv(s) && Enabled(s, TtlDelete) && |s.lifetime| <= TTL_DELETE_MS
    ensures Inv(After(s, TtlDelete))
  {
    TokenLead(s.lifetime);
  }

  lemma CommitKeepsInv(s: State)
    requires Inv(s) && Enabled(s, Commit)
    ensures Inv(After(s, Commit))
  {
    assert Holders(s);
  }

  lemma StepKeepsInv(s: State, step: Step)
    requires Inv(s) && Enabled(s, step) && |s.lifetime| <= TTL_DELETE_MS
    ensures Inv(After(s, step))
  {
    match step
    case Take(owner, ttl) => TakeKeepsInv(s, owner, ttl);
    case Create(owner, ttl) => CreateKeepsInv(s, owner, ttl);
    case TtlDelete => DeleteKeepsInv(s);
    case Commit => CommitKeepsInv(s);
    case _ =>
  }

  // ---- runs ----

  /** A run: any interleaving of enabled steps from an initial state. */
  ghost predicate IsRun(states: seq<State>, steps: seq<Step>) {
    && |states| == |steps| + 1
    && Init(states[0])
    && forall i {:trigger steps[i]} | 0 <= i < |steps| :: Enabled(states[i], steps[i]) && states[i + 1] == After(states[i], steps[i])
  }

  /** At most 86,400,000 acquisitions in every document lifetime. */
  ghost predicate Bounded(states: seq<State>) {
    forall i | 0 <= i < |states| :: |states[i].lifetime| <= TTL_DELETE_MS
  }

  lemma {:induction false} RunKeepsInv(states: seq<State>, steps: seq<Step>, i: nat)
    requires IsRun(states, steps) && Bounded(states) && i < |states|
    ensures Inv(states[i])
  {
    if i > 0 {
      RunKeepsInv(states, steps, i - 1);
      StepKeepsInv(states[i - 1], steps[i - 1]);
    }
  }

  /** Fencing tokens strictly increase over the whole run, TTL deletions included. */
  lemma TokensStrictlyIncrease(states: seq<State>, steps: seq<Step>, i: nat)
    requires IsRun(states, steps) && Bounded(states) && i < |states|
    ensures forall a, b | 0 <= a < b < |states[i].grants| :: states[i].grants[a].token < states[i].grants[b].token
  {
    RunKeepsInv(states, steps, i);
  }

  lemma {:induction false} RunKeepsHolders(states: seq<State>, steps: seq<Step>, i: nat)
    requires IsRun(states, steps) && i < |states|
    ensures Holders(states[i])
  {
    if i > 0 {
      RunKeepsHolders(states, steps, i - 1);
      StepKeepsHolders(states[i - 1], steps[i - 1]);
    }
  }

  /** In every run a guarded transaction commits only while its own grant is the newest, expired or not. */
  lemma CommitsAreNewest(states: seq<State>, steps: seq<Step>, i: nat)
    requires IsRun(states, steps) && i < |steps| && steps[i].Commit?
    ensures states[i].grants != [] && states[i + 1].commits == states[i].commits + [states[i].grants[|states[i].grants| - 1]]
    ensures OwnedBy(states[i].lock, states[i].grants[|states[i].grants| - 1].owner)
  {
    RunKeepsHolders(states, steps, i);
  }

  /** Guarded transactions commit in token order. */
  lemma CommitsInTokenOrder(states: seq<State>, steps: seq<Step>, i: nat)
    requires IsRun(states, steps) && Bounded(states) && i < |states|
    ensures forall a, b | 0 <= a <= b < |states[i].commits| :: states[i].commits[a].token <= states[i].commits[b].token
  {
    RunKeepsInv(states, steps, i);
  }

  /** An owner that was granted the lease and no longer has it. */
  ghost predicate Dead(s: State, owner: Owner) {
    && Granted(s, owner)
    && !OwnedBy(s.lock, owner)
    && (s.txn.Some? ==> s.txn.value.owner != owner)
  }

  lemma DeadStaysDead(s: State, step: Step, owner: Owner)
    requires Holders(s) && Enabled(s, step) && Dead(s, owner)
    ensures Dead(After(s, step), owner)
  {
    var k :| 0 <= k < |s.grants| && s.grants[k].owner == owner;
    assert After(s, step).grants[k] == s.grants[k];
  }

  lemma {:induction false} DeadForever(states: seq<State>, steps: seq<Step>, i: nat, j: nat, owner: Owner)
    requires IsRun(states, steps) && i <= j < |states| && Dead(states[i], owner)
    ensures Dead(states[j], owner)
  {
    if i < j {
      DeadForever(states, steps, i, j - 1, owner);
      RunKeepsHolders(states, steps, j - 1);
      DeadStaysDead(states[j - 1], steps[j - 1], owner);
    }
  }

  /** After a holder's release, in every run, no guarded transaction of that holder commits. */
  lemma NoCommitAfterRelease(states: seq<State>, steps: seq<Step>, i: nat, j: nat, owner: Owner)
    requires IsRun(states, steps) && i < j < |steps|
    requires steps[i] == Release(owner) && Granted(states[i], owner) && steps[j].Commit?
    ensures states[j].txn.value.owner != owner
  {
    RunKeepsHolders(states, steps, i);
    var s, t := states[i], states[i + 1];
    var k :| 0 <= k < |s.grants| && s.grants[k].owner == owner;
    assert t.grants[k].owner == owner;
    assert Dead(t, owner);
    DeadForever(states, steps, i + 1, j, owner);
  }

  /** In every run a stale holder, superseded by a later grant, never commits again. */
  lemma NoCommitAfterTakeover(states: seq<State>, steps: seq<Step>, i: nat, j: nat, k: nat)
    requires IsRun(states, steps) && i <= j < |steps| && steps[j].Commit?
    requires k < |states[i].grants| - 1
    ensures states[j].txn.value.owner != states[i].grants[k].owner
  {
    RunKeepsHolders(states, steps, i);
    assert Dead(states[i], states[i].grants[k].owner);
    DeadForever(states, steps, i, j, states[i].grants[k].owner);
  }

  // ---- a granted lease can be used ----

  /** The lock names this holder and has not expired. */
  predicate HeldBy(s: State, h: Grant) {
    && s.lock.Some?
    && s.lock.value.owner == Some(h.owner) && s.lock.value.fencingToken == h.token
    && s.now < s.lock.value.expiresAt
  }

  /** Step i gives h the lease for `ttl`: it grants it, or is a heartbeat of h that finds it still held. */
  ghost predicate Secures(states: seq<State>, steps: seq<Step>, i: nat, h: Grant, ttl: Ttl)
    requires IsRun(states, steps) && i < |steps|
  {
    || ((steps[i] == Take(h.owner, ttl) || steps[i] == Create(h.owner, ttl)) && states[i + 1].grants == states[i].grants + [h])
    || (steps[i] == Heartbeat(h, ttl) && HeldBy(states[i], h))
  }

  /** From step i to state j h neither releases nor beats with a shorter ttl. */
  ghost predicate Keeps(steps: seq<Step>, i: nat, j: nat, h: Grant, ttl: Ttl) {
    forall k | i < k < j && k < |steps| ::
      && steps[k] != Release(h.owner)
      && (steps[k].Heartbeat? && steps[k].holder == h ==> steps[k].ttlMs >= ttl)
  }

  /** Held by h until some time. */
  predicate HeldUntil(s: State, h: Grant, time: Millis) {
    && s.lock.Some?
    && s.lock.value.owner == Some(h.owner) && s.lock.value.fencingToken == h.token
    && time <= s.lock.value.expiresAt
  }

  lemma HeldStays(s: State, step: Step, h: Grant, ttl: Ttl, time: Millis)
    requires Holders(s) && Enabled(s, step) && HeldUntil(s, h, time) && s.now < time <= s.now + ttl
    requires step != Release(h.owner) && (step.Heartbeat? && step.holder == h ==> step.ttlMs >= ttl)
    ensures HeldUntil(After(s, step), h, time)
  {
  }

  lemma {:induction false} ClockRises(states: seq<State>, steps: seq<Step>, i: nat, j: nat)
    requires IsRun(states, steps) && i <= j < |states|
    ensures states[i].now <= states[j].now
  {
    if i < j {
      ClockRises(states, steps, i, j - 1);
      assert states[j] == After(states[j - 1], steps[j - 1]);
    }
  }

  lemma SecuredIsHeld(states: seq<State>, steps: seq<Step>, i: nat, h: Grant, ttl: Ttl)
    requires IsRun(states, steps) && i < |steps| && Secures(states, steps, i, h, ttl)
    ensures HeldUntil(states[i + 1], h, states[i].now + ttl) && states[i + 1].now == states[i].now
  {
    var s, t := states[i], states[i + 1];
    assert t == After(s, steps[i]);
    if !steps[i].Heartbeat? {
      assert t.grants[|s.grants|] == h;
    }
  }

  lemma {:induction false} HeldFrom(states: seq<State>, steps: seq<Step>, i: nat, j: nat, h: Grant, ttl: Ttl, time: Millis)
    requires IsRun(states, steps) && i < j < |states| && Keeps(steps, i, j, h, ttl)
    requires HeldUntil(states[i + 1], h, time) && states[j].now < time <= states[i + 1].now + ttl
    ensures HeldUntil(states[j], h, time)
  {
    if i + 1 < j {
      ClockRises(states, steps, j - 1, j);
      ClockRises(states, steps, i + 1, j - 1);
      HeldFrom(states, steps, i, j - 1, h, ttl, time);
      RunKeepsHolders(states, steps, j - 1);
      HeldStays(states[j - 1], steps[j - 1], h, ttl, time);
    }
  }

  /** Nobody else's acquire grants anything, and the holder's fence opens its transaction, if none of its own is open. */
  ghost predicate Usable(s: State, h: Grant) {
    && (forall other: Owner, t: Ttl | Enabled(s, Take(other, t)) :: After(s, Take(other, t)) == s)
    && (forall other: Owner, t: Ttl | Enabled(s, Create(other, t)) :: After(s, Create(other, t)) == s)
    && (s.txn.Some? ==> s.txn == Some(h))
    && (s.txn.None? ==>
          && Enabled(s, Fence(h)) && After(s, Fence(h)).txn == Some(h)
          && s.lock.Some? && After(s, Fence(h)).lock == Some(s.lock.value.(lastWriteAt := Some(s.now))))
    && (s.txn.None? ==> forall t: Ttl :: Enabled(s, Heartbeat(h, t)))
  }

  /** While a guarded transaction is open, no step changes the lock document: its read of the lease stays true. */
  lemma OpenTransactionKeepsLock(s: State, step: Step)
    requires s.txn.Some? && Enabled(s, step)
    ensures After(s, step).lock == s.lock
  {
  }

  lemma HeldIsUsable(s: State, h: Grant)
    requires Holders(s) && HeldBy(s, h)
    ensures Usable(s, h)
  {
  }

  /**
   A lease can be used for as long as it was given. Over every run, from the step that grants a lease, or that
   extends it by a heartbeat, until `ttl` later on the server clock, unless its owner releases it or beats
   with a shorter ttl: the lock names that owner and token and has not expired, no acquire by anyone else
   grants anything, and the owner's fence opens its transaction.
   */
  lemma LeaseLastsItsTtl(states: seq<State>, steps: seq<Step>, i: nat, j: nat, h: Grant, ttl: Ttl)
    requires IsRun(states, steps) && i < j < |states| && i < |steps|
    requires Secures(states, steps, i, h, ttl) && Keeps(steps, i, j, h, ttl)
    requires states[j].now < states[i].now + ttl
    ensures HeldBy(states[j], h) && Usable(states[j], h)
  {
    SecuredIsHeld(states, steps, i, h, ttl);
    HeldFrom(states, steps, i, j, h, ttl, states[i].now + ttl);
    RunKeepsHolders(states, steps, j);
    HeldIsUsable(states[j], h);
  }

  /** Whether the lock is held, by anyone, on the server clock. */
  predicate IsHeld(s: State) {
    s.lock.Some? && s.lock.value.owner.Some? && s.now < s.lock.value.expiresAt
  }

  /**
   And no longer: in every state in which the lock is not held, because it was never granted, was released, has
   expired or was deleted, one of the two statements of acquire grants it to a new owner, and neither does
   while it is held.
   */
  lemma FreeLockIsGranted(s: State, caller: Owner, ttl: Ttl)
    requires !Granted(s, caller) && s.txn.None?
    ensures Enabled(s, Take(caller, ttl)) && Enabled(s, Create(caller, ttl))
    ensures !IsHeld(s) <==>
      || |After(s, Take(caller, ttl)).grants| == |s.grants| + 1
      || |After(s, Create(caller, ttl)).grants| == |s.grants| + 1
  {
  }

  /** Nobody but the holder extends a lease: without a heartbeat of its own it is over when the ttl is. */
  ghost predicate Silent(steps: seq<Step>, i: nat, j: nat, h: Grant) {
    forall k | i < k < j && k < |steps| :: !(steps[k].Heartbeat? && steps[k].holder == h)
  }

  predicate OverBy(s: State, h: Grant, time: Millis) {
    s.lock.Some? && s.lock.value.owner == Some(h.owner) ==> s.lock.value.expiresAt <= time
  }

  lemma OverStays(s: State, step: Step, h: Grant, time: Millis)
    requires Holders(s) && Enabled(s, step) && OverBy(s, h, time) && Granted(s, h.owner)
    requires s.lock.Some? && s.lock.value.owner == Some(h.owner) ==> s.lock.value.fencingToken == h.token
    requires !(step.Heartbeat? && step.holder == h)
    ensures OverBy(After(s, step), h, time) && Granted(After(s, step), h.owner)
    ensures var t := After(s, step); t.lock.Some? && t.lock.value.owner == Some(h.owner) ==> t.lock.value.fencingToken == h.token
  {
    var k :| 0 <= k < |s.grants| && s.grants[k].owner == h.owner;
    assert After(s, step).grants[k].owner == h.owner;
  }

  lemma {:induction false} OverThroughout(states: seq<State>, steps: seq<Step>, i: nat, j: nat, h: Grant, ttl: Ttl)
    requires IsRun(states, steps) && i < j < |states| && i < |steps| && Silent(steps, i, j, h)
    requires Secures(states, steps, i, h, ttl)
    ensures OverBy(states[j], h, states[i].now + ttl) && Granted(states[j], h.owner)
    ensures states[j].lock.Some? && states[j].lock.value.owner == Some(h.owner) ==> states[j].lock.value.fencingToken == h.token
  {
    if i + 1 < j {
      OverThroughout(states, steps, i, j - 1, h, ttl);
      RunKeepsHolders(states, steps, j - 1);
      OverStays(states[j - 1], steps[j - 1], h, states[i].now + ttl);
    } else {
      var s, t := states[i], states[i + 1];
      RunKeepsHolders(states, steps, i);
      assert t == After(s, steps[i]);
      if steps[i].Heartbeat? {
        assert s.grants[|s.grants| - 1] == h && t.grants[|s.grants| - 1] == h;
      } else {
        assert t.grants[|s.grants|] == h;
      }
    }
  }

  /** A lease that its holder does not extend is not its any more once the ttl is over, in every run. */
  lemma SilentLeaseEnds(states: seq<State>, steps: seq<Step>, i: nat, j: nat, h: Grant, ttl: Ttl)
    requires IsRun(states, steps) && i < j < |states| && i < |steps|
    requires Secures(states, steps, i, h, ttl) && Silent(steps, i, j, h) && states[i].now + ttl <= states[j].now
    ensures !HeldBy(states[j], h) && Enabled(states[j], Fence(h)) && After(states[j], Fence(h)) == states[j]
    ensures forall t: Ttl :: Enabled(states[j], Heartbeat(h, t)) && After(states[j], Heartbeat(h, t)) == states[j]
  {
    OverThroughout(states, steps, i, j, h, ttl);
  }

  /** What the document's times say: when the newest lease was granted, last beaten and last fenced. */
  ghost predicate Stamped(s: State) {
    s.lock.Some? ==>
      && s.lifetime != [] && s.lock.value.acquiredAt == s.lifetime[|s.lifetime| - 1]
      && s.lock.value.acquiredAt <= s.lock.value.heartbeatAt <= s.now
      && (s.lock.value.owner.Some? ==> s.lock.value.heartbeatAt < s.lock.value.expiresAt)
      && (s.lock.value.lastWriteAt.Some? ==> s.lock.value.acquiredAt <= s.lock.value.lastWriteAt.value <= s.now)
  }

  lemma StepKeepsStamped(s: State, step: Step)
    requires Stamped(s) && Enabled(s, step)
    ensures Stamped(After(s, step))
  {
  }

  /** In every run the document says truly when its lease was granted; no write of an earlier lease is left in it. */
  lemma {:induction false} LockIsStamped(states: seq<State>, steps: seq<Step>, i: nat)
    requires IsRun(states, steps) && i < |states|
    ensures Stamped(states[i])
  {
    if i > 0 {
      LockIsStamped(states, steps, i - 1);
      StepKeepsStamped(states[i - 1], steps[i - 1]);
    }
  }

  // ---- why the bound on a lifetime is exact ----

  /** Before the first of any acquisitions, at time 1. */
  const First: State := State(1, None, None, [], [], [])

  /** After n acquisitions at time 1, each released at once. */
  function Crowded(n: nat): State {
    State(1, if n == 0 then None else Some(LockDoc(None, n, 1, 1, 1, None)), None,
          seq(n, i requires 0 <= i < n => Grant(i, i + 1)), [], seq(n, i => 1))
  }

  /** The n-th acquisition and its release. */
  lemma OneMorePair(n: nat)
    ensures var s, take := Crowded(n), if n == 0 then Create(n, 1) else Take(n, 1);
      && Enabled(s, take) && Enabled(After(s, take), Release(n))
      && After(After(s, take), Release(n)) == Crowded(n + 1)
      && |After(s, take).lifetime| == n + 1
  {
    var s, take := Crowded(n), if n == 0 then Create(n, 1) else Take(n, 1);
    assert forall k | 0 <= k < n :: s.grants[k].owner == k;
    var t := After(After(s, take), Release(n));
    assert t.grants == Crowded(n + 1).grants && t.lifetime == Crowded(n + 1).lifetime;
  }

  ghost predicate AtMost(states: seq<State>, bound: nat) {
    forall i | 0 <= i < |states| :: |states[i].lifetime| <= bound
  }

  lemma Extend(states: seq<State>, steps: seq<Step>, step: Step) returns (more: seq<State>, moreSteps: seq<Step>)
    requires IsRun(states, steps) && Enabled(states[|steps|], step)
    ensures IsRun(more, moreSteps) && more == states + [After(states[|steps|], step)] && moreSteps == steps + [step]
  {
    more, moreSteps := states + [After(states[|steps|], step)], steps + [step];
  }

  lemma {:induction false} CrowdedIsReached(n: nat) returns (states: seq<State>, steps: seq<Step>)
    ensures IsRun(states, steps) && states[|steps|] == Crowded(n) && AtMost(states, n)
  {
    if n == 0 {
      states, steps := [First], [];
      assert Crowded(0) == First;
    } else {
      states, steps := CrowdedIsReached(n - 1);
      OneMorePair(n - 1);
      states, steps := Extend(states, steps, if n == 1 then Create(n - 1, 1) else Take(n - 1, 1));
      states, steps := Extend(states, steps, Release(n - 1));
    }
  }

  /** One acquisition too many in an instant, a day's wait, the TTL deletion, and the next token is a repeat. */
  lemma TokenRepeats() returns (states: seq<State>, steps: seq<Step>)
    ensures IsRun(states, steps) && AtMost(states, TTL_DELETE_MS + 1)
    ensures !TokensRise(states[|steps|].grants)
  {
    var n := TTL_DELETE_MS + 1;
    states, steps := CrowdedIsReached(n);
    states, steps := Extend(states, steps, Tick(TTL_DELETE_MS));
    states, steps := Extend(states, steps, TtlDelete);
    assert forall k | 0 <= k < n :: states[|steps|].grants[k].owner == k;
    states, steps := Extend(states, steps, Create(n, 1));
    var grants := states[|steps|].grants;
    assert grants[n - 1] == Grant(n - 1, n) && grants[n] == Grant(n, n);
  }

  /**
   The bound is exact: tokens rise in every run whose document lifetimes have at most `bound` acquisitions
   if and only if the bound is at most 86,400,000.
   */
  lemma BoundIsExact(bound: nat)
    ensures bound <= 86_400_000 <==>
      forall states: seq<State>, steps: seq<Step> | IsRun(states, steps) && AtMost(states, bound) :: TokensRise(states[|steps|].grants)
  {
    if bound <= TTL_DELETE_MS {
      forall states: seq<State>, steps: seq<Step> | IsRun(states, steps) && AtMost(states, bound) ensures TokensRise(states[|steps|].grants) {
        RunKeepsInv(states, steps, |steps|);
      }
    } else {
      var states, steps := TokenRepeats();
      assert AtMost(states, bound);
    }
  }

  // ---- when acquire answers null ----

  /**
   One call of acquire in a run: its first statement is step i, and its second, when the first grants
   nothing, is step j. Between them anything may happen; the owner is this call's alone.
   */
  ghost predicate AcquireCall(states: seq<State>, steps: seq<Step>, i: nat, j: nat, caller: Owner, ttl: Ttl) {
    && IsRun(states, steps) && i < |steps|
    && steps[i] == Take(caller, ttl)
    && (Granted(states[i + 1], caller) || (i < j < |steps| && steps[j] == Create(caller, ttl)))
  }

  /** The state in which the call returns. */
  ghost function Returned(states: seq<State>, steps: seq<Step>, i: nat, j: nat, caller: Owner, ttl: Ttl): State
    requires AcquireCall(states, steps, i, j, caller, ttl)
  {
    if Granted(states[i + 1], caller) then states[i + 1] else states[j + 1]
  }

  /**
   acquire answers null exactly when the first statement finds no lock, or one that is owned and has not
   expired, and the second finds a document, whatever happens in between.
   */
  lemma AcquireAnswersNullIff(states: seq<State>, steps: seq<Step>, i: nat, j: nat, caller: Owner, ttl: Ttl)
    requires AcquireCall(states, steps, i, j, caller, ttl)
    ensures !Granted(Returned(states, steps, i, j, caller, ttl), caller) <==>
      && (states[i].lock.None? || IsHeld(states[i]))
      && i < j < |steps| && states[j].lock.Some?
  {
    TakeGrantsIff(states[i], caller, ttl);
    if !Granted(states[i + 1], caller) {
      CreateGrantsIff(states[j], caller, ttl);
    }
  }

  lemma TakeGrantsIff(s: State, caller: Owner, ttl: Ttl)
    requires Enabled(s, Take(caller, ttl))
    ensures Granted(After(s, Take(caller, ttl)), caller) <==> Takeable(s.lock, s.now)
  {
    if Takeable(s.lock, s.now) {
      assert After(s, Take(caller, ttl)).grants[|s.grants|].owner == caller;
    }
  }

  lemma CreateGrantsIff(s: State, caller: Owner, ttl: Ttl)
    requires Enabled(s, Create(caller, ttl))
    ensures Granted(After(s, Create(caller, ttl)), caller) <==> s.lock.None?
  {
    if s.lock.None? {
      assert After(s, Create(caller, ttl)).grants[|s.grants|].owner == caller;
    }
  }

  /** So null does not mean held: the lock may be released between the statements and free at the second. */
  lemma AcquireMayMissFreeLock() returns (states: seq<State>, steps: seq<Step>)
    ensures |steps| == 4 && AcquireCall(states, steps, 1, 3, 1, 1)
    ensures !Granted(Returned(states, steps, 1, 3, 1, 1), 1)
    ensures Takeable(states[3].lock, states[3].now) && Takeable(states[4].lock, states[4].now)
  {
    states, steps := [First], [];
    states, steps := Extend(states, steps, Create(0, 1));
    assert states[1].grants == [Grant(0, 1)];
    states, steps := Extend(states, steps, Take(1, 1));
    states, steps := Extend(states, steps, Release(0));
    states, steps := Extend(states, steps, Create(1, 1));
  }
}
