/** The per-repository workspace lock as a protocol: any number of threads, each
    running prepare, start and teardown, interleaved with stale unlocks. The lock
    is a channel of capacity one plus a record of the lease that holds it, and
    the two are not written together. */
module WorkspaceLock {
  import opened Kernel

  /** The token of one acquisition; the serial keeps any two apart. */
  datatype Lease = Lease(repository: string, serial: nat)

  datatype Stage = Sweeping | CheckingOut | Warming

  /** Where one thread is. */
  datatype Pc =
    | Out                                  // not using a workspace
    | Waiting(repository: string)          // has the channel, has not sent
    | Sent(repository: string)             // has sent, has not recorded its lease
    | Preparing(lease: Lease, stage: Stage)
    | Prepared(lease: Lease)
    | Running(lease: Lease)                // its container is up
    | Leaving(lease: Lease)                // about to unlock
    | Leaked(lease: Lease)                 // start refused its attempt id and returned

  /** `full` are the channels with their token in. `draining` is an unlock that
      has deleted the holder, still has to take the token out, and holds the
      manager's mutex meanwhile. */
  datatype World = World(
    serial: nat, full: set<string>, holders: map<string, Lease>, draining: Option<string>, threads: seq<Pc>)

  datatype Event =
    | Ask(t: nat, repository: string)
    | Send(t: nat)
    | GiveUp(t: nat)
    | Claim(t: nat)
    | Work(t: nat, ok: bool)
    | Start(t: nat, validId: bool, ok: bool)
    | Teardown(t: nat)
    | Unlock(t: nat)
    | StaleUnlock(lease: Lease)
    | Drain

  function Put(w: World, t: nat, pc: Pc): World
    requires t < |w.threads|
  {
    w.(threads := w.threads[t := pc])
  }

  /** The part of an unlock before the drain: nothing unless this very lease is
      the recorded holder. */
  function BeginUnlock(w: World, l: Lease): World {
    if l.repository in w.holders && w.holders[l.repository] == l then
      w.(holders := w.holders - {l.repository}, draining := Some(l.repository))
    else w
  }

  /** The thread still counts on the lease. */
  predicate Live(pc: Pc) {
    pc.Preparing? || pc.Prepared? || pc.Running? || pc.Leaked?
  }

  predicate HasLease(pc: Pc) {
    Live(pc) || pc.Leaving?
  }

  /** What the code lets happen. Everything that takes the mutex waits while an
      unlock is draining; a send only needs room in the channel. A stale unlock
      carries a lease that was handed out and that nobody still counts on. */
  ghost predicate Enabled(w: World, e: Event) {
    match e
    case Ask(t, _) => t < |w.threads| && w.threads[t].Out? && w.draining.None?
    case Send(t) => t < |w.threads| && w.threads[t].Waiting? && w.threads[t].repository !in w.full
    case GiveUp(t) => t < |w.threads| && w.threads[t].Waiting?
    case Claim(t) => t < |w.threads| && w.threads[t].Sent? && w.draining.None?
    case Work(t, _) => t < |w.threads| && w.threads[t].Preparing?
    case Start(t, _, _) => t < |w.threads| && w.threads[t].Prepared?
    case Teardown(t) => t < |w.threads| && w.threads[t].Running?
    case Unlock(t) => t < |w.threads| && w.threads[t].Leaving? && w.draining.None?
    case StaleUnlock(l) =>
      w.draining.None? && l.serial <= w.serial && forall t | 0 <= t < |w.threads| :: Live(w.threads[t]) ==> w.threads[t].lease != l
    case Drain => w.draining.Some?
  }

  function Next(w: World, e: Event): World
    requires Enabled(w, e)
  {
    match e
    case Ask(t, repository) => Put(w, t, Waiting(repository))
    case Send(t) => Put(w, t, Sent(w.threads[t].repository)).(full := w.full + {w.threads[t].repository})
    case GiveUp(t) => Put(w, t, Out)
    case Claim(t) =>
      var held := Lease(w.threads[t].repository, w.serial + 1);
      Put(w, t, Preparing(held, Sweeping)).(serial := w.serial + 1, holders := w.holders[held.repository := held])
    case Work(t, ok) =>
      var l := w.threads[t].lease;
      if !ok then Put(w, t, Leaving(l))
      else
        Put(w, t, match w.threads[t].stage
          case Sweeping => Preparing(l, CheckingOut)
          case CheckingOut => Preparing(l, Warming)
          case Warming => Prepared(l))
    case Start(t, validId, ok) =>
      var l := w.threads[t].lease;
      Put(w, t, if !validId then Leaked(l) else if ok then Running(l) else Leaving(l))
    case Teardown(t) => Put(w, t, Leaving(w.threads[t].lease))
    case Unlock(t) => Put(BeginUnlock(w, w.threads[t].lease), t, Out)
    case StaleUnlock(l) => BeginUnlock(w, l)
    case Drain => w.(full := w.full - {w.draining.value}, draining := None)
  }

  // ----- The invariant -----

  ghost predicate SentOn(w: World, r: string) {
    exists t | 0 <= t < |w.threads| :: w.threads[t] == Sent(r)
  }

  /** A thread that counts on its lease is the recorded holder. */
  ghost predicate LiveHold(w: World) {
    forall t | 0 <= t < |w.threads| ::
      Live(w.threads[t]) ==> w.threads[t].lease.repository in w.holders && w.holders[w.threads[t].lease.repository] == w.threads[t].lease
  }

  /** No lease is in two hands, and none is from the future. */
  ghost predicate LeasesApart(w: World) {
    && (forall t | 0 <= t < |w.threads| :: HasLease(w.threads[t]) ==> w.threads[t].lease.serial <= w.serial)
    && (forall t, u | 0 <= t < u < |w.threads| ::
          HasLease(w.threads[t]) && HasLease(w.threads[u]) ==> w.threads[t].lease != w.threads[u].lease)
  }

  ghost predicate OwnedBy(w: World, l: Lease, t: nat) {
    t < |w.threads| && HasLease(w.threads[t]) && w.threads[t].lease == l
  }

  /** Every recorded holder is some thread that has yet to unlock. */
  ghost predicate HoldersOwned(w: World) {
    forall r | r in w.holders ::
      w.holders[r].repository == r && w.holders[r].serial <= w.serial && exists t: nat :: OwnedBy(w, w.holders[r], t)
  }

  /** The channel is full exactly when a holder is recorded, or a thread sits
      between its send and its record, or an unlock between its delete and its
      drain; and only one of the three at a time. */
  ghost predicate TokenAccounted(w: World, r: string) {
    && (r in w.full <==> r in w.holders || SentOn(w, r) || w.draining == Some(r))
    && !(r in w.holders && SentOn(w, r))
    && !(r in w.holders && w.draining == Some(r))
    && !(SentOn(w, r) && w.draining == Some(r))
  }

  ghost predicate SendersApart(w: World) {
    forall t, u | 0 <= t < u < |w.threads| :: w.threads[t].Sent? && w.threads[u].Sent? ==> w.threads[t] != w.threads[u]
  }

  ghost predicate Inv(w: World) {
    && LiveHold(w) && LeasesApart(w) && HoldersOwned(w) && SendersApart(w)
    && forall r :: TokenAccounted(w, r)
  }

  function Initial(n: nat): World {
    World(0, {}, map[], None, seq(n, _ => Out))
  }

  lemma InitialInv(n: nat)
    ensures Inv(Initial(n))
  {}

  // ----- Preservation -----

  /** A thread that neither gains nor loses a lease or a sent token. */
  ghost predicate SameStanding(before: Pc, after: Pc) {
    && HasLease(before) == HasLease(after)
    && (HasLease(before) ==> before.lease == after.lease)
    && (Live(after) ==> Live(before))
    && !before.Sent? && !after.Sent?
  }

  lemma MoveKeepsInv(w: World, t: nat, pc: Pc)
    requires Inv(w) && t < |w.threads| && SameStanding(w.threads[t], pc)
    ensures Inv(Put(w, t, pc))
  {
    var u := Put(w, t, pc);
    forall r | r in u.holders ensures exists k: nat :: OwnedBy(u, u.holders[r], k) {
      var k: nat :| OwnedBy(w, w.holders[r], k);
      assert OwnedBy(u, u.holders[r], k);
    }
    forall r ensures TokenAccounted(u, r) {
      StandingKeepsSenders(w, u, t, r);
      assert TokenAccounted(w, r);
    }
  }

  lemma StandingKeepsSenders(w: World, u: World, t: nat, r: string)
    requires t < |w.threads| && |u.threads| == |w.threads| && !w.threads[t].Sent? && !u.threads[t].Sent?
    requires forall k | 0 <= k < |w.threads| && k != t :: u.threads[k] == w.threads[k]
    ensures SentOn(u, r) <==> SentOn(w, r)
  {
    if SentOn(w, r) {
      var k :| 0 <= k < |w.threads| && w.threads[k] == Sent(r);
      assert u.threads[k] == Sent(r);
    }
  }

  lemma SendKeepsInv(w: World, t: nat)
    requires Inv(w) && Enabled(w, Send(t))
    ensures Inv(Next(w, Send(t)))
  {
    var u, repo := Next(w, Send(t)), w.threads[t].repository;
    assert TokenAccounted(w, repo);
    forall r | r in u.holders ensures exists k: nat :: OwnedBy(u, u.holders[r], k) {
      var k: nat :| OwnedBy(w, w.holders[r], k);
      assert OwnedBy(u, u.holders[r], k);
    }
    forall r ensures TokenAccounted(u, r) {
      assert TokenAccounted(w, r);
      assert u.threads[t] == Sent(repo);
      if r != repo && SentOn(w, r) {
        var k :| 0 <= k < |w.threads| && w.threads[k] == Sent(r);
        assert u.threads[k] == Sent(r);
      }
    }
    forall j, k | 0 <= j < k < |u.threads| && u.threads[j].Sent? && u.threads[k].Sent? ensures u.threads[j] != u.threads[k] {
      if j == t { assert w.threads[k] != Sent(repo); }
      if k == t { assert w.threads[j] != Sent(repo); }
    }
  }

  lemma ClaimKeepsInv(w: World, t: nat)
    requires Inv(w) && Enabled(w, Claim(t))
    ensures Inv(Next(w, Claim(t)))
  {
    var u, repo := Next(w, Claim(t)), w.threads[t].repository;
    assert TokenAccounted(w, repo);
    assert w.threads[t] == Sent(repo);
    assert OwnedBy(u, u.holders[repo], t);
    forall r | r in u.holders ensures u.holders[r].repository == r && u.holders[r].serial <= u.serial && exists k: nat :: OwnedBy(u, u.holders[r], k) {
      if r != repo {
        var k: nat :| OwnedBy(w, w.holders[r], k);
        assert OwnedBy(u, u.holders[r], k);
      }
    }
    forall r ensures TokenAccounted(u, r) {
      assert TokenAccounted(w, r);
      if r != repo && SentOn(w, r) {
        var k :| 0 <= k < |w.threads| && w.threads[k] == Sent(r);
        assert u.threads[k] == Sent(r);
      }
    }
  }

  /** Removing the record of a lease that no thread still counts on. */
  lemma ReleaseKeepsInv(w: World, l: Lease)
    requires Inv(w) && w.draining.None?
    requires forall t | 0 <= t < |w.threads| :: Live(w.threads[t]) ==> w.threads[t].lease != l
    ensures Inv(BeginUnlock(w, l))
  {
    var u := BeginUnlock(w, l);
    forall r | r in u.holders ensures exists k: nat :: OwnedBy(u, u.holders[r], k) {
      var k: nat :| OwnedBy(w, w.holders[r], k);
      assert OwnedBy(u, u.holders[r], k);
    }
    forall r ensures TokenAccounted(u, r) {
      assert TokenAccounted(w, r);
      assert SentOn(u, r) <==> SentOn(w, r);
    }
  }

  /** A lease that is no longer recorded can be let go of. */
  lemma ForgetKeepsInv(w: World, t: nat)
    requires Inv(w) && t < |w.threads| && w.threads[t].Leaving?
    requires forall r | r in w.holders :: w.holders[r] != w.threads[t].lease
    ensures Inv(Put(w, t, Out))
  {
    var u := Put(w, t, Out);
    forall r | r in u.holders ensures exists k: nat :: OwnedBy(u, u.holders[r], k) {
      var k: nat :| OwnedBy(w, w.holders[r], k);
      assert OwnedBy(u, u.holders[r], k);
    }
    forall r ensures TokenAccounted(u, r) {
      StandingKeepsSenders(w, u, t, r);
      assert TokenAccounted(w, r);
    }
  }

  lemma UnlockKeepsInv(w: World, t: nat)
    requires Inv(w) && Enabled(w, Unlock(t))
    ensures Inv(Next(w, Unlock(t)))
  {
    var l := w.threads[t].lease;
    forall k | 0 <= k < |w.threads| && Live(w.threads[k]) ensures w.threads[k].lease != l {
      assert k < t || t < k;
    }
    ReleaseKeepsInv(w, l);
    ForgetKeepsInv(BeginUnlock(w, l), t);
  }

  lemma DrainKeepsInv(w: World)
    requires Inv(w) && Enabled(w, Drain)
    ensures Inv(Next(w, Drain))
  {
    var u := Next(w, Drain);
    forall r | r in u.holders ensures exists k: nat :: OwnedBy(u, u.holders[r], k) {
      var k: nat :| OwnedBy(w, w.holders[r], k);
      assert OwnedBy(u, u.holders[r], k);
    }
    forall r ensures TokenAccounted(u, r) {
      assert TokenAccounted(w, r);
      assert SentOn(u, r) <==> SentOn(w, r);
    }
  }

  /** Every step of every interleaving keeps the invariant. */
  lemma StepKeepsInv(w: World, e: Event)
    requires Inv(w) && Enabled(w, e)
    ensures Inv(Next(w, e))
  {
    match e
    case Send(t) => SendKeepsInv(w, t);
    case Claim(t) => ClaimKeepsInv(w, t);
    case Unlock(t) => UnlockKeepsInv(w, t);
    case StaleUnlock(l) => ReleaseKeepsInv(w, l);
    case Drain => DrainKeepsInv(w);
    case Ask(t, _) => MoveKeepsInv(w, t, Next(w, e).threads[t]);
    case GiveUp(t) => MoveKeepsInv(w, t, Next(w, e).threads[t]);
    case Work(t, _) => MoveKeepsInv(w, t, Next(w, e).threads[t]);
    case Start(t, _, _) => MoveKeepsInv(w, t, Next(w, e).threads[t]);
    case Teardown(t) => MoveKeepsInv(w, t, Next(w, e).threads[t]);
  }

  /** The worlds some interleaving passes through, first to last. */
  ghost predicate Run(trace: seq<World>, events: seq<Event>) {
    && |trace| == |events| + 1
    && forall i | 0 <= i < |events| :: Enabled(trace[i], events[i]) && trace[i + 1] == Next(trace[i], events[i])
  }

  lemma {:induction false} RunKeepsInv(trace: seq<World>, events: seq<Event>, i: nat)
    requires Run(trace, events) && Inv(trace[0]) && i < |trace|
    ensures Inv(trace[i])
  {
    if i > 0 {
      RunKeepsInv(trace, events, i - 1);
      StepKeepsInv(trace[i - 1], events[i - 1]);
    }
  }

  // ----- What the invariant gives -----

  /** In no interleaving do two threads hold one repository's workspace. */
  lemma MutualExclusion(trace: seq<World>, events: seq<Event>, i: nat, t: nat, u: nat)
    requires Run(trace, events) && trace[0] == Initial(|trace[0].threads|) && i < |trace|
    requires t < |trace[i].threads| && u < |trace[i].threads| && Live(trace[i].threads[t]) && Live(trace[i].threads[u])
    requires trace[i].threads[t].lease.repository == trace[i].threads[u].lease.repository
    ensures t == u
  {
    InitialInv(|trace[0].threads|);
    RunKeepsInv(trace, events, i);
    assert trace[i].threads[t].lease == trace[i].threads[u].lease;
    assert !(t < u) && !(u < t);
  }

  /** An unlock with a lease no thread has any more changes nothing: a second
      teardown of an attempt that has ended releases nobody. */
  lemma FinishedLeaseReleasesNothing(w: World, l: Lease)
    requires Inv(w) && forall t: nat :: !OwnedBy(w, l, t)
    ensures BeginUnlock(w, l) == w
  {}

  /** A drain always finds the token it takes out, so no unlock leaves the
      channel full behind it. */
  lemma DrainFindsToken(w: World)
    requires Inv(w) && w.draining.Some?
    ensures w.draining.value in w.full && w.draining.value !in Next(w, Drain).full && w.draining.value !in w.holders
  {
    assert TokenAccounted(w, w.draining.value);
  }

  ghost predicate Quiescent(w: World) {
    w.draining.None? && forall t | 0 <= t < |w.threads| :: w.threads[t].Out? || w.threads[t].Waiting? || w.threads[t].Leaked?
  }

  /** Once everybody is through, a repository is locked exactly when some start
      was given a malformed attempt id for it. */
  lemma LockedAtRestExactlyWhenLeaked(w: World, r: string)
    requires Inv(w) && Quiescent(w)
    ensures r in w.full <==> exists t | 0 <= t < |w.threads| :: w.threads[t].Leaked? && w.threads[t].lease.repository == r
  {
    assert TokenAccounted(w, r);
    if r in w.full {
      assert !SentOn(w, r);
      var t: nat :| OwnedBy(w, w.holders[r], t);
      assert w.threads[t].Leaked? && w.threads[t].lease.repository == r;
    }
  }

  lemma {:induction false} LeakedStays(trace: seq<World>, events: seq<Event>, i: nat, t: nat)
    requires Run(trace, events) && i < |trace|
    requires t < |trace[0].threads| && trace[0].threads[t].Leaked?
    ensures t < |trace[i].threads| && trace[i].threads[t] == trace[0].threads[t]
  {
    if i > 0 {
      LeakedStays(trace, events, i - 1, t);
      assert trace[i - 1 + 1] == Next(trace[i - 1], events[i - 1]);
    }
  }

  /** A leaked lease is never given back: whatever happens next, the repository
      stays held by it and nobody can send again. */
  lemma LeakIsForever(trace: seq<World>, events: seq<Event>, i: nat, t: nat, u: nat)
    requires Run(trace, events) && Inv(trace[0]) && i < |trace|
    requires t < |trace[0].threads| && trace[0].threads[t].Leaked?
    requires u < |trace[i].threads| && trace[i].threads[u] == Waiting(trace[0].threads[t].lease.repository)
    ensures !Enabled(trace[i], Send(u))
  {
    RunKeepsInv(trace, events, i);
    LeakedStays(trace, events, i, t);
    assert TokenAccounted(trace[i], trace[0].threads[t].lease.repository);
  }
}
