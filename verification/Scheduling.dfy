/** One pass of each scheduler: the queue in order, the free slots, and which
    queued items are started. The order itself comes from the log entry that
    queued each item. */
module Scheduling {
  import opened Kernel
  import U = UpkeepFacts
  import B = BumpModel
  import BI = BumpInvariant
  import BR = BumpRuns
  import BA = BumpAbandonments
  import BL = BumpLaws
  import R = RepairBrief
  import F = CaseFacts
  import C = CaseModel
  import CI = CaseInvariant
  import CL = CaseLaws

  // ----- Prefixes of what a pass may start -----

  function Filter<T(!new)>(q: seq<T>, keep: T -> bool): (r: seq<T>)
    ensures |r| <= |q|
    ensures forall x :: x in r <==> x in q && keep(x)
  {
    if q == [] then []
    else Filter(q[..|q| - 1], keep) + if keep(q[|q| - 1]) then [q[|q| - 1]] else []
  }

  function Take<T>(q: seq<T>, n: int): seq<T> {
    if n <= 0 then [] else if n >= |q| then q else q[..n]
  }

  lemma {:induction false} FilterPrefix<T(!new)>(q: seq<T>, keep: T -> bool, i: nat)
    requires i <= |q|
    ensures Filter(q[..i], keep) <= Filter(q, keep)
    decreases |q|
  {
    if i < |q| {
      var n := |q| - 1;
      FilterPrefix(q[..n], keep, i);
      assert q[..n][..i] == q[..i];
    } else {
      assert q[..i] == q;
    }
  }

  lemma FilterOneMore<T(!new)>(q: seq<T>, keep: T -> bool, i: nat)
    requires i < |q|
    ensures Filter(q[..i + 1], keep) == Filter(q[..i], keep) + if keep(q[i]) then [q[i]] else []
  {
    assert q[..i + 1][..i] == q[..i];
  }

  // ----- Queue order -----

  /** When the log last queued a bump; None drops it from the queue. */
  function BumpQueuedSince(log: seq<U.BumpTransition>): Option<Time> {
    if log == [] then None
    else if log[|log| - 1].to == U.Queued then Some(log[|log| - 1].occurredAt)
    else BumpQueuedSince(log[..|log| - 1])
  }

  function CaseQueuedSince(log: seq<F.Transition>): Option<Time> {
    if log == [] then None
    else if log[|log| - 1].to == F.Queued then Some(log[|log| - 1].occurredAt)
    else CaseQueuedSince(log[..|log| - 1])
  }

  /** A queued bump always has the entry the queue is ordered by, and it is its
      latest one, so the join that looks it up drops nobody. */
  lemma QueuedBumpIsListed(b: B.Bump, maxRounds: int)
    requires BI.Inv(b, maxRounds) && b.state == U.Queued
    ensures b.transitions != [] && BumpQueuedSince(b.transitions) == Some(b.transitions[|b.transitions| - 1].occurredAt)
  {}

  lemma QueuedCaseIsListed(c: C.Case)
    requires CI.Inv(c) && c.state == F.Queued
    ensures c.transitions != [] && CaseQueuedSince(c.transitions) == Some(c.transitions[|c.transitions| - 1].occurredAt)
  {}

  /** The wait of a bump for its checks: from the latest entry into that state, or
      from opening. */
  function AwaitingSince(b: B.Bump, log: seq<U.BumpTransition>): Time {
    if log == [] then b.openedAt
    else if log[|log| - 1].to == U.AwaitingChecks then log[|log| - 1].occurredAt
    else AwaitingSince(b, log[..|log| - 1])
  }

  // ----- Giving up on checks that never conclude -----

  /** What the sweep's query lists: waiting since the cutoff or longer. */
  predicate Stale(b: B.Bump, cutoff: Time) {
    b.state == U.AwaitingChecks && AwaitingSince(b, b.transitions) <= cutoff
  }

  /** The wait is measured from the entry that began it, or from the opening. */
  lemma WaitBeganWithLatestEntry(b: B.Bump, cutoff: Time, maxRounds: int)
    requires BI.Inv(b, maxRounds)
    ensures Stale(b, cutoff) <==>
      && b.state == U.AwaitingChecks
      && cutoff >= if b.transitions == [] then b.openedAt else b.transitions[|b.transitions| - 1].occurredAt
  {}

  function GivingUp(detail: string, now: Time): B.Command {
    B.Abandon(U.BumpAbandonment(U.AbandonChecksNeverConcluded, detail, now))
  }

  /** Gives up every bump it listed, in whatever state each is loaded by then. */
  method SweepStale(bumps: map<B.BumpKey, B.Bump>, listed: seq<B.BumpKey>, window: Duration, detail: string, now: Time)
      returns (after: map<B.BumpKey, B.Bump>)
    requires forall k | k in listed :: k in bumps
    requires forall i, j | 0 <= i < j < |listed| :: listed[i] != listed[j]
    ensures after.Keys == bumps.Keys
    ensures forall k | k in bumps :: after[k] == if window > 0 && k in listed then B.After(bumps[k], GivingUp(detail, now)) else bumps[k]
  {
    after := bumps;
    if window <= 0 { return; }
    var i := 0;
    while i < |listed|
      invariant 0 <= i <= |listed| && after.Keys == bumps.Keys
      invariant forall k | k in bumps :: after[k] == if k in listed[..i] then B.After(bumps[k], GivingUp(detail, now)) else bumps[k]
    {
      var k := listed[i];
      assert k !in listed[..i];
      assert listed[..i + 1] == listed[..i] + [k];
      match B.Step(B.Clean(after[k]), GivingUp(detail, now)) {
        case Ok(t) => after := after[k := t.bump];
        case Err(_) =>
      }
      i := i + 1;
    }
    assert listed[..i] == listed;
  }

  /** A bump listed as stale is given up whatever happened to it since, short of
      its being given up or closed, and the recorded reason is borne out exactly
      when it was still waiting. */
  lemma StaleBumpIsAbandoned(b: B.Bump, detail: string, now: Time, maxRounds: int)
    requires BI.Inv(b, maxRounds) && BA.Supported(b, maxRounds) && detail != ""
    ensures B.Step(B.Clean(b), GivingUp(detail, now)).Ok? <==> b.state !in {U.Abandoned, U.Closed}
    ensures B.After(b, GivingUp(detail, now)).state == if b.state == U.Closed then U.Closed else U.Abandoned
    ensures BA.Supported(B.After(b, GivingUp(detail, now)), maxRounds) <==> b.state in {U.AwaitingChecks, U.Abandoned, U.Closed}
  {
    if B.Step(B.Clean(b), GivingUp(detail, now)).Ok? {
      BA.StepIsSupported(b, GivingUp(detail, now), maxRounds);
    }
  }

  // ----- The order of a queue -----

  /** Where an item stands in a queue: when the log last queued it, and among equals
      by id. */
  datatype Place = Place(since: Time, id: Id)

  predicate NotAfter(p: Place, q: Place) {
    p.since < q.since || (p.since == q.since && p.id <= q.id)
  }

  /** The place of a bump in the repair queue; None for one the query leaves out. */
  function BumpPlace(bumps: map<B.BumpKey, B.Bump>, k: B.BumpKey): Option<Place> {
    if k !in bumps || bumps[k].state != U.Queued then None
    else
      match BumpQueuedSince(bumps[k].transitions)
      case None => None
      case Some(since) => Some(Place(since, bumps[k].id))
  }

  /** The place of a case, in a repository still enrolled. */
  function CasePlace(repositories: set<string>, cases: map<C.CaseKey, C.Case>, k: C.CaseKey): Option<Place> {
    if k !in cases || cases[k].state != F.Queued || k.repository !in repositories then None
    else
      match CaseQueuedSince(cases[k].transitions)
      case None => None
      case Some(since) => Some(Place(since, cases[k].id))
  }

  /** What the query returns: everything that has a place, once, in order. */
  ghost predicate Lists<K(!new)>(queue: seq<K>, place: K -> Option<Place>) {
    && (forall k :: k in queue <==> place(k).Some?)
    && InOrder(queue, place)
  }

  ghost predicate InOrder<K(!new)>(queue: seq<K>, place: K -> Option<Place>) {
    && (forall i | 0 <= i < |queue| :: place(queue[i]).Some?)
    && (forall i, j | 0 <= i < j < |queue| :: queue[i] != queue[j] && NotAfter(place(queue[i]).value, place(queue[j]).value))
  }

  /** With ids that are nobody else's, there is one such queue. */
  lemma {:induction false} QueueIsDetermined<K(!new)>(queue: seq<K>, other: seq<K>, place: K -> Option<Place>)
    requires Lists(queue, place) && Lists(other, place)
    requires forall k, l | place(k).Some? && place(k) == place(l) :: k == l
    ensures queue == other
    decreases |queue|
  {
    assert forall k :: k in queue <==> k in other;
    if queue != [] && other != [] {
      assert place(queue[0]) == place(other[0]) by {
        assert queue[0] in other && other[0] in queue;
      }
      var rest := k => if k == queue[0] then None else place(k);
      ListsRest(queue, place, rest);
      ListsRest(other, place, rest);
      QueueIsDetermined(queue[1..], other[1..], rest);
    } else {
      SameMembersBothEmpty(queue, other);
    }
  }

  lemma SameMembersBothEmpty<K(!new)>(queue: seq<K>, other: seq<K>)
    requires (forall k :: k in queue <==> k in other) && (queue == [] || other == [])
    ensures queue == other
  {
    if queue != [] { SomeMember(queue); }
    if other != [] { SomeMember(other); }
  }

  lemma SomeMember<K>(queue: seq<K>)
    requires queue != []
    ensures exists k :: k in queue
  {
    assert queue[0] in queue;
  }

  lemma ListsRest<K(!new)>(queue: seq<K>, place: K -> Option<Place>, rest: K -> Option<Place>)
    requires Lists(queue, place) && queue != []
    requires forall k :: rest(k) == if k == queue[0] then None else place(k)
    ensures Lists(queue[1..], rest)
  {
    forall k ensures k in queue[1..] <==> rest(k).Some? {
      if k in queue[1..] {
        var i :| 1 <= i < |queue| && queue[i] == k;
        assert queue[0] != queue[i];
      }
    }
  }

  lemma {:induction false} FilterKeepsOrder<K(!new)>(queue: seq<K>, place: K -> Option<Place>, keep: K -> bool)
    requires InOrder(queue, place)
    ensures InOrder(Filter(queue, keep), place)
  {
    if queue != [] {
      var n := |queue| - 1;
      FilterKeepsOrder(queue[..n], place, keep);
      var rest := Filter(queue[..n], keep);
      forall i | 0 <= i < |rest| ensures rest[i] != queue[n] && NotAfter(place(rest[i]).value, place(queue[n]).value) {
        assert rest[i] in queue[..n];
      }
    }
  }

  lemma InTake<T>(q: seq<T>, n: nat, j: nat)
    requires j < |q| && j < n
    ensures q[j] in Take(q, n)
  {
    assert Take(q, n)[j] == q[j];
  }

  /** When a startable item has to wait, every slot was used and each went to an
      item with a place before its own. */
  lemma OldestGoFirst<K(!new)>(queue: seq<K>, place: K -> Option<Place>, keep: K -> bool, slots: nat, k: K)
    requires Lists(queue, place) && place(k).Some? && keep(k) && k !in Take(Filter(queue, keep), slots)
    ensures var started := Take(Filter(queue, keep), slots);
      && |started| == slots
      && forall i | 0 <= i < |started| :: place(started[i]).Some? && NotAfter(place(started[i]).value, place(k).value)
  {
    var all := Filter(queue, keep);
    FilterKeepsOrder(queue, place, keep);
    assert k in queue && k in all;
    var j :| 0 <= j < |all| && all[j] == k;
    if j < slots { InTake(all, slots, j); }
  }

  /** Taking leaves something behind only when it has taken all it may. */
  lemma TakeIsFilled<T(!new)>(q: seq<T>, n: int)
    ensures |Take(q, n)| == 0 || |Take(q, n)| <= n
    ensures forall x | x in Take(q, n) :: x in q
    ensures (exists x :: x in q && x !in Take(q, n)) ==> |Take(q, n)| >= n
  {}

  // ----- One pass over a queue -----

  /** A queue names nobody twice, so the item at hand has not been started yet. */
  lemma NotYetReached<K(!new)>(queue: seq<K>, keep: K -> bool, i: nat)
    requires i < |queue| && forall j | 0 <= j < i :: queue[j] != queue[i]
    ensures queue[i] !in Filter(queue[..i], keep)
  {
    assert queue[i] !in queue[..i];
  }

  predicate Starts<K, V>(start: V -> Option<V>, items: map<K, V>, k: K) {
    k in items && start(items[k]).Some?
  }

  /** Exactly the started keys have moved, each to what starting it gives. */
  ghost predicate Started<K(!new), V>(start: V -> Option<V>, before: map<K, V>, after: map<K, V>, started: seq<K>) {
    && after.Keys == before.Keys
    && forall k | k in before :: after[k] == if k in started && Starts(start, before, k) then start(before[k]).value else before[k]
  }

  lemma StartedOneMore<K(!new), V>(start: V -> Option<V>, before: map<K, V>, after: map<K, V>, started: seq<K>, k: K)
    requires Started(start, before, after, started) && k in before && k !in started && Starts(start, before, k)
    ensures after[k] == before[k]
    ensures Started(start, before, after[k := start(before[k]).value], started + [k])
  {}

  /** As many started as there are slots is all a pass may take. */
  lemma FirstSlots<K(!new)>(queue: seq<K>, keep: K -> bool, i: nat, free: nat)
    requires i <= |queue| && |Filter(queue[..i], keep)| == free
    ensures Filter(queue[..i], keep) == Take(Filter(queue, keep), free)
  {
    FilterPrefix(queue, keep, i);
  }

  /** Starts the first startable items of the queue, as many as there are slots.
      An item that is skipped or fails to start costs no slot. */
  method RunQueue<K(!new, ==), V>(start: V -> Option<V>, items: map<K, V>, queue: seq<K>, free: int)
      returns (after: map<K, V>, started: seq<K>)
    requires forall k | k in queue :: k in items
    requires forall i, j | 0 <= i < j < |queue| :: queue[i] != queue[j]
    ensures started == Take(Filter(queue, k => Starts(start, items, k)), free)
    ensures Started(start, items, after, started)
  {
    ghost var keep := k => Starts(start, items, k);
    after, started := items, [];
    var slots := free;
    if slots <= 0 { return; }
    var i := 0;
    while i < |queue|
      invariant 0 <= i <= |queue| && 0 <= slots <= free && |started| + slots == free
      invariant started == Filter(queue[..i], keep)
      invariant Started(start, items, after, started)
    {
      if slots == 0 {
        FirstSlots(queue, keep, i, free);
        return;
      }
      var k := queue[i];
      FilterOneMore(queue, keep, i);
      NotYetReached(queue, keep, i);
      var next := start(after[k]);
      if next.Some? {
        StartedOneMore(start, items, after, started, k);
        after := after[k := next.value];
        started := started + [k];
        slots := slots - 1;
      }
      i := i + 1;
    }
    assert queue[..i] == queue;
  }

  // ----- The repair scheduler -----

  datatype PullRequest = Missing | Unreachable | Found(title: string, headSha: Sha, author: string, open: bool)

  /** What a pass over the bumps finds around it. `briefs` is the text of the
      brief that would be written for each bump. */
  datatype RepairSetting = RepairSetting(
    watched: set<string>, pulls: map<B.BumpKey, PullRequest>, login: string, budget: Budget,
    briefs: map<B.BumpKey, string>, now: Time, maxRounds: int)

  /** One bump's next round, or None when it is skipped or fails to start. */
  function StartRound(e: RepairSetting, b: B.Bump): Option<B.Bump> {
    if b.key.repository !in e.watched || b.key !in e.pulls || b.key !in e.briefs then None
    else
      match e.pulls[b.key]
      case Missing => None
      case Unreachable => None
      case Found(title, headSha, author, open) =>
        if !open || (e.login != "" && author != e.login) || headSha != b.headSha then None
        else
          match R.ScheduleRound(b, e.budget, title, e.briefs[b.key], e.now, e.maxRounds)
          case Err(_) => None
          case Ok(t) => Some(t.bump)
  }

  /** A bump gets its round exactly when its repository is watched, its pull request
      is there, open, by the expected author, titled and still at the bump's head,
      that head failed, and a round is left with none open. */
  ghost predicate MayStart(e: RepairSetting, b: B.Bump) {
    && b.key.repository in e.watched && b.key in e.pulls && b.key in e.briefs && e.briefs[b.key] != ""
    && e.pulls[b.key].Found? && e.pulls[b.key].open && e.pulls[b.key].title != ""
    && (e.login == "" || e.pulls[b.key].author == e.login)
    && e.pulls[b.key].headSha == b.headSha
    && b.state == U.Queued && BL.HeadHas(b, U.CheckFailure)
    && e.budget.maxTurns != 0 && BL.RoundLeft(b, e.maxRounds)
    && forall i | 0 <= i < |b.attempts| :: b.attempts[i].outcome.Some?
  }

  /** The bump with its next round running on its head. */
  ghost predicate RunsNextRound(e: RepairSetting, b: B.Bump, u: B.Bump)
    requires b.key in e.briefs
  {
    u == b.(state := U.Repairing,
      attempts := b.attempts + [U.RepairAttempt(0, |b.attempts| + 1, b.headSha, e.budget, e.briefs[b.key], e.now, None, None)],
      transitions := b.transitions + [U.BumpTransition(U.Queued, U.Repairing, U.CauseRepairStarted, e.now)])
  }

  lemma StartsExactly(e: RepairSetting, b: B.Bump)
    requires BI.Inv(b, e.maxRounds)
    ensures StartRound(e, b).Some? <==> MayStart(e, b)
    ensures StartRound(e, b).Some? ==> RunsNextRound(e, b, StartRound(e, b).value)
  {
    BL.HeadHasIsCurrent(b);
    if b.key in e.briefs {
      BL.RoundStartsExactly(B.Clean(b), e.budget, e.briefs[b.key], e.now, e.maxRounds);
    }
  }

  /** The pass over the queued bumps, with both kinds of open work counted
      against the one pool: what it starts may start, nothing else changes, and a
      bump that may start is left only for want of a slot. */
  method RunRepairs(e: RepairSetting, bumps: map<B.BumpKey, B.Bump>, queue: seq<B.BumpKey>, concurrency: int, attempts: nat, rounds: nat)
      returns (after: map<B.BumpKey, B.Bump>, started: seq<B.BumpKey>)
    requires forall k | k in queue :: k in bumps
    requires forall i, j | 0 <= i < j < |queue| :: queue[i] != queue[j]
    ensures started == Take(Filter(queue, k => Starts(b => StartRound(e, b), bumps, k)), concurrency - attempts - rounds)
    ensures Started(b => StartRound(e, b), bumps, after, started)
    ensures after.Keys == bumps.Keys && forall k | k in bumps && k !in started :: after[k] == bumps[k]
    ensures forall k | k in started :: k in queue
    ensures forall k | k in started && BI.Inv(bumps[k], e.maxRounds) :: MayStart(e, bumps[k]) && RunsNextRound(e, bumps[k], after[k])
    ensures |started| == 0 || |started| <= concurrency - attempts - rounds
    ensures forall k | k in queue && k !in started && BI.Inv(bumps[k], e.maxRounds) && MayStart(e, bumps[k]) ::
      |started| >= concurrency - attempts - rounds
  {
    after, started := RunQueue(b => StartRound(e, b), bumps, queue, concurrency - attempts - rounds);
    TakeIsFilled(Filter(queue, k => Starts(b => StartRound(e, b), bumps, k)), concurrency - attempts - rounds);
    forall k | k in queue && BI.Inv(bumps[k], e.maxRounds)
      ensures Starts(b => StartRound(e, b), bumps, k) <==> MayStart(e, bumps[k])
      ensures MayStart(e, bumps[k]) ==> RunsNextRound(e, bumps[k], StartRound(e, bumps[k]).value)
    {
      StartsExactly(e, bumps[k]);
    }
  }

  /** With the pull request as expected and a budget and texts at hand, a queued
      bump that no stray push hit starts as soon as no round is open. */
  lemma QueuedBumpStarts(e: RepairSetting, b: B.Bump, title: string)
    requires BI.Inv(b, e.maxRounds) && BR.QueuedBelowCap(b, e.maxRounds) && b.state == U.Queued && BR.HeadJudged(b)
    requires B.FirstOpen(b.attempts) == |b.attempts|
    requires b.key.repository in e.watched && b.key in e.pulls && b.key in e.briefs && e.briefs[b.key] != ""
    requires e.pulls[b.key] == Found(title, b.headSha, e.login, true) && title != "" && e.budget.maxTurns != 0
    ensures StartRound(e, b).Some? && StartRound(e, b).value.state == U.Repairing
  {}

  /** So no queued bump is passed over: one that could start and does not has been
      queued no longer than any that did, and no slot was left for it. */
  lemma OldestBumpsGoFirst(e: RepairSetting, bumps: map<B.BumpKey, B.Bump>, queue: seq<B.BumpKey>, slots: nat, k: B.BumpKey)
    requires Lists(queue, k => BumpPlace(bumps, k)) && k in bumps && BI.Inv(bumps[k], e.maxRounds) && bumps[k].state == U.Queued
    requires StartRound(e, bumps[k]).Some?
    requires k !in Take(Filter(queue, k => Starts(b => StartRound(e, b), bumps, k)), slots)
    ensures var started := Take(Filter(queue, k => Starts(b => StartRound(e, b), bumps, k)), slots);
      && |started| == slots
      && forall i | 0 <= i < |started| ::
           var before, mine := BumpPlace(bumps, started[i]), BumpPlace(bumps, k);
           before.Some? && mine.Some? && NotAfter(before.value, mine.value)
  {
    QueuedBumpIsListed(bumps[k], e.maxRounds);
    OldestGoFirst(queue, k => BumpPlace(bumps, k), k => Starts(b => StartRound(e, b), bumps, k), slots, k);
  }

  /** In plain terms: each that started has its latest log entry, the one that queued
      it, no later than the waiting bump's, and the lower id when they are equal. */
  lemma LongestQueuedBumpsStart(e: RepairSetting, bumps: map<B.BumpKey, B.Bump>, queue: seq<B.BumpKey>, slots: nat, k: B.BumpKey, i: nat)
    requires Lists(queue, k => BumpPlace(bumps, k)) && k in bumps && forall j | j in bumps :: BI.Inv(bumps[j], e.maxRounds)
    requires MayStart(e, bumps[k])
    requires k !in Take(Filter(queue, k => Starts(b => StartRound(e, b), bumps, k)), slots)
    requires i < |Take(Filter(queue, k => Starts(b => StartRound(e, b), bumps, k)), slots)|
    ensures var other := Take(Filter(queue, k => Starts(b => StartRound(e, b), bumps, k)), slots)[i];
      && other in bumps && bumps[other].transitions != [] && bumps[k].transitions != []
      && var theirs, mine := bumps[other].transitions[|bumps[other].transitions| - 1], bumps[k].transitions[|bumps[k].transitions| - 1];
         && theirs.to == U.Queued && mine.to == U.Queued
         && (theirs.occurredAt < mine.occurredAt || (theirs.occurredAt == mine.occurredAt && bumps[other].id <= bumps[k].id))
  {
    var other := Take(Filter(queue, k => Starts(b => StartRound(e, b), bumps, k)), slots)[i];
    StartsExactly(e, bumps[k]);
    OldestBumpsGoFirst(e, bumps, queue, slots, k);
    assert BumpPlace(bumps, other).Some?;
    QueuedBumpIsListed(bumps[other], e.maxRounds);
    QueuedBumpIsListed(bumps[k], e.maxRounds);
  }

  // ----- The attempt scheduler -----

  datatype Issue = IssueUnreachable | IssueFound(title: string, body: string, open: bool)

  datatype AttemptSetting = AttemptSetting(
    repositories: set<string>, issues: map<C.CaseKey, Issue>, auto: Budget, approved: Budget,
    briefs: map<C.CaseKey, string>, now: Time)

  /** The next attempt of one case, of the kind its approvals call for. */
  function StartAttempt(e: AttemptSetting, c: C.Case): Option<C.Case> {
    if c.key.repository !in e.repositories || c.key !in e.issues || c.key !in e.briefs then None
    else
      match e.issues[c.key]
      case IssueUnreachable => None
      case IssueFound(title, body, open) =>
        var kind := C.NextAttemptKind(c);
        var budget := if kind == F.Approved then e.approved else e.auto;
        if !open || title == "" || body == "" || budget.maxTurns == 0 then None
        else
          match C.StepStart(C.Clean(c), kind, budget, e.briefs[c.key], e.now)
          case Err(_) => None
          case Ok(t) => Some(t.subject)
  }

  /** An attempt of its kind goes ahead exactly when the repository is known, the
      issue is there, open, titled and described, and the case is queued with
      nothing open. */
  ghost predicate MayAttempt(e: AttemptSetting, c: C.Case) {
    && c.key.repository in e.repositories && c.key in e.issues && c.key in e.briefs && e.briefs[c.key] != ""
    && e.issues[c.key].IssueFound? && e.issues[c.key].open && e.issues[c.key].title != "" && e.issues[c.key].body != ""
    && BudgetFor(e, c).maxTurns != 0
    && c.state == F.Queued && forall i | 0 <= i < |c.attempts| :: c.attempts[i].outcome.Some?
  }

  /** Approved attempts run on the larger budget. */
  ghost function BudgetFor(e: AttemptSetting, c: C.Case): Budget {
    if exists a | a in c.approvals :: CL.Unanswered(c, a) then e.approved else e.auto
  }

  ghost predicate RunsNextAttempt(e: AttemptSetting, c: C.Case, u: C.Case)
    requires c.key in e.briefs
  {
    var kind := if exists a | a in c.approvals :: CL.Unanswered(c, a) then F.Approved else F.Auto;
    u == c.(state := F.Attempting,
      attempts := c.attempts + [F.Attempt(0, |c.attempts| + 1, kind, BudgetFor(e, c), e.briefs[c.key], e.now, None, None)],
      transitions := c.transitions + [F.Transition(F.Queued, F.Attempting, F.CauseAttemptStarted, e.now)])
  }

  lemma AttemptsExactly(e: AttemptSetting, c: C.Case)
    ensures StartAttempt(e, c).Some? <==> MayAttempt(e, c)
    ensures StartAttempt(e, c).Some? ==> RunsNextAttempt(e, c, StartAttempt(e, c).value)
  {
    CL.KindIsByApprovals(c);
    if c.key in e.briefs {
      CL.AttemptStartsExactly(C.Clean(c), C.NextAttemptKind(c), BudgetFor(e, c), e.briefs[c.key], e.now);
    }
  }

  /** The pass over the queued cases, likewise. */
  method RunAttempts(e: AttemptSetting, cases: map<C.CaseKey, C.Case>, queue: seq<C.CaseKey>, concurrency: int, attempts: nat, rounds: nat)
      returns (after: map<C.CaseKey, C.Case>, started: seq<C.CaseKey>)
    requires forall k | k in queue :: k in cases
    requires forall i, j | 0 <= i < j < |queue| :: queue[i] != queue[j]
    ensures started == Take(Filter(queue, k => Starts(c => StartAttempt(e, c), cases, k)), concurrency - attempts - rounds)
    ensures Started(c => StartAttempt(e, c), cases, after, started)
    ensures after.Keys == cases.Keys && forall k | k in cases && k !in started :: after[k] == cases[k]
    ensures forall k | k in started :: k in queue && MayAttempt(e, cases[k]) && RunsNextAttempt(e, cases[k], after[k])
    ensures |started| == 0 || |started| <= concurrency - attempts - rounds
    ensures forall k | k in queue && k !in started && MayAttempt(e, cases[k]) :: |started| >= concurrency - attempts - rounds
  {
    after, started := RunQueue(c => StartAttempt(e, c), cases, queue, concurrency - attempts - rounds);
    TakeIsFilled(Filter(queue, k => Starts(c => StartAttempt(e, c), cases, k)), concurrency - attempts - rounds);
    forall k | k in queue
      ensures Starts(c => StartAttempt(e, c), cases, k) <==> MayAttempt(e, cases[k])
      ensures MayAttempt(e, cases[k]) ==> RunsNextAttempt(e, cases[k], StartAttempt(e, cases[k]).value)
    {
      AttemptsExactly(e, cases[k]);
    }
  }

  /** A queued case whose issue is there starts, on the budget of its kind. */
  lemma QueuedCaseStarts(e: AttemptSetting, c: C.Case, title: string, body: string)
    requires CI.Inv(c) && c.state == F.Queued
    requires c.key.repository in e.repositories && c.key in e.issues && c.key in e.briefs && e.briefs[c.key] != ""
    requires e.issues[c.key] == IssueFound(title, body, true) && title != "" && body != ""
    requires e.auto.maxTurns != 0 && e.approved.maxTurns != 0
    ensures var u := StartAttempt(e, c);
      && u.Some? && u.value.state == F.Attempting
      && u.value.attempts[|c.attempts|].kind == C.NextAttemptKind(c)
      && u.value.attempts[|c.attempts|].budget == if C.NextAttemptKind(c) == F.Approved then e.approved else e.auto
  {
    assert C.FirstOpen(c.attempts) == |c.attempts|;
  }

  lemma OldestCasesGoFirst(e: AttemptSetting, cases: map<C.CaseKey, C.Case>, queue: seq<C.CaseKey>, slots: nat, k: C.CaseKey)
    requires Lists(queue, k => CasePlace(e.repositories, cases, k)) && k in cases && CI.Inv(cases[k]) && cases[k].state == F.Queued
    requires k.repository in e.repositories && StartAttempt(e, cases[k]).Some?
    requires k !in Take(Filter(queue, k => Starts(c => StartAttempt(e, c), cases, k)), slots)
    ensures var started := Take(Filter(queue, k => Starts(c => StartAttempt(e, c), cases, k)), slots);
      && |started| == slots
      && forall i | 0 <= i < |started| ::
           var before, mine := CasePlace(e.repositories, cases, started[i]), CasePlace(e.repositories, cases, k);
           before.Some? && mine.Some? && NotAfter(before.value, mine.value)
  {
    QueuedCaseIsListed(cases[k]);
    OldestGoFirst(queue, k => CasePlace(e.repositories, cases, k), k => Starts(c => StartAttempt(e, c), cases, k), slots, k);
  }

  lemma LongestQueuedCasesStart(e: AttemptSetting, cases: map<C.CaseKey, C.Case>, queue: seq<C.CaseKey>, slots: nat, k: C.CaseKey, i: nat)
    requires Lists(queue, k => CasePlace(e.repositories, cases, k)) && k in cases && forall j | j in cases :: CI.Inv(cases[j])
    requires k.repository in e.repositories && MayAttempt(e, cases[k])
    requires k !in Take(Filter(queue, k => Starts(c => StartAttempt(e, c), cases, k)), slots)
    requires i < |Take(Filter(queue, k => Starts(c => StartAttempt(e, c), cases, k)), slots)|
    ensures var other := Take(Filter(queue, k => Starts(c => StartAttempt(e, c), cases, k)), slots)[i];
      && other in cases && cases[other].transitions != [] && cases[k].transitions != []
      && var theirs, mine := cases[other].transitions[|cases[other].transitions| - 1], cases[k].transitions[|cases[k].transitions| - 1];
         && theirs.to == F.Queued && mine.to == F.Queued
         && (theirs.occurredAt < mine.occurredAt || (theirs.occurredAt == mine.occurredAt && cases[other].id <= cases[k].id))
  {
    var other := Take(Filter(queue, k => Starts(c => StartAttempt(e, c), cases, k)), slots)[i];
    AttemptsExactly(e, cases[k]);
    OldestCasesGoFirst(e, cases, queue, slots, k);
    assert CasePlace(e.repositories, cases, other).Some?;
    QueuedCaseIsListed(cases[other]);
    QueuedCaseIsListed(cases[k]);
  }
}
