/** How the dispatcher hears about changes: a subscription, a wake channel of
    capacity one, a floor ticker, and sweeps that read the tables in order. A
    change is unread from its commit until a scan of its table succeeds. */
module WakeProtocol {

  datatype Phase =
    | Starting              // the subscription is not live yet
    | Recovering            // subscribed, boot sweep still to come
    | Sweeping(next: nat)   // about to read table `next`
    | Idle

  /** `inFlight` notifications are sent and not delivered; `token` is the wake
      channel's one slot. `excused` is ghost bookkeeping: unread changes whose
      notification was lost or whose scan failed since the last floor tick. */
  datatype World = World(
    tables: nat, phase: Phase, connected: bool, inFlight: nat, token: bool, unread: set<nat>, excused: set<nat>)

  datatype Event =
    | Subscribe
    | BootSweep
    | Commit(table: nat)
    | Deliver
    | Disconnect
    | Reconnect
    | Tick
    | Wake
    | Read(ok: bool)
    | Finish
    | OperatorRead(table: nat)

  function Initial(tables: nat, unread: set<nat>): World {
    World(tables, Starting, false, 0, false, unread, {})
  }

  predicate Enabled(w: World, e: Event) {
    match e
    case Subscribe => w.phase == Starting
    case BootSweep => w.phase == Recovering
    case Commit(table) => table < w.tables
    case Deliver => w.inFlight > 0
    case Disconnect => w.connected
    case Reconnect => w.phase != Starting && !w.connected
    case Tick => w.phase != Starting
    case Wake => w.phase == Idle && w.token
    case Read(_) => w.phase.Sweeping? && w.phase.next < w.tables
    case Finish => w.phase == Sweeping(w.tables)
    case OperatorRead(table) => w.phase != Starting && table < w.tables
  }

  /** A successful scan of a table reads everything committed to it so far. */
  function Scanned(w: World, table: nat): World {
    w.(unread := w.unread - {table}, excused := w.excused - {table})
  }

  function Next(w: World, e: Event): World {
    match e
    case Subscribe => w.(phase := Recovering, connected := true)
    case BootSweep => w.(phase := Sweeping(0))
    case Commit(table) =>
      var u := w.(unread := w.unread + {table});
      if w.connected then u.(inFlight := w.inFlight + 1)
      else if w.phase == Starting then u
      else u.(excused := w.excused + {table})
    case Deliver => w.(inFlight := if w.inFlight > 0 then w.inFlight - 1 else 0, token := true)
    case Disconnect => w.(connected := false, inFlight := 0, excused := if w.inFlight > 0 then w.unread else w.excused)
    case Reconnect => w.(connected := true)
    case Tick => w.(token := true, excused := {})
    case Wake => w.(phase := Sweeping(0), token := false)
    case Read(ok) =>
      if !w.phase.Sweeping? then w
      else
        var p := w.phase.next;
        var u := w.(phase := Sweeping(p + 1));
        if ok then Scanned(u, p) else if p in w.unread then u.(excused := w.excused + {p}) else u
    case Finish => w.(phase := Idle)
    case OperatorRead(table) => Scanned(w, table)
  }

  // ----- No wake-up is lost -----

  /** Something is still going to make a scan read the table. */
  predicate Coming(w: World, table: nat) {
    || w.inFlight > 0
    || w.token
    || w.phase == Starting
    || w.phase == Recovering
    || (w.phase.Sweeping? && w.phase.next <= table)
  }

  ghost predicate Inv(w: World) {
    && (forall j | j in w.unread :: j < w.tables && (j in w.excused || Coming(w, j)))
    && w.excused <= w.unread
    && (w.phase.Sweeping? ==> w.phase.next <= w.tables)
    && (!w.connected ==> w.inFlight == 0)
    && (w.phase == Starting ==> !w.connected)
  }

  lemma StepKeepsInv(w: World, e: Event)
    requires Inv(w) && Enabled(w, e)
    ensures Inv(Next(w, e))
  {
    var u := Next(w, e);
    forall j | j in u.unread ensures j < u.tables && (j in u.excused || Coming(u, j)) {
      assert j in w.unread || e == Commit(j);
      assert j in w.unread ==> j in w.excused || Coming(w, j);
    }
  }

  ghost predicate Run(trace: seq<World>, events: seq<Event>) {
    && |trace| == |events| + 1
    && forall i | 0 <= i < |events| :: Enabled(trace[i], events[i]) && trace[i + 1] == Next(trace[i], events[i])
  }

  lemma {:induction false} RunKeepsInv(trace: seq<World>, events: seq<Event>, i: nat)
    requires Run(trace, events) && Inv(trace[0]) && i < |trace|
    ensures Inv(trace[i])
  {
    if i > 0 {
      RunKeepsInv(trace, events, i - 1);
      StepKeepsInv(trace[i - 1], events[i - 1]);
    }
  }

  /** A lost connection or a failed scan. */
  predicate Fault(e: Event) {
    e == Disconnect || e == Read(false)
  }

  /** Once subscribed, or with the boot sweep still to come, only a fault makes
      an excuse. */
  ghost predicate Steady(w: World) {
    w.excused == {} && (w.phase == Starting || w.connected)
  }

  lemma {:induction false} SteadyWithoutFaults(trace: seq<World>, events: seq<Event>, from: nat, i: nat)
    requires Run(trace, events) && from <= i < |trace| && Steady(trace[from])
    requires forall k | from <= k < i :: !Fault(events[k])
    ensures Steady(trace[i])
  {
    if i > from {
      SteadyWithoutFaults(trace, events, from, i - 1);
      assert trace[i - 1 + 1] == Next(trace[i - 1], events[i - 1]);
    }
  }

  // ----- Exactly what loses a wake-up -----

  ghost predicate AllComing(w: World) {
    forall j | j in w.unread :: Coming(w, j)
  }

  /** Coming even if every notification in flight is dropped. */
  predicate ComingAnyway(w: World, table: nat) {
    Coming(w.(inFlight := 0), table)
  }

  /** A change committed unheard with no read of its table ahead, a connection
      that takes with it the only notification of something unread, or a failed
      scan of an unread table with nothing to bring the next one. */
  predicate Loses(w: World, e: Event) {
    match e
    case Commit(table) => !w.connected && !Coming(w, table)
    case Disconnect => exists j | j in w.unread :: !ComingAnyway(w, j)
    case Read(ok) => !ok && w.phase.Sweeping? && w.phase.next in w.unread && w.inFlight == 0 && !w.token
    case _ => false
  }

  lemma StepLosesExactly(w: World, e: Event)
    requires Inv(w) && AllComing(w) && Enabled(w, e)
    ensures AllComing(Next(w, e)) <==> !Loses(w, e)
  {
    var u := Next(w, e);
    match e
    case Commit(table) =>
      assert table in u.unread;
      assert forall j | j in w.unread :: Coming(u, j);
      assert Coming(u, table) <==> w.connected || Coming(w, table);
    case Disconnect =>
      assert forall j :: Coming(u, j) <==> ComingAnyway(w, j);
    case Read(ok) =>
      assert forall j | j in u.unread && j != w.phase.next :: Coming(u, j);
    case _ =>
      assert forall j | j in u.unread :: j in w.unread && Coming(w, j) && Coming(u, j);
  }

  lemma {:induction false} ComingUntilLost(trace: seq<World>, events: seq<Event>, i: nat)
    requires Run(trace, events) && Inv(trace[0]) && AllComing(trace[0]) && i < |trace|
    requires forall k | 0 <= k < i :: !Loses(trace[k], events[k])
    ensures AllComing(trace[i])
  {
    if i > 0 {
      ComingUntilLost(trace, events, i - 1);
      RunKeepsInv(trace, events, i - 1);
      StepLosesExactly(trace[i - 1], events[i - 1]);
      assert trace[i - 1 + 1] == Next(trace[i - 1], events[i - 1]);
    }
  }

  /** Over any run at all, connected or not, every unread change is on its way to
      being read at every point exactly when no step loses one. */
  lemma WakeUpsLostExactly(trace: seq<World>, events: seq<Event>)
    requires Run(trace, events) && Inv(trace[0]) && AllComing(trace[0])
    ensures (forall i | 0 <= i < |trace| :: AllComing(trace[i])) <==> (forall k | 0 <= k < |events| :: !Loses(trace[k], events[k]))
  {
    if forall k | 0 <= k < |events| :: !Loses(trace[k], events[k]) {
      forall i | 0 <= i < |trace| ensures AllComing(trace[i]) {
        ComingUntilLost(trace, events, i);
      }
    }
    if forall i | 0 <= i < |trace| :: AllComing(trace[i]) {
      forall k | 0 <= k < |events| ensures !Loses(trace[k], events[k]) {
        RunKeepsInv(trace, events, k);
        StepLosesExactly(trace[k], events[k]);
        assert AllComing(trace[k + 1]);
      }
    }
  }

  /** A tick leaves every change coming, whatever was lost before it. */
  lemma TickCoversAll(w: World)
    requires Enabled(w, Tick)
    ensures AllComing(Next(w, Tick))
  {}

  /** From boot on, whatever is committed and whenever, as long as the listener
      stays connected and scans succeed: every change not yet read has a
      notification in flight, a token in the channel, or a sweep that has still
      to reach its table. */
  lemma NoLostWakeUp(tables: nat, unread: set<nat>, trace: seq<World>, events: seq<Event>, i: nat)
    requires Run(trace, events) && trace[0] == Initial(tables, unread) && i < |trace|
    requires forall j | j in unread :: j < tables
    requires forall k | 0 <= k < i :: !Fault(events[k])
    ensures forall j | j in trace[i].unread :: Coming(trace[i], j)
  {
    RunKeepsInv(trace, events, i);
    SteadyWithoutFaults(trace, events, 0, i);
  }

  /** So a dispatcher at rest has read everything. */
  lemma AtRestNothingIsUnread(tables: nat, unread: set<nat>, trace: seq<World>, events: seq<Event>, i: nat)
    requires Run(trace, events) && trace[0] == Initial(tables, unread) && i < |trace|
    requires forall j | j in unread :: j < tables
    requires forall k | 0 <= k < i :: !Fault(events[k])
    requires trace[i].phase == Idle && !trace[i].token && trace[i].inFlight == 0
    ensures trace[i].unread == {}
  {
    NoLostWakeUp(tables, unread, trace, events, i);
    assert forall j :: !Coming(trace[i], j);
  }

  /** After any faults at all, a floor tick with the connection up makes the
      guarantee whole again until the next fault. */
  lemma TickRestoresGuarantee(trace: seq<World>, events: seq<Event>, tick: nat, i: nat)
    requires Run(trace, events) && Inv(trace[0]) && tick < i < |trace|
    requires events[tick] == Tick && trace[tick].connected
    requires forall k | tick < k < i :: !Fault(events[k])
    ensures forall j | j in trace[i].unread :: Coming(trace[i], j)
  {
    RunKeepsInv(trace, events, i);
    assert trace[tick + 1] == Next(trace[tick], Tick);
    SteadyWithoutFaults(trace, events, tick + 1, i);
  }

  // ----- A sweep catches up -----

  /** The events of one undisturbed sweep from table `next` on. */
  function SweepFrom(next: nat, tables: nat): seq<Event>
    decreases tables - next
  {
    if next >= tables then [Finish] else [Read(true)] + SweepFrom(next + 1, tables)
  }

  function Exec(w: World, events: seq<Event>): World
    decreases |events|
  {
    if events == [] then w else Exec(Next(w, events[0]), events[1..])
  }

  /** It leaves unread only what lies before its starting point. */
  lemma {:induction false} SweepReadsOn(w: World, next: nat)
    requires w.phase == Sweeping(next) && next <= w.tables && forall j | j in w.unread :: j < w.tables
    ensures var u := Exec(w, SweepFrom(next, w.tables));
      && u.phase == Idle && (u.unread == set j | j in w.unread && j < next)
      && u.token == w.token && u.inFlight == w.inFlight && u.connected == w.connected && u.tables == w.tables
    decreases w.tables - next
  {
    if next < w.tables {
      var u := Next(w, Read(true));
      assert SweepFrom(next, w.tables)[1..] == SweepFrom(next + 1, w.tables);
      SweepReadsOn(u, next + 1);
      assert (set j | j in u.unread && j < next + 1) == set j | j in w.unread && j < next;
    } else {
      assert (set j | j in w.unread && j < next) == w.unread;
      assert Exec(Next(w, Finish), []) == Next(w, Finish);
    }
  }

  /** One wake-up, however many changes it stands for, reads them all. */
  lemma OneWakeReadsAll(w: World)
    requires Inv(w) && Enabled(w, Wake)
    ensures Exec(w, [Wake] + SweepFrom(0, w.tables)).unread == {}
  {
    assert ([Wake] + SweepFrom(0, w.tables))[1..] == SweepFrom(0, w.tables);
    SweepReadsOn(Next(w, Wake), 0);
  }

  // ----- Why the listener has to stay connected -----

  /** A change committed while the connection is down leaves a dispatcher that is
      connected again, at rest, and does not know: only a tick or another change
      will wake it. */
  lemma LostWhileDisconnected(w: World, table: nat)
    requires w.phase == Idle && !w.token && w.inFlight == 0 && w.connected && table < w.tables
    ensures var u := Exec(w, [Disconnect, Commit(table), Reconnect]);
      && u.connected && u.phase == Idle && table in u.unread && !Coming(u, table)
      && (forall e | Enabled(u, e) && Coming(Next(u, e), table) :: e == Tick || e.Commit?)
  {
    var events := [Disconnect, Commit(table), Reconnect];
    assert events[1..] == [Commit(table), Reconnect] && events[1..][1..] == [Reconnect];
    var w1 := Next(w, Disconnect);
    var w2 := Next(w1, Commit(table));
    assert Exec(w2, [Reconnect]) == Next(w2, Reconnect) by { assert [Reconnect][1..] == []; }
  }

  /** A scan that fails with nothing else to bring another leaves its table unread
      once the sweep is through: only a tick or another change will wake the
      dispatcher. */
  lemma FailedScanIsForgotten(w: World, table: nat)
    requires Inv(w) && w.phase == Sweeping(table) && table in w.unread && w.inFlight == 0 && !w.token && w.connected
    ensures var u := Exec(w, [Read(false)] + SweepFrom(table + 1, w.tables));
      && u.connected && u.phase == Idle && table in u.unread && !Coming(u, table)
      && (forall e | Enabled(u, e) && Coming(Next(u, e), table) :: e == Tick || e.Commit?)
  {
    assert ([Read(false)] + SweepFrom(table + 1, w.tables))[1..] == SweepFrom(table + 1, w.tables);
    SweepReadsOn(Next(w, Read(false)), table + 1);
  }
}
