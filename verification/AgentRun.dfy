/** What both pipelines share: the report of a budgeted run, the answers of the
    push, and the registry a running attempt can be cancelled through. */
module AgentRun {
  import opened Kernel

  datatype Stop = StopNone | StopTurns | StopWallClock | StopDiffLines | StopCancelled | StopModelErr
  {
    /** The three budget stops are the three limits. */
    function Limit(): Limit {
      match this
      case StopTurns => LimitTurns
      case StopWallClock => LimitWallClock
      case StopDiffLines => LimitDiffLines
      case _ => LimitUnset
    }
  }

  /** Which limit a budget stop is recorded as. */
  predicate LimitNamed(stop: Stop, limit: Limit) {
    && (limit == LimitTurns <==> stop == StopTurns)
    && (limit == LimitWallClock <==> stop == StopWallClock)
    && (limit == LimitDiffLines <==> stop == StopDiffLines)
    && (limit == LimitUnset <==> stop in {StopNone, StopCancelled, StopModelErr})
  }

  datatype Report = Report(stop: Stop, summary: string, usage: Usage)

  /** Commit and push: the head it made and whether that reached the remote. The
      sandbox hands out no head it has not checked. */
  datatype PushResult = PushResult(head: Sha, pushed: bool)

  type Push = p: PushResult | p.pushed ==> ValidSha(p.head) witness PushResult("", false)

  datatype Markers = Unreadable | Marked | Clean

  const NO_SUMMARY := "The agent produced no summary."

  /** The agent's own summary, if it gave one. */
  function SummaryOf(r: Report): (s: string)
    ensures s != "" && (r.summary != "" ==> s == r.summary)
  {
    if r.summary == "" then NO_SUMMARY else r.summary
  }

  function InfraMessage(step: string, detail: string): (s: string)
    ensures s != ""
  {
    "infrastructure failure at " + step + if detail == "" then "" else "\n\n" + detail
  }

  /** One run in flight, and the reason it was asked to stop with, if any. */
  class Slot<R> {
    var reason: Option<R>
    var cancelled: bool

    constructor ()
      ensures reason == None && !cancelled
    {
      reason, cancelled := None, false;
    }
  }

  // ----- The runs in flight and the gauge -----

  /** The runs in flight by id, each under its own slot, and the gauge. */
  datatype Roll<S(==)> = Roll(running: map<Id, S>, gauge: int)
  {
    /** How far the gauge is above the runs it is to count. */
    function Drift(): int {
      gauge - |running|
    }
  }

  function Entered<S>(r: Roll<S>, id: Id, slot: S): Roll<S> {
    Roll(r.running[id := slot], r.gauge + 1)
  }

  /** Takes out this very run, never a later one under the same id, and moves the
      gauge only for the call that did. */
  function Left<S>(r: Roll<S>, id: Id, slot: S): Roll<S> {
    if id in r.running && r.running[id] == slot then Roll(r.running - {id}, r.gauge - 1) else r
  }

  datatype Call<S> = Enter(id: Id, slot: S) | Leave(id: Id, slot: S)

  function Called<S>(r: Roll<S>, c: Call<S>): Roll<S> {
    match c
    case Enter(id, slot) => Entered(r, id, slot)
    case Leave(id, slot) => Left(r, id, slot)
  }

  function AllCalled<S>(r: Roll<S>, calls: seq<Call<S>>): Roll<S>
    decreases |calls|
  {
    if calls == [] then r else AllCalled(Called(r, calls[0]), calls[1..])
  }

  /** The calls that enter an id already in flight: the earlier run is forgotten
      and its own leaving finds another slot. */
  function Displaced<S>(r: Roll<S>, calls: seq<Call<S>>): nat
    decreases |calls|
  {
    if calls == [] then 0
    else (if calls[0].Enter? && calls[0].id in r.running then 1 else 0) + Displaced(Called(r, calls[0]), calls[1..])
  }

  lemma CallDrifts<S>(r: Roll<S>, c: Call<S>)
    ensures Called(r, c).Drift() == r.Drift() + if c.Enter? && c.id in r.running then 1 else 0
  {
    match c
    case Enter(id, slot) =>
      assert r.running[id := slot].Keys == r.running.Keys + {id};
      assert |r.running[id := slot]| == |r.running[id := slot].Keys| && |r.running| == |r.running.Keys|;
    case Leave(id, slot) =>
      if id in r.running {
        assert (r.running - {id}).Keys == r.running.Keys - {id};
        assert |r.running - {id}| == |(r.running - {id}).Keys| && |r.running| == |r.running.Keys|;
      }
  }

  /** Whatever is registered and unregistered, twice or not at all, the gauge drifts
      by one for each id registered while in flight and by nothing else: it counts
      the runs in flight exactly when there was no such id. */
  lemma {:induction false} GaugeCountsRuns<S>(r: Roll<S>, calls: seq<Call<S>>)
    requires r.gauge == |r.running|
    ensures AllCalled(r, calls).gauge == |AllCalled(r, calls).running| <==> Displaced(r, calls) == 0
  {
    GaugeDrifts(r, calls);
  }

  lemma {:induction false} GaugeDrifts<S>(r: Roll<S>, calls: seq<Call<S>>)
    ensures AllCalled(r, calls).Drift() == r.Drift() + Displaced(r, calls)
    decreases |calls|
  {
    if calls != [] {
      CallDrifts(r, calls[0]);
      GaugeDrifts(Called(r, calls[0]), calls[1..]);
    }
  }

  /** What the runner keeps of its runs. */
  class Registry<R(!new)> {
    var running: map<Id, Slot<R>>
    var gauge: int

    ghost function Kept(): Roll<Slot<R>>
      reads this
    {
      Roll(running, gauge)
    }

    constructor ()
      ensures Kept() == Roll(map[], 0)
    {
      running, gauge := map[], 0;
    }

    method Register(id: Id) returns (slot: Slot<R>)
      modifies this
      ensures fresh(slot) && slot.reason == None && !slot.cancelled
      ensures running == old(running)[id := slot] && gauge == old(gauge) + 1
      ensures Kept() == Entered(old(Kept()), id, slot)
      ensures Kept().Drift() == old(Kept().Drift()) + if id in old(running) then 1 else 0
    {
      slot := new Slot();
      CallDrifts(Kept(), Enter(id, slot));
      running := running[id := slot];
      gauge := gauge + 1;
    }

    /** Takes out this very run; a second call finds nothing to take. */
    method Unregister(id: Id, slot: Slot<R>)
      modifies this
      ensures id in old(running) && old(running)[id] == slot ==> running == old(running) - {id} && gauge == old(gauge) - 1
      ensures !(id in old(running) && old(running)[id] == slot) ==> running == old(running) && gauge == old(gauge)
      ensures Kept() == Left(old(Kept()), id, slot)
      ensures Kept().Drift() == old(Kept().Drift())
      ensures id !in running || running[id] != slot
    {
      CallDrifts(Kept(), Leave(id, slot));
      if id !in running || running[id] != slot { return; }
      running := running - {id};
      gauge := gauge - 1;
    }

    /** Reports whether the run is here, and if so records the reason and cancels it. */
    method Cancel(id: Id, reason: R) returns (here: bool)
      modifies running.Values
      ensures here <==> id in running
      ensures here ==> running[id].reason == Some(reason) && running[id].cancelled
      ensures forall k | k in running && (id !in running || running[k] != running[id]) ::
        running[k].reason == old(running[k].reason) && running[k].cancelled == old(running[k].cancelled)
    {
      if id !in running { return false; }
      var slot := running[id];
      slot.reason := Some(reason);
      slot.cancelled := true;
      return true;
    }
  }
}
