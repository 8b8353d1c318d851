/** The combined state of every commit status and check run on one head, read
    page by page, and the verdict a bump is handed from it. */
module CheckRollup {
  import opened Kernel
  import opened UpkeepFacts
  import opened BumpModel

  datatype Status = Status(state: string, context: string, url: string)

  datatype CheckRun = CheckRun(status: string, conclusion: string, name: string, url: string)

  /** One answer of the paged API; the last of a sequence names no next page. */
  datatype Page<T> = Page(entries: seq<T>, total: int) | Broken

  datatype Entry = Passed | Failing(name: string, url: string) | Undecided

  datatype Rollup = Rollup(conclusive: bool, conclusion: CheckConclusion, failing: seq<string>, detailsUrl: string)

  const NOTHING := Rollup(false, ConclusionUnset, [], "")

  const UNNAMED := "(unnamed check)"

  function OfStatus(s: Status): Entry {
    if s.state == "success" then Passed
    else if s.state == "failure" || s.state == "error" then Failing(s.context, s.url)
    else Undecided
  }

  function OfRun(r: CheckRun): Entry {
    if r.status != "completed" then Undecided
    else if r.conclusion in {"success", "skipped", "neutral"} then Passed
    else if r.conclusion in {"failure", "timed_out", "action_required"} then Failing(r.name, r.url)
    else Undecided
  }

  function Statuses(ss: seq<Status>): (es: seq<Entry>)
    ensures |es| == |ss|
  {
    seq(|ss|, i requires 0 <= i < |ss| => OfStatus(ss[i]))
  }

  function Runs(rs: seq<CheckRun>): (es: seq<Entry>)
    ensures |es| == |rs|
  {
    seq(|rs|, i requires 0 <= i < |rs| => OfRun(rs[i]))
  }

  // ----- The flat specification -----

  function Concat<T>(pages: seq<Page<T>>): seq<T> {
    if pages == [] then []
    else Concat(pages[..|pages| - 1]) + if pages[|pages| - 1].Broken? then [] else pages[|pages| - 1].entries
  }

  predicate Intact<T>(pages: seq<Page<T>>) {
    forall i | 0 <= i < |pages| :: pages[i].Page?
  }

  predicate Decided(es: seq<Entry>) {
    forall i | 0 <= i < |es| :: es[i] != Undecided
  }

  predicate AnyFailing(es: seq<Entry>) {
    exists i | 0 <= i < |es| :: es[i].Failing?
  }

  function Label(e: Entry): string
    requires e.Failing?
  {
    if e.name == "" then UNNAMED else e.name
  }

  function Labels(es: seq<Entry>): seq<string> {
    if es == [] then []
    else Labels(es[..|es| - 1]) + if es[|es| - 1].Failing? then [Label(es[|es| - 1])] else []
  }

  /** The first failing entry's url that is not empty. */
  function FirstUrl(es: seq<Entry>): string {
    if es == [] then ""
    else if FirstUrl(es[..|es| - 1]) != "" then FirstUrl(es[..|es| - 1])
    else if es[|es| - 1].Failing? then es[|es| - 1].url else ""
  }

  /** Conclusive exactly when every entry is decided, none is missing and there is
      at least one; a failure exactly when some entry failed. */
  function Expected(statuses: seq<Entry>, statusTotal: int, runs: seq<Entry>, runTotal: int): Rollup {
    var all := statuses + runs;
    if !Decided(all) || |statuses| < statusTotal || |runs| < runTotal || all == [] then NOTHING
    else Rollup(true, if AnyFailing(all) then CheckFailure else CheckSuccess, Labels(all), FirstUrl(all))
  }

  // ----- The loops -----

  /** What the loops carry: entries seen, whether one failed, and the rollup so far. */
  datatype Tally = Tally(seen: nat, failed: bool, failing: seq<string>, detailsUrl: string)

  ghost predicate Counts(t: Tally, es: seq<Entry>) {
    && t.seen == |es| && Decided(es) && (t.failed <==> AnyFailing(es))
    && t.failing == Labels(es) && t.detailsUrl == FirstUrl(es)
  }

  method Fail(t: Tally, context: string, url: string) returns (u: Tally)
    ensures u == Tally(t.seen, true, t.failing + [Label(Failing(context, url))], if t.detailsUrl == "" then url else t.detailsUrl)
  {
    var name := context;
    if name == "" {
      name := UNNAMED;
    }
    u := t.(failed := true, failing := t.failing + [name]);
    if u.detailsUrl == "" {
      u := u.(detailsUrl := url);
    }
  }

  lemma CountOneMore(t: Tally, es: seq<Entry>, e: Entry, u: Tally)
    requires Counts(t, es) && e != Undecided
    requires u == if e.Failing? then
        Tally(t.seen + 1, true, t.failing + [Label(e)], if t.detailsUrl == "" then e.url else t.detailsUrl)
      else t.(seen := t.seen + 1)
    ensures Counts(u, es + [e])
  {
    var more := es + [e];
    assert more[..|more| - 1] == es;
    if AnyFailing(es) {
      var i :| 0 <= i < |es| && es[i].Failing?;
      assert more[i].Failing?;
    }
    assert more[|es|] == e;
  }

  /** Why a loop over the pages of one half stopped. */
  datatype Half = AllRead(tally: Tally, total: int) | StillRunning | Failed

  lemma DecidedTail(a: seq<Entry>, b: seq<Entry>)
    ensures Decided(a + b) <==> Decided(a) && Decided(b)
  {
    if Decided(a + b) {
      assert forall i | 0 <= i < |a| :: (a + b)[i] == a[i];
      assert forall i | 0 <= i < |b| :: (a + b)[|a| + i] == b[i];
    }
  }

  /** One page of status; None at the first entry that is not decided. */
  method ReadStatusPage(entries: seq<Status>, from: Tally, ghost earlier: seq<Entry>) returns (u: Option<Tally>)
    requires Counts(from, earlier)
    ensures u.Some? <==> Decided(Statuses(entries))
    ensures u.Some? ==> Counts(u.value, earlier + Statuses(entries))
  {
    var t := from;
    var j := 0;
    assert earlier + Statuses(entries[..0]) == earlier;
    while j < |entries|
      invariant 0 <= j <= |entries|
      invariant Counts(t, earlier + Statuses(entries[..j]))
      invariant Decided(Statuses(entries)[..j])
    {
      var e := entries[j];
      ghost var was := t;
      assert earlier + Statuses(entries[..j + 1]) == (earlier + Statuses(entries[..j])) + [OfStatus(e)];
      assert Statuses(entries)[..j + 1] == Statuses(entries)[..j] + [OfStatus(e)];
      t := t.(seen := t.seen + 1);
      if e.state == "success" {
      } else if e.state == "failure" || e.state == "error" {
        t := Fail(t, e.context, e.url);
      } else {
        assert Statuses(entries)[j] == Undecided;
        return None;
      }
      CountOneMore(was, earlier + Statuses(entries[..j]), OfStatus(e), t);
      j := j + 1;
    }
    assert entries[..j] == entries && Statuses(entries)[..j] == Statuses(entries);
    return Some(t);
  }

  lemma StatusesByPage(pages: seq<Page<Status>>, i: nat)
    requires i < |pages| && pages[i].Page?
    ensures Statuses(Concat(pages[..i + 1])) == Statuses(Concat(pages[..i])) + Statuses(pages[i].entries)
  {
    assert pages[..i + 1][..i] == pages[..i];
  }

  lemma {:induction false} UndecidedStatusStays(pages: seq<Page<Status>>, i: nat)
    requires i < |pages| && pages[i].Page? && !Decided(Statuses(pages[i].entries))
    ensures !Decided(Statuses(Concat(pages)))
    decreases |pages|
  {
    var n := |pages| - 1;
    if i < n {
      UndecidedStatusStays(pages[..n], i);
    }
    assert pages[..n + 1] == pages;
    if pages[n].Page? {
      StatusesByPage(pages, n);
      DecidedTail(Statuses(Concat(pages[..n])), Statuses(pages[n].entries));
    } else {
      assert Concat(pages) == Concat(pages[..n]);
    }
  }

  /** One page of run; None at the first entry that is not decided. */
  method ReadRunPage(entries: seq<CheckRun>, from: Tally, ghost earlier: seq<Entry>) returns (u: Option<Tally>)
    requires Counts(from, earlier)
    ensures u.Some? <==> Decided(Runs(entries))
    ensures u.Some? ==> Counts(u.value, earlier + Runs(entries))
  {
    var t := from;
    var j := 0;
    assert earlier + Runs(entries[..0]) == earlier;
    while j < |entries|
      invariant 0 <= j <= |entries|
      invariant Counts(t, earlier + Runs(entries[..j]))
      invariant Decided(Runs(entries)[..j])
    {
      var e := entries[j];
      ghost var was := t;
      assert earlier + Runs(entries[..j + 1]) == (earlier + Runs(entries[..j])) + [OfRun(e)];
      assert Runs(entries)[..j + 1] == Runs(entries)[..j] + [OfRun(e)];
      t := t.(seen := t.seen + 1);
      if e.status != "completed" {
        assert Runs(entries)[j] == Undecided;
        return None;
      }
      if e.conclusion == "success" || e.conclusion == "skipped" || e.conclusion == "neutral" {
      } else if e.conclusion == "failure" || e.conclusion == "timed_out" || e.conclusion == "action_required" {
        t := Fail(t, e.name, e.url);
      } else {
        assert Runs(entries)[j] == Undecided;
        return None;
      }
      CountOneMore(was, earlier + Runs(entries[..j]), OfRun(e), t);
      j := j + 1;
    }
    assert entries[..j] == entries && Runs(entries)[..j] == Runs(entries);
    return Some(t);
  }

  lemma RunsByPage(pages: seq<Page<CheckRun>>, i: nat)
    requires i < |pages| && pages[i].Page?
    ensures Runs(Concat(pages[..i + 1])) == Runs(Concat(pages[..i])) + Runs(pages[i].entries)
  {
    assert pages[..i + 1][..i] == pages[..i];
  }

  lemma {:induction false} UndecidedRunStays(pages: seq<Page<CheckRun>>, i: nat)
    requires i < |pages| && pages[i].Page? && !Decided(Runs(pages[i].entries))
    ensures !Decided(Runs(Concat(pages)))
    decreases |pages|
  {
    var n := |pages| - 1;
    if i < n {
      UndecidedRunStays(pages[..n], i);
    }
    assert pages[..n + 1] == pages;
    if pages[n].Page? {
      RunsByPage(pages, n);
      DecidedTail(Runs(Concat(pages[..n])), Runs(pages[n].entries));
    } else {
      assert Concat(pages) == Concat(pages[..n]);
    }
  }

  method ReadStatuses(pages: seq<Page<Status>>) returns (h: Half)
    requires pages != []
    ensures h.AllRead? <==> Intact(pages) && Decided(Statuses(Concat(pages)))
    ensures h.AllRead? ==> Counts(h.tally, Statuses(Concat(pages))) && h.total == pages[|pages| - 1].total
    ensures h.Failed? ==> !Intact(pages)
  {
    var t, total := Tally(0, false, [], ""), 0;
    var i := 0;
    ghost var seen: seq<Entry> := [];
    while i < |pages|
      invariant 0 <= i <= |pages| && forall j | 0 <= j < i :: pages[j].Page?
      invariant seen == Statuses(Concat(pages[..i])) && Counts(t, seen) && Decided(Statuses(Concat(pages[..i])))
      invariant i > 0 ==> total == pages[i - 1].total
    {
      if pages[i].Broken? { return Failed; }
      total := pages[i].total;
      var page := ReadStatusPage(pages[i].entries, t, seen);
      StatusesByPage(pages, i);
      if page.None? {
        UndecidedStatusStays(pages, i);
        return StillRunning;
      }
      DecidedTail(Statuses(Concat(pages[..i])), Statuses(pages[i].entries));
      t := page.value;
      seen := seen + Statuses(pages[i].entries);
      i := i + 1;
    }
    assert pages[..i] == pages;
    return AllRead(t, total);
  }

  /** Goes on counting from where the statuses left off. */
  method ReadRuns(pages: seq<Page<CheckRun>>, from: Tally, ghost earlier: seq<Entry>) returns (h: Half)
    requires pages != [] && Counts(from, earlier)
    ensures h.AllRead? <==> Intact(pages) && Decided(Runs(Concat(pages)))
    ensures h.AllRead? ==> Counts(h.tally, earlier + Runs(Concat(pages))) && h.total == pages[|pages| - 1].total
    ensures h.Failed? ==> !Intact(pages)
  {
    var t, total := from, 0;
    var i := 0;
    ghost var mine: seq<Entry> := [];
    assert earlier + mine == earlier;
    while i < |pages|
      invariant 0 <= i <= |pages| && forall j | 0 <= j < i :: pages[j].Page?
      invariant mine == Runs(Concat(pages[..i])) && Decided(mine) && Counts(t, earlier + mine)
      invariant i > 0 ==> total == pages[i - 1].total
    {
      if pages[i].Broken? { return Failed; }
      total := pages[i].total;
      var page := ReadRunPage(pages[i].entries, t, earlier + mine);
      RunsByPage(pages, i);
      if page.None? {
        UndecidedRunStays(pages, i);
        return StillRunning;
      }
      DecidedTail(mine, Runs(pages[i].entries));
      assert earlier + (mine + Runs(pages[i].entries)) == (earlier + mine) + Runs(pages[i].entries);
      t := page.value;
      mine := mine + Runs(pages[i].entries);
      i := i + 1;
    }
    assert pages[..i] == pages;
    return AllRead(t, total);
  }

  // ----- What GitHub's answers mean -----

  /** A status either passed, failed, or says nothing yet. */
  predicate StatusPassed(s: Status) { s.state == "success" }

  predicate StatusFailed(s: Status) { s.state == "failure" || s.state == "error" }

  /** A skipped or neutral run did not fail; one that timed out or waits for
      somebody did. A cancelled, stale or unnamed conclusion is neither. */
  predicate RunPassed(r: CheckRun) {
    r.status == "completed" && (r.conclusion == "success" || r.conclusion == "skipped" || r.conclusion == "neutral")
  }

  predicate RunFailed(r: CheckRun) {
    r.status == "completed" && (r.conclusion == "failure" || r.conclusion == "timed_out" || r.conclusion == "action_required")
  }

  lemma StatusIsRead(s: Status)
    ensures OfStatus(s) == Passed <==> StatusPassed(s)
    ensures OfStatus(s).Failing? <==> StatusFailed(s)
    ensures OfStatus(s).Failing? ==> OfStatus(s) == Failing(s.context, s.url)
  {}

  lemma RunIsRead(r: CheckRun)
    ensures OfRun(r) == Passed <==> RunPassed(r)
    ensures OfRun(r).Failing? <==> RunFailed(r)
    ensures OfRun(r).Failing? ==> OfRun(r) == Failing(r.name, r.url)
  {}

  /** Of every entry on every page. */
  ghost predicate Every<T(!new)>(pages: seq<Page<T>>, holds: T -> bool) {
    forall i, j | 0 <= i < |pages| && pages[i].Page? && 0 <= j < |pages[i].entries| :: holds(pages[i].entries[j])
  }

  function Seen<T>(pages: seq<Page<T>>): nat {
    if pages == [] then 0
    else Seen(pages[..|pages| - 1]) + if pages[|pages| - 1].Page? then |pages[|pages| - 1].entries| else 0
  }

  /** Every page arrived, none is missing by GitHub's own count, and there was
      something to read. */
  ghost predicate ReadInFull(statusPages: seq<Page<Status>>, runPages: seq<Page<CheckRun>>)
    requires statusPages != [] && runPages != []
  {
    && Intact(statusPages) && Intact(runPages)
    && Seen(statusPages) >= statusPages[|statusPages| - 1].total && Seen(runPages) >= runPages[|runPages| - 1].total
    && Seen(statusPages) + Seen(runPages) > 0
  }

  lemma {:induction false} EveryEntryIsConcatenated<T(!new)>(pages: seq<Page<T>>, holds: T -> bool)
    ensures |Concat(pages)| == Seen(pages)
    ensures Every(pages, holds) <==> forall i | 0 <= i < |Concat(pages)| :: holds(Concat(pages)[i])
  {
    if pages != [] {
      var n, init := |pages| - 1, pages[..|pages| - 1];
      EveryEntryIsConcatenated(init, holds);
      assert forall i | 0 <= i < n :: init[i] == pages[i];
      var last := if pages[n].Page? then pages[n].entries else [];
      assert Concat(pages) == Concat(init) + last;
      assert forall i | 0 <= i < |last| :: Concat(pages)[|Concat(init)| + i] == last[i];
      assert forall i | 0 <= i < |Concat(init)| :: Concat(pages)[i] == Concat(init)[i];
      if forall i | 0 <= i < |Concat(pages)| :: holds(Concat(pages)[i]) {
        assert forall j | 0 <= j < |last| :: holds(last[j]);
        assert forall i | 0 <= i < |Concat(init)| :: holds(Concat(init)[i]);
        EveryOnOneMore(pages, n, holds);
      }
    }
  }

  lemma EveryOnOneMore<T(!new)>(pages: seq<Page<T>>, n: nat, holds: T -> bool)
    requires n + 1 == |pages| && Every(pages[..n], holds)
    requires pages[n].Page? ==> forall j | 0 <= j < |pages[n].entries| :: holds(pages[n].entries[j])
    ensures Every(pages, holds)
  {
    forall i, j | 0 <= i < |pages| && pages[i].Page? && 0 <= j < |pages[i].entries| ensures holds(pages[i].entries[j]) {
      if i < n {
        assert pages[..n][i] == pages[i];
      }
    }
  }

  /** The failing entries by name, in the order they were read, a nameless one under
      a placeholder. */
  function Named(name: string): string {
    if name == "" then "(unnamed check)" else name
  }

  function StatusNames(ss: seq<Status>): seq<string> {
    if ss == [] then [] else StatusNames(ss[..|ss| - 1]) + if StatusFailed(ss[|ss| - 1]) then [Named(ss[|ss| - 1].context)] else []
  }

  function RunNames(rs: seq<CheckRun>): seq<string> {
    if rs == [] then [] else RunNames(rs[..|rs| - 1]) + if RunFailed(rs[|rs| - 1]) then [Named(rs[|rs| - 1].name)] else []
  }

  function StatusUrls(ss: seq<Status>): seq<string> {
    if ss == [] then [] else StatusUrls(ss[..|ss| - 1]) + if StatusFailed(ss[|ss| - 1]) then [ss[|ss| - 1].url] else []
  }

  function RunUrls(rs: seq<CheckRun>): seq<string> {
    if rs == [] then [] else RunUrls(rs[..|rs| - 1]) + if RunFailed(rs[|rs| - 1]) then [rs[|rs| - 1].url] else []
  }

  /** `url` is the first that is not empty, or empty when all are. */
  ghost predicate FirstOf(urls: seq<string>, url: string) {
    if url == "" then forall i | 0 <= i < |urls| :: urls[i] == ""
    else exists i | 0 <= i < |urls| :: urls[i] == url && forall j | 0 <= j < i :: urls[j] == ""
  }

  lemma FirstOfOneMore(urls: seq<string>, url: string, next: string)
    requires FirstOf(urls, url)
    ensures FirstOf(urls + [next], if url == "" then next else url)
  {
    var more := urls + [next];
    if url != "" {
      var i :| 0 <= i < |urls| && urls[i] == url && forall j | 0 <= j < i :: urls[j] == "";
      assert more[i] == url && forall j | 0 <= j < i :: more[j] == "";
    } else {
      assert more[|urls|] == next && forall j | 0 <= j < |urls| :: more[j] == "";
    }
  }

  lemma LabelsOneMore(es: seq<Entry>, e: Entry)
    ensures Labels(es + [e]) == Labels(es) + if e.Failing? then [Label(e)] else []
    ensures FirstUrl(es + [e]) == if FirstUrl(es) != "" then FirstUrl(es) else if e.Failing? then e.url else ""
  {
    assert (es + [e])[..|es|] == es;
  }

  lemma {:induction false} StatusesAreNamed(ss: seq<Status>)
    ensures Labels(Statuses(ss)) == StatusNames(ss)
    ensures FirstOf(StatusUrls(ss), FirstUrl(Statuses(ss)))
  {
    if ss != [] {
      var init, s := ss[..|ss| - 1], ss[|ss| - 1];
      StatusesAreNamed(init);
      StatusIsRead(s);
      assert Statuses(ss) == Statuses(init) + [OfStatus(s)];
      LabelsOneMore(Statuses(init), OfStatus(s));
      if StatusFailed(s) {
        FirstOfOneMore(StatusUrls(init), FirstUrl(Statuses(init)), s.url);
      }
    }
  }

  /** The runs are named after whatever came before. */
  lemma {:induction false} RunsAreNamed(earlier: seq<Entry>, urls: seq<string>, rs: seq<CheckRun>)
    requires FirstOf(urls, FirstUrl(earlier))
    ensures Labels(earlier + Runs(rs)) == Labels(earlier) + RunNames(rs)
    ensures FirstOf(urls + RunUrls(rs), FirstUrl(earlier + Runs(rs)))
    decreases |rs|
  {
    if rs == [] {
      assert earlier + Runs(rs) == earlier && urls + RunUrls(rs) == urls;
    } else {
      var init, r := rs[..|rs| - 1], rs[|rs| - 1];
      RunsAreNamed(earlier, urls, init);
      RunIsRead(r);
      assert earlier + Runs(rs) == (earlier + Runs(init)) + [OfRun(r)];
      LabelsOneMore(earlier + Runs(init), OfRun(r));
      assert Labels(earlier) + RunNames(rs) == (Labels(earlier) + RunNames(init)) + if RunFailed(r) then [Named(r.name)] else [];
      if RunFailed(r) {
        FirstOfOneMore(urls + RunUrls(init), FirstUrl(earlier + Runs(init)), r.url);
        assert urls + RunUrls(rs) == (urls + RunUrls(init)) + [r.url];
      } else {
        assert RunUrls(rs) == RunUrls(init) + [];
        assert urls + RunUrls(rs) == urls + RunUrls(init);
        assert FirstUrl(earlier + Runs(rs)) == FirstUrl(earlier + Runs(init));
      }
    }
  }

  lemma StatusesDecide(ss: seq<Status>)
    ensures Decided(Statuses(ss)) <==> forall i | 0 <= i < |ss| :: StatusPassed(ss[i]) || StatusFailed(ss[i])
    ensures AnyFailing(Statuses(ss)) <==> exists i | 0 <= i < |ss| :: StatusFailed(ss[i])
  {
    forall i | 0 <= i < |ss|
      ensures Statuses(ss)[i] != Undecided <==> StatusPassed(ss[i]) || StatusFailed(ss[i])
      ensures Statuses(ss)[i].Failing? <==> StatusFailed(ss[i])
    {
      StatusIsRead(ss[i]);
    }
  }

  lemma RunsDecide(rs: seq<CheckRun>)
    ensures Decided(Runs(rs)) <==> forall i | 0 <= i < |rs| :: RunPassed(rs[i]) || RunFailed(rs[i])
    ensures AnyFailing(Runs(rs)) <==> exists i | 0 <= i < |rs| :: RunFailed(rs[i])
  {
    forall i | 0 <= i < |rs|
      ensures Runs(rs)[i] != Undecided <==> RunPassed(rs[i]) || RunFailed(rs[i])
      ensures Runs(rs)[i].Failing? <==> RunFailed(rs[i])
    {
      RunIsRead(rs[i]);
    }
  }

  lemma FailingTail(a: seq<Entry>, b: seq<Entry>)
    ensures AnyFailing(a + b) <==> AnyFailing(a) || AnyFailing(b)
  {
    if i :| 0 <= i < |a| && a[i].Failing? { assert (a + b)[i].Failing?; }
    if i :| 0 <= i < |b| && b[i].Failing? { assert (a + b)[|a| + i].Failing?; }
    if i :| 0 <= i < |a + b| && (a + b)[i].Failing? { assert if i < |a| then a[i].Failing? else b[i - |a|].Failing?; }
  }

  /** The flat specification said in GitHub's own words. */
  lemma ExpectedMeans(ss: seq<Status>, statusTotal: int, rs: seq<CheckRun>, runTotal: int)
    ensures var r := Expected(Statuses(ss), statusTotal, Runs(rs), runTotal);
      && (r.conclusive <==>
            && |ss| >= statusTotal && |rs| >= runTotal && |ss| + |rs| > 0
            && (forall i | 0 <= i < |ss| :: StatusPassed(ss[i]) || StatusFailed(ss[i]))
            && (forall i | 0 <= i < |rs| :: RunPassed(rs[i]) || RunFailed(rs[i])))
      && (r.conclusive ==>
            && r.conclusion in {CheckSuccess, CheckFailure}
            && (r.conclusion == CheckFailure <==>
                  (exists i | 0 <= i < |ss| :: StatusFailed(ss[i])) || (exists i | 0 <= i < |rs| :: RunFailed(rs[i])))
            && r.failing == StatusNames(ss) + RunNames(rs)
            && FirstOf(StatusUrls(ss) + RunUrls(rs), r.detailsUrl))
  {
    StatusesDecide(ss);
    RunsDecide(rs);
    DecidedTail(Statuses(ss), Runs(rs));
    FailingTail(Statuses(ss), Runs(rs));
    StatusesAreNamed(ss);
    RunsAreNamed(Statuses(ss), StatusUrls(ss), rs);
  }

  predicate IsConclusive(r: Option<Rollup>, conclusion: CheckConclusion) {
    r.Some? && r.value.conclusive && r.value.conclusion == conclusion
  }

  /** The verdict over the pages' own entries. */
  lemma PagesMean(statusPages: seq<Page<Status>>, runPages: seq<Page<CheckRun>>, r: Option<Rollup>)
    requires statusPages != [] && runPages != []
    requires Intact(statusPages) && Intact(runPages) ==>
      r == Some(Expected(Statuses(Concat(statusPages)), statusPages[|statusPages| - 1].total,
                         Runs(Concat(runPages)), runPages[|runPages| - 1].total))
    requires !(Intact(statusPages) && Intact(runPages)) ==> r == None || r == Some(NOTHING)
    ensures IsConclusive(r, CheckSuccess) <==>
      ReadInFull(statusPages, runPages) && Every(statusPages, StatusPassed) && Every(runPages, RunPassed)
    ensures IsConclusive(r, CheckFailure) <==>
      && ReadInFull(statusPages, runPages)
      && Every(statusPages, s => StatusPassed(s) || StatusFailed(s)) && Every(runPages, r => RunPassed(r) || RunFailed(r))
      && !(Every(statusPages, s => !StatusFailed(s)) && Every(runPages, r => !RunFailed(r)))
  {
    var ss, rs := Concat(statusPages), Concat(runPages);
    if Intact(statusPages) && Intact(runPages) {
      ExpectedMeans(ss, statusPages[|statusPages| - 1].total, rs, runPages[|runPages| - 1].total);
      EveryEntryIsConcatenated(statusPages, StatusPassed);
      EveryEntryIsConcatenated(runPages, RunPassed);
      EveryEntryIsConcatenated(statusPages, s => StatusPassed(s) || StatusFailed(s));
      EveryEntryIsConcatenated(runPages, r => RunPassed(r) || RunFailed(r));
      EveryEntryIsConcatenated(statusPages, s => !StatusFailed(s));
      EveryEntryIsConcatenated(runPages, r => !RunFailed(r));
      SuccessIsAllPassed(ss, rs);
    }
  }

  lemma SuccessIsAllPassed(ss: seq<Status>, rs: seq<CheckRun>)
    ensures (&& (forall i | 0 <= i < |ss| :: StatusPassed(ss[i]) || StatusFailed(ss[i]))
             && (forall i | 0 <= i < |rs| :: RunPassed(rs[i]) || RunFailed(rs[i]))
             && (forall i | 0 <= i < |ss| :: !StatusFailed(ss[i])) && (forall i | 0 <= i < |rs| :: !RunFailed(rs[i]))) <==>
            ((forall i | 0 <= i < |ss| :: StatusPassed(ss[i])) && (forall i | 0 <= i < |rs| :: RunPassed(rs[i])))
  {
    forall i | 0 <= i < |ss| && StatusPassed(ss[i]) ensures !StatusFailed(ss[i]) {}
    forall i | 0 <= i < |rs| && RunPassed(rs[i]) ensures !RunFailed(rs[i]) {}
  }

  /** The paged read equals the flat one whenever every page arrives, and a page
      that does not arrive never yields a verdict. Success takes every entry passed,
      failure every entry decided and one failed; anything else concludes nothing. */
  method CheckRollup(statusPages: seq<Page<Status>>, runPages: seq<Page<CheckRun>>) returns (r: Option<Rollup>)
    requires statusPages != [] && runPages != []
    ensures Intact(statusPages) && Intact(runPages) ==>
      r == Some(Expected(Statuses(Concat(statusPages)), statusPages[|statusPages| - 1].total,
                         Runs(Concat(runPages)), runPages[|runPages| - 1].total))
    ensures !(Intact(statusPages) && Intact(runPages)) ==> r == None || r == Some(NOTHING)
    ensures IsConclusive(r, CheckSuccess) <==>
      ReadInFull(statusPages, runPages) && Every(statusPages, StatusPassed) && Every(runPages, RunPassed)
    ensures IsConclusive(r, CheckFailure) <==>
      && ReadInFull(statusPages, runPages)
      && Every(statusPages, s => StatusPassed(s) || StatusFailed(s)) && Every(runPages, r => RunPassed(r) || RunFailed(r))
      && !(Every(statusPages, s => !StatusFailed(s)) && Every(runPages, r => !RunFailed(r)))
    ensures r.Some? && r.value.conclusive ==>
      && r.value.conclusion in {CheckSuccess, CheckFailure}
      && r.value.failing == StatusNames(Concat(statusPages)) + RunNames(Concat(runPages))
      && FirstOf(StatusUrls(Concat(statusPages)) + RunUrls(Concat(runPages)), r.value.detailsUrl)
  {
    r := ReadRollup(statusPages, runPages);
    PagesMean(statusPages, runPages, r);
    if Intact(statusPages) && Intact(runPages) {
      ExpectedMeans(Concat(statusPages), statusPages[|statusPages| - 1].total, Concat(runPages), runPages[|runPages| - 1].total);
    }
  }

  method ReadRollup(statusPages: seq<Page<Status>>, runPages: seq<Page<CheckRun>>) returns (r: Option<Rollup>)
    requires statusPages != [] && runPages != []
    ensures Intact(statusPages) && Intact(runPages) ==>
      r == Some(Expected(Statuses(Concat(statusPages)), statusPages[|statusPages| - 1].total,
                         Runs(Concat(runPages)), runPages[|runPages| - 1].total))
    ensures !(Intact(statusPages) && Intact(runPages)) ==> r == None || r == Some(NOTHING)
  {
    ghost var statuses, runs := Statuses(Concat(statusPages)), Runs(Concat(runPages));
    DecidedTail(statuses, runs);
    var first := ReadStatuses(statusPages);
    if first.Failed? { return None; }
    if first.StillRunning? { return Some(NOTHING); }
    var second := ReadRuns(runPages, first.tally, statuses);
    if second.Failed? { return None; }
    if second.StillRunning? { return Some(NOTHING); }
    var statusSeen, seen := first.tally.seen, second.tally.seen;
    if statusSeen < first.total || seen - statusSeen < second.total { return Some(NOTHING); }
    if seen == 0 { return Some(NOTHING); }
    var conclusion := CheckSuccess;
    if second.tally.failed {
      conclusion := CheckFailure;
    }
    return Some(Rollup(true, conclusion, second.tally.failing, second.tally.detailsUrl));
  }

  // ----- The verdict drawn from a rollup -----

  function Join(parts: seq<string>, sep: string): string {
    if parts == [] then ""
    else if |parts| == 1 then parts[0]
    else parts[0] + sep + Join(parts[1..], sep)
  }

  lemma {:induction false} LabelsNameEveryFailure(es: seq<Entry>)
    ensures Labels(es) != [] <==> AnyFailing(es)
    ensures forall i | 0 <= i < |Labels(es)| :: Labels(es)[i] != ""
  {
    if es != [] {
      var rest, n := es[..|es| - 1], |es| - 1;
      LabelsNameEveryFailure(rest);
      if AnyFailing(rest) {
        var i :| 0 <= i < |rest| && rest[i].Failing?;
        assert es[i].Failing?;
      }
      if AnyFailing(es) && !es[n].Failing? {
        var i :| 0 <= i < |es| && es[i].Failing?;
        assert rest[i].Failing?;
      }
    }
  }

  lemma JoinIsEmptyExactlyWhenNothingIsJoined(parts: seq<string>, sep: string)
    requires sep != "" && forall i | 0 <= i < |parts| :: parts[i] != ""
    ensures Join(parts, sep) == "" <==> parts == []
  {
    if |parts| > 1 {
      assert |Join(parts, sep)| >= |sep|;
    }
  }

  /** Every label is in the joined text. */
  lemma {:induction false} JoinHoldsEveryPart(parts: seq<string>, sep: string, k: nat) returns (before: string, after: string)
    requires k < |parts|
    ensures Join(parts, sep) == before + parts[k] + after
  {
    if |parts| == 1 {
      before, after := "", "";
    } else if k == 0 {
      before, after := "", sep + Join(parts[1..], sep);
    } else {
      var b, a := JoinHoldsEveryPart(parts[1..], sep, k - 1);
      before, after := parts[0] + sep + b, a;
    }
  }

  function VerdictOf(roll: Rollup, headSha: Sha, at: Time): CheckVerdict {
    CheckVerdict(0, headSha, roll.conclusion, Join(roll.failing, "\n"), roll.detailsUrl, at)
  }

  /** A conclusive rollup always makes a verdict of the right shape: contexts are
      joined to something non-empty exactly for a failure. */
  lemma ConclusiveMakesValidVerdict(statuses: seq<Entry>, statusTotal: int, runs: seq<Entry>, runTotal: int, headSha: Sha, at: Time)
    requires ValidSha(headSha)
    ensures var roll := Expected(statuses, statusTotal, runs, runTotal);
      roll.conclusive ==> ValidVerdict(VerdictOf(roll, headSha, at))
    ensures var roll := Expected(statuses, statusTotal, runs, runTotal);
      var v := VerdictOf(roll, headSha, at);
      && v.headSha == headSha && v.concludedAt == at && v.conclusion == roll.conclusion && v.detailsUrl == roll.detailsUrl
      && (roll.conclusive ==> (v.conclusion == CheckFailure <==> v.failingContexts != ""))
  {
    var all := statuses + runs;
    LabelsNameEveryFailure(all);
    JoinIsEmptyExactlyWhenNothingIsJoined(Labels(all), "\n");
  }

  /** So the only way a bump at that head turns the verdict down is a refusal,
      never as invalid: it is not waiting, or has a verdict for the head. */
  lemma RollupVerdictIsTakenWhenAwaited(
      b: Bump, statuses: seq<Entry>, statusTotal: int, runs: seq<Entry>, runTotal: int, at: Time, maxRounds: int)
    requires ValidSha(b.headSha) && Expected(statuses, statusTotal, runs, runTotal).conclusive
    ensures var step := StepVerdict(Clean(b), VerdictOf(Expected(statuses, statusTotal, runs, runTotal), b.headSha, at), maxRounds);
      && (step.Ok? <==> b.state == AwaitingChecks && CurrentVerdict(b).None?)
      && (step.Err? ==> step.error == Refused)
  {
    ConclusiveMakesValidVerdict(statuses, statusTotal, runs, runTotal, b.headSha, at);
  }
}
