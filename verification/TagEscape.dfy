/** Fencing untrusted text in a brief: every tag marker inside is spelled with an
    entity, whatever its case, so the only markers left are the fence's own.
    Text is bytes; each char is one byte. */
module TagEscape {

  function Lower(c: char): char {
    if 'A' <= c <= 'Z' then c + 32 as char else c
  }

  predicate FoldEq(a: string, b: string) {
    |a| == |b| && forall i | 0 <= i < |a| :: Lower(a[i]) == Lower(b[i])
  }

  /** `pat` occurs in `s` at `i`, case aside. */
  predicate At(s: string, pat: string, i: nat) {
    i + |pat| <= |s| && FoldEq(s[i..i + |pat|], pat)
  }

  predicate Absent(s: string, pat: string) {
    forall i | 0 <= i <= |s| :: !At(s, pat, i)
  }

  /** A tag name: lower-case letters. */
  predicate TagName(tag: string) {
    tag != "" && forall i | 0 <= i < |tag| :: 'a' <= tag[i] <= 'z'
  }

  /** Two bytes are equal case aside exactly when they are equal or the two cases of
      one ASCII letter. */
  lemma FoldIsAsciiCase(c: char, d: char)
    ensures FoldEq([c], [d]) <==>
      || c == d
      || ('A' <= c <= 'Z' && 'a' <= d <= 'z' && d as int - c as int == 'a' as int - 'A' as int)
      || ('a' <= c <= 'z' && 'A' <= d <= 'Z' && c as int - d as int == 'a' as int - 'A' as int)
  {
    assert Lower([c][0]) == Lower(c) && Lower([d][0]) == Lower(d);
  }

  // ----- The replacement -----

  function ReplaceFold(s: string, marker: string, rep: string): string
    requires marker != ""
    decreases |s|
  {
    if s == "" then ""
    else if At(s, marker, 0) then rep + ReplaceFold(s[|marker|..], marker, rep)
    else [s[0]] + ReplaceFold(s[1..], marker, rep)
  }

  lemma ReplaceStep(s: string, marker: string, rep: string, i: nat)
    requires marker != "" && i < |s|
    ensures At(s, marker, i) ==> ReplaceFold(s[i..], marker, rep) == rep + ReplaceFold(s[i + |marker|..], marker, rep)
    ensures !At(s, marker, i) ==> ReplaceFold(s[i..], marker, rep) == [s[i]] + ReplaceFold(s[i + 1..], marker, rep)
  {
    var rest := s[i..];
    if |rest| >= |marker| {
      assert rest[..|marker|] == s[i..i + |marker|] && rest[|marker|..] == s[i + |marker|..];
    }
    assert At(rest, marker, 0) <==> At(s, marker, i);
    assert rest[1..] == s[i + 1..];
  }

  /** The output so far and the output still to come. */
  ghost predicate Splits(s: string, marker: string, rep: string, out: string, i: nat)
    requires marker != "" && i <= |s|
  {
    ReplaceFold(s, marker, rep) == out + ReplaceFold(s[i..], marker, rep)
  }

  lemma SplitStep(s: string, marker: string, rep: string, out: string, i: nat)
    requires marker != "" && i < |s| && Splits(s, marker, rep, out, i)
    ensures At(s, marker, i) ==> Splits(s, marker, rep, out + rep, i + |marker|)
    ensures !At(s, marker, i) ==> Splits(s, marker, rep, out + [s[i]], i + 1)
  {
    ReplaceStep(s, marker, rep, i);
    if At(s, marker, i) {
      Associate(out, rep, ReplaceFold(s[i + |marker|..], marker, rep));
    } else {
      Associate(out, [s[i]], ReplaceFold(s[i + 1..], marker, rep));
    }
  }

  lemma Associate(a: string, b: string, c: string)
    ensures a + (b + c) == (a + b) + c
  {}

  method ReplaceFoldLoop(s: string, marker: string, rep: string) returns (out: string)
    requires marker != ""
    ensures out == ReplaceFold(s, marker, rep)
  {
    out := "";
    var i := 0;
    while i < |s|
      invariant 0 <= i <= |s|
      invariant Splits(s, marker, rep, out, i)
    {
      SplitStep(s, marker, rep, out, i);
      if |s| - i >= |marker| && FoldEq(s[i..i + |marker|], marker) {
        out := out + rep;
        i := i + |marker|;
      } else {
        out := out + [s[i]];
        i := i + 1;
      }
    }
  }

  function Open(tag: string): string { "<" + tag }

  function Close(tag: string): string { "</" + tag }

  function EscapeTag(tag: string, s: string): string
    requires TagName(tag)
  {
    ReplaceFold(ReplaceFold(s, Close(tag), "&lt;/" + tag), Open(tag), "&lt;" + tag)
  }

  function Fence(tag: string, body: string): string
    requires TagName(tag)
  {
    "<" + tag + ">\n" + EscapeTag(tag, body) + "\n</" + tag + ">\n"
  }

  // ----- No marker is left -----

  /** A marker: an angle bracket, then only slashes and letters. */
  predicate Marker(pat: string) {
    pat != "" && pat[0] == '<' && forall i | 1 <= i < |pat| :: pat[i] == '/' || 'a' <= pat[i] <= 'z'
  }

  /** The replacement of a marker starts with the entity and holds no bracket. */
  predicate Entity(rep: string) {
    rep != "" && rep[0] == '&' && forall i | 0 <= i < |rep| :: rep[i] != '<'
  }

  /** What the output starts with, short of any bracket or entity, the input
      starts with too. */
  lemma {:induction false} PlainPrefixIsCopied(s: string, marker: string, rep: string, w: string)
    requires marker != "" && Entity(rep) && forall i | 0 <= i < |w| :: w[i] == '/' || 'a' <= w[i] <= 'z'
    requires At(ReplaceFold(s, marker, rep), w, 0)
    ensures At(s, w, 0)
    decreases |w|
  {
    var out := ReplaceFold(s, marker, rep);
    if w != "" {
      assert Lower(out[..|w|][0]) == Lower(w[0]);
      assert out[0] != '&';
      assert out == [s[0]] + ReplaceFold(s[1..], marker, rep);
      AtTail(out, w);
      assert out[1..] == ReplaceFold(s[1..], marker, rep);
      PlainPrefixIsCopied(s[1..], marker, rep, w[1..]);
      AtHead(s, w);
    }
  }

  lemma AtTail(s: string, w: string)
    requires w != "" && At(s, w, 0)
    ensures s != "" && Lower(s[0]) == Lower(w[0]) && At(s[1..], w[1..], 0)
  {
    assert Lower(s[..|w|][0]) == Lower(w[0]);
    forall i | 0 <= i < |w| - 1 ensures Lower(s[1..][..|w| - 1][i]) == Lower(w[1..][i]) {
      assert Lower(s[..|w|][i + 1]) == Lower(w[i + 1]);
    }
  }

  lemma AtHead(s: string, w: string)
    requires w != "" && s != "" && Lower(s[0]) == Lower(w[0]) && At(s[1..], w[1..], 0)
    ensures At(s, w, 0)
  {
    forall i | 0 <= i < |w| ensures Lower(s[..|w|][i]) == Lower(w[i]) {
      if i > 0 {
        assert Lower(s[1..][..|w| - 1][i - 1]) == Lower(w[1..][i - 1]);
      }
    }
  }

  /** Occurrences move with their text. */
  lemma AtShift(a: string, b: string, pat: string, i: nat)
    ensures At(a + b, pat, |a| + i) <==> At(b, pat, i)
  {
    if i + |pat| <= |b| {
      assert (a + b)[|a| + i..|a| + i + |pat|] == b[i..i + |pat|];
    }
  }

  ghost predicate LeftAt(s: string, marker: string, pat: string, i: nat) {
    At(s, pat, i) && !At(s, marker, i)
  }

  lemma LeftAtShift(a: string, b: string, marker: string, pat: string, i: nat)
    requires LeftAt(b, marker, pat, i)
    ensures LeftAt(a + b, marker, pat, |a| + i)
  {
    AtShift(a, b, pat, i);
    AtShift(a, b, marker, i);
  }

  /** An occurrence after an entity starts after all of it. */
  lemma NotInsideEntity(rep: string, rest: string, pat: string, p: nat)
    requires Entity(rep) && Marker(pat) && At(rep + rest, pat, p)
    ensures p >= |rep| && At(rest, pat, p - |rep|)
  {
    StartsWithBracket(rep + rest, pat, p);
    if p >= |rep| { AtShift(rep, rest, pat, p - |rep|); }
  }

  lemma CopiedHead(s: string, marker: string, rep: string, pat: string)
    requires s != "" && marker != "" && Entity(rep) && Marker(pat) && !At(s, marker, 0)
    requires At([s[0]] + ReplaceFold(s[1..], marker, rep), pat, 0)
    ensures At(s, pat, 0)
  {
    var out := [s[0]] + ReplaceFold(s[1..], marker, rep);
    AtTail(out, pat);
    assert out[1..] == ReplaceFold(s[1..], marker, rep);
    PlainPrefixIsCopied(s[1..], marker, rep, pat[1..]);
    AtHead(s, pat);
  }

  /** Moves an occurrence left in a tail of `s` to `s` itself. */
  lemma LeftInTail(s: string, marker: string, pat: string, k: nat, i: nat)
    requires k <= |s| && LeftAt(s[k..], marker, pat, i)
    ensures LeftAt(s, marker, pat, k + i)
  {
    assert s == s[..k] + s[k..];
    LeftAtShift(s[..k], s[k..], marker, pat, i);
  }

  /** A marker in the output was in the input, at a place not replaced. */
  lemma {:induction false} MarkersAreCopied(s: string, marker: string, rep: string, pat: string, p: nat) returns (i: nat)
    requires marker != "" && Entity(rep) && Marker(pat) && At(ReplaceFold(s, marker, rep), pat, p)
    ensures LeftAt(s, marker, pat, i)
    decreases |s|
  {
    if s == "" {
      assert false;
    } else if At(s, marker, 0) {
      NotInsideEntity(rep, ReplaceFold(s[|marker|..], marker, rep), pat, p);
      i := MarkersAreCopied(s[|marker|..], marker, rep, pat, p - |rep|);
      LeftInTail(s, marker, pat, |marker|, i);
      i := |marker| + i;
    } else if p == 0 {
      CopiedHead(s, marker, rep, pat);
      i := 0;
    } else {
      AtShift([s[0]], ReplaceFold(s[1..], marker, rep), pat, p - 1);
      i := MarkersAreCopied(s[1..], marker, rep, pat, p - 1);
      LeftInTail(s, marker, pat, 1, i);
      i := 1 + i;
    }
  }

  lemma ReplacedIsAbsent(s: string, marker: string, rep: string)
    requires Marker(marker) && Entity(rep)
    ensures Absent(ReplaceFold(s, marker, rep), marker)
  {
    forall p | 0 <= p <= |ReplaceFold(s, marker, rep)| ensures !At(ReplaceFold(s, marker, rep), marker, p) {
      if At(ReplaceFold(s, marker, rep), marker, p) {
        var i := MarkersAreCopied(s, marker, rep, marker, p);
        assert false;
      }
    }
  }

  lemma AbsentStays(s: string, marker: string, rep: string, pat: string)
    requires marker != "" && Entity(rep) && Marker(pat) && Absent(s, pat)
    ensures Absent(ReplaceFold(s, marker, rep), pat)
  {
    forall p | 0 <= p <= |ReplaceFold(s, marker, rep)| ensures !At(ReplaceFold(s, marker, rep), pat, p) {
      if At(ReplaceFold(s, marker, rep), pat, p) {
        var i := MarkersAreCopied(s, marker, rep, pat, p);
        assert false;
      }
    }
  }

  /** For every text, neither marker of the tag is left in it, in any case. */
  lemma EscapedHoldsNoMarker(tag: string, s: string)
    requires TagName(tag)
    ensures Absent(EscapeTag(tag, s), Open(tag)) && Absent(EscapeTag(tag, s), Close(tag))
  {
    var first := ReplaceFold(s, Close(tag), "&lt;/" + tag);
    ReplacedIsAbsent(s, Close(tag), "&lt;/" + tag);
    ReplacedIsAbsent(first, Open(tag), "&lt;" + tag);
    AbsentStays(first, Open(tag), "&lt;" + tag, Close(tag));
  }

  // ----- Nothing else is touched -----

  lemma {:induction false} AbsentIsUntouched(s: string, marker: string, rep: string)
    requires marker != "" && Absent(s, marker)
    ensures ReplaceFold(s, marker, rep) == s
    decreases |s|
  {
    if s != "" {
      assert !At(s, marker, 0);
      forall i | 0 <= i <= |s[1..]| ensures !At(s[1..], marker, i) {
        assert s == [s[0]] + s[1..];
        AtShift([s[0]], s[1..], marker, i);
        assert !At(s, marker, 1 + i);
      }
      AbsentIsUntouched(s[1..], marker, rep);
    }
  }

  /** Text without a marker is left alone, and so escaping twice is escaping once. */
  lemma EscapeIsIdempotent(tag: string, s: string)
    requires TagName(tag)
    ensures Absent(s, Open(tag)) && Absent(s, Close(tag)) ==> EscapeTag(tag, s) == s
    ensures EscapeTag(tag, EscapeTag(tag, s)) == EscapeTag(tag, s)
  {
    EscapedHoldsNoMarker(tag, s);
    forall t | Absent(t, Open(tag)) && Absent(t, Close(tag)) ensures EscapeTag(tag, t) == t {
      AbsentIsUntouched(t, Close(tag), "&lt;/" + tag);
      AbsentIsUntouched(t, Open(tag), "&lt;" + tag);
    }
  }

  /** `t` is `s` with some brackets spelled as the entity, case aside. */
  predicate SameText(s: string, t: string)
    decreases |t|
  {
    if t == "" then s == ""
    else
      || (s != "" && Lower(s[0]) == Lower(t[0]) && SameText(s[1..], t[1..]))
      || (s != "" && s[0] == '<' && At(t, "&lt;", 0) && SameText(s[1..], t[4..]))
  }

  lemma {:induction false} SameTextFold(a: string, b: string, s: string, t: string)
    requires FoldEq(a, b) && SameText(s, t)
    ensures SameText(a + s, b + t)
    decreases |a|
  {
    if a == "" {
      assert a + s == s && b + t == t;
    } else {
      assert FoldEq(a[1..], b[1..]) by {
        forall i | 0 <= i < |a| - 1 ensures Lower(a[1..][i]) == Lower(b[1..][i]) {
          assert Lower(a[i + 1]) == Lower(b[i + 1]);
        }
      }
      SameTextFold(a[1..], b[1..], s, t);
      assert (a + s)[1..] == a[1..] + s && (b + t)[1..] == b[1..] + t;
    }
  }

  /** A replaced marker is its bracket as an entity and its name, case aside. */
  lemma MatchIsSameText(s: string, w: string, out: string)
    requires At(s, "<" + w, 0) && SameText(s[|w| + 1..], out)
    ensures SameText(s, "&lt;" + w + out)
  {
    var marker, rest := "<" + w, s[|w| + 1..];
    AtTail(s, marker);
    assert marker[1..] == w;
    SameTextFold(s[1..][..|w|], w, rest, out);
    assert s[1..] == s[1..][..|w|] + rest;
    var all := "&lt;" + w + out;
    assert all[..4] == "&lt;" && all[4..] == w + out;
  }

  /** One pass keeps the text: nothing is dropped and nothing is added. */
  lemma {:induction false} ReplacedIsSameText(s: string, w: string)
    ensures SameText(s, ReplaceFold(s, "<" + w, "&lt;" + w))
    decreases |s|
  {
    var marker, rep := "<" + w, "&lt;" + w;
    if s == "" {
    } else if At(s, marker, 0) {
      ReplacedIsSameText(s[|w| + 1..], w);
      MatchIsSameText(s, w, ReplaceFold(s[|w| + 1..], marker, rep));
    } else {
      ReplacedIsSameText(s[1..], w);
      var out := [s[0]] + ReplaceFold(s[1..], marker, rep);
      assert out[1..] == ReplaceFold(s[1..], marker, rep);
    }
  }

  lemma {:induction false} SameTextDrops(t: string, u: string, k: nat)
    requires SameText(t, u) && k <= |t| && k <= |u| && forall i | 0 <= i < k :: t[i] != '<'
    ensures SameText(t[k..], u[k..])
    ensures forall i | 0 <= i < k :: Lower(t[i]) == Lower(u[i])
    decreases k
  {
    if k > 0 {
      assert SameText(t[1..], u[1..]);
      SameTextDrops(t[1..], u[1..], k - 1);
      assert t[1..][k - 1..] == t[k..] && u[1..][k - 1..] == u[k..];
      forall i | 0 <= i < k ensures Lower(t[i]) == Lower(u[i]) {
        if i > 0 { assert t[i] == t[1..][i - 1] && u[i] == u[1..][i - 1]; }
      }
    }
  }

  lemma {:induction false} SameTextLength(t: string, u: string)
    requires SameText(t, u)
    ensures |t| <= |u|
    decreases |u|
  {
    if u != "" {
      if t != "" && Lower(t[0]) == Lower(u[0]) && SameText(t[1..], u[1..]) {
        SameTextLength(t[1..], u[1..]);
      } else {
        SameTextLength(t[1..], u[4..]);
      }
    }
  }

  lemma {:induction false} SameTextTransitive(s: string, t: string, u: string)
    requires SameText(s, t) && SameText(t, u)
    ensures SameText(s, u)
    decreases |t|
  {
    if t == "" {
      assert u == "";
    } else if s != "" && Lower(s[0]) == Lower(t[0]) && SameText(s[1..], t[1..]) {
      if Lower(t[0]) == Lower(u[0]) && SameText(t[1..], u[1..]) {
        SameTextTransitive(s[1..], t[1..], u[1..]);
      } else {
        SameTextTransitive(s[1..], t[1..], u[4..]);
      }
    } else {
      EntityCarriesOver(t, u);
      SameTextTransitive(s[1..], t[4..], u[4..]);
    }
  }

  lemma EntityCarriesOver(t: string, u: string)
    requires At(t, "&lt;", 0) && SameText(t, u)
    ensures At(u, "&lt;", 0) && SameText(t[4..], u[4..])
  {
    var e := "&lt;";
    SameTextLength(t, u);
    forall i | 0 <= i < 4 ensures t[i] != '<' && Lower(t[i]) == Lower(e[i]) {
      assert Lower(t[..4][i]) == Lower(e[i]);
    }
    SameTextDrops(t, u, 4);
    assert forall i | 0 <= i < 4 :: Lower(u[..4][i]) == Lower(e[i]);
  }

  /** Escaping keeps the text: read entities as brackets and ignore case, and it
      is the text that went in. */
  lemma EscapedIsSameText(tag: string, s: string)
    requires TagName(tag)
    ensures SameText(s, EscapeTag(tag, s))
  {
    var first := ReplaceFold(s, Close(tag), "&lt;/" + tag);
    assert Close(tag) == "<" + ("/" + tag) && "&lt;/" + tag == "&lt;" + ("/" + tag);
    ReplacedIsSameText(s, "/" + tag);
    ReplacedIsSameText(first, tag);
    SameTextTransitive(s, first, EscapeTag(tag, s));
  }

  // ----- The fence -----

  /** An occurrence covers no newline. */
  lemma NoNewlineInside(s: string, pat: string, p: nat, k: nat)
    requires Marker(pat) && At(s, pat, p) && p <= k < p + |pat|
    ensures s[k] != '\n'
  {
    assert Lower(s[p..p + |pat|][k - p]) == Lower(pat[k - p]);
  }

  lemma AtMiddle(head: string, body: string, tail: string, pat: string, q: nat)
    requires q + |pat| <= |body|
    ensures At(head + body + tail, pat, |head| + q) <==> At(body, pat, q)
  {
    assert (head + body + tail)[|head| + q..|head| + q + |pat|] == body[q..q + |pat|];
  }

  /** Between two newlines, no occurrence reaches into the middle. */
  lemma OutsideTheBody(head: string, body: string, tail: string, pat: string, p: nat)
    requires Marker(pat) && head != "" && head[|head| - 1] == '\n' && tail != "" && tail[0] == '\n'
    requires At(head + body + tail, pat, p) && Absent(body, pat)
    ensures p < |head| - 1 || p >= |head| + |body| + 1
  {
    var s := head + body + tail;
    if |head| - 1 <= p < |head| + |body| + 1 {
      if p == |head| - 1 {
        NoNewlineInside(s, pat, p, p);
      } else if p + |pat| > |head| + |body| {
        NoNewlineInside(s, pat, p, |head| + |body|);
      } else {
        AtMiddle(head, body, tail, pat, p - |head|);
      }
    }
  }

  lemma StartsWithBracket(s: string, pat: string, p: nat)
    requires Marker(pat) && At(s, pat, p)
    ensures p < |s| && s[p] == '<'
    ensures |pat| > 1 ==> p + 1 < |s| && Lower(s[p + 1]) == Lower(pat[1])
  {
    assert Lower(s[p..p + |pat|][0]) == Lower(pat[0]);
    if |pat| > 1 { assert Lower(s[p..p + |pat|][1]) == Lower(pat[1]); }
  }

  function Head(tag: string): string { "<" + tag + ">\n" }

  function Tail(tag: string): string { "\n</" + tag + ">\n" }

  /** A marker in a fence is at its start or at its end. */
  lemma MarkersAtTheEnds(tag: string, body: string, pat: string, p: nat)
    requires TagName(tag) && Marker(pat) && Absent(body, pat)
    requires At(Head(tag) + body + Tail(tag), pat, p)
    ensures p == 0 || p == |tag| + 3 + |body| + 1
  {
    OutsideTheBody(Head(tag), body, Tail(tag), pat, p);
    StartsWithBracket(Head(tag) + body + Tail(tag), pat, p);
  }

  /** The two ends of a fence read as its markers, and differ at once. */
  lemma FenceEnds(tag: string, mid: string)
    requires TagName(tag)
    ensures var f, end := Head(tag) + mid + Tail(tag), |tag| + 3 + |mid| + 1;
      && At(f, Open(tag), 0) && At(f, Close(tag), end)
      && f[1] == tag[0] && f[end + 1] == '/'
  {
    var f, end := Head(tag) + mid + Tail(tag), |tag| + 3 + |mid| + 1;
    assert f[..|tag| + 1] == Open(tag);
    assert f[end..end + |tag| + 2] == Close(tag);
  }

  lemma FenceOpensOnce(tag: string, body: string, p: nat)
    requires TagName(tag)
    ensures At(Fence(tag, body), Open(tag), p) <==> p == 0
  {
    var mid, f := EscapeTag(tag, body), Fence(tag, body);
    EscapedHoldsNoMarker(tag, body);
    assert f == Head(tag) + mid + Tail(tag);
    FenceEnds(tag, mid);
    if At(f, Open(tag), p) {
      MarkersAtTheEnds(tag, mid, Open(tag), p);
      StartsWithBracket(f, Open(tag), p);
    }
  }

  lemma FenceClosesOnce(tag: string, body: string, p: nat)
    requires TagName(tag)
    ensures At(Fence(tag, body), Close(tag), p) <==> p == |Fence(tag, body)| - |tag| - 4
  {
    var mid, f := EscapeTag(tag, body), Fence(tag, body);
    EscapedHoldsNoMarker(tag, body);
    assert f == Head(tag) + mid + Tail(tag);
    FenceEnds(tag, mid);
    if At(f, Close(tag), p) {
      MarkersAtTheEnds(tag, mid, Close(tag), p);
      StartsWithBracket(f, Close(tag), p);
    }
  }

  /** Between its two markers a fence holds the whole text, escaped and nothing more. */
  lemma FenceHoldsTheText(tag: string, body: string)
    requires TagName(tag)
    ensures exists mid ::
      && Fence(tag, body) == "<" + tag + ">\n" + mid + "\n</" + tag + ">\n"
      && SameText(body, mid) && Absent(mid, Open(tag)) && Absent(mid, Close(tag))
  {
    EscapedHoldsNoMarker(tag, body);
    EscapedIsSameText(tag, body);
    assert Fence(tag, body) == "<" + tag + ">\n" + EscapeTag(tag, body) + "\n</" + tag + ">\n";
  }
}
