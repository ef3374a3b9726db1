/** What a shrunk request is, said without the loops: which texts are cut, at which cap, and which turns go. */
module ShrinkExact {
  import opened Transcript
  import opened Compaction
  import opened Shrink
  import Seqs

  // ---- one text --------------------------------------------------------------------

  predicate Digits(s: string) {
    forall i :: 0 <= i < |s| ==> '0' <= s[i] <= '9'
  }

  /** The number that a row of digits writes. */
  function Number(s: string): nat
    requires Digits(s)
  {
    if s == [] then 0 else 10 * Number(s[..|s| - 1]) + (s[|s| - 1] as int - '0' as int)
  }

  lemma {:induction false} DecimalReads(n: nat)
    ensures var d := Decimal(n); Digits(d) && Number(d) == n && (n > 0 ==> d[0] != '0') && (n == 0 ==> d == "0")
  {
    var digit := ('0' as int + n % 10) as char;
    if n < 10 {
      assert [digit][..0] == [];
    } else {
      DecimalReads(n / 10);
      Seqs.Snoc(Decimal(n / 10), digit);
    }
  }

  /** The note names the number of characters it stands for. */
  ghost predicate Notes(note: string, n: nat) {
    exists d :: Digits(d) && d != [] && Number(d) == n && (n > 0 ==> d[0] != '0')
      && note == "\n[... " + d + " characters elided by context compaction ...]\n"
  }

  /** `r` is `m` cut at `cap`: a longer plain text comes out as its two ends with a note between, anything else as it was. */
  ghost predicate CutAt(m: Message, r: Message, cap: nat) {
    if m.plain && |m.text| > cap then
      var half := cap / 2;
      && r == m.(text := r.text) && |r.text| >= 2 * half
      && r.text[..half] == m.text[..half]
      && r.text[|r.text| - half..] == m.text[|m.text| - half..]
      && Notes(r.text[half..|r.text| - half], |m.text| - cap)
    else r == m
  }

  /** Eliding is that cut. */
  lemma {:induction false} ElideCuts(m: Message, cap: nat)
    ensures CutAt(m, Elide(m, cap), cap)
  {
    if m.plain && |m.text| > cap {
      var half, n := cap / 2, |m.text| - cap;
      NoteReads(n);
      Ends(m.text[..half], ElisionNote(n), m.text[|m.text| - half..], half);
    }
  }

  lemma {:induction false} NoteReads(n: nat)
    ensures Notes(ElisionNote(n), n)
  {
    DecimalReads(n);
  }

  lemma {:induction false} Ends(a: string, b: string, c: string, half: nat)
    requires |a| == |c| == half
    ensures var r := a + b + c;
            |r| >= 2 * half && r[..half] == a && r[|r| - half..] == c && r[half..|r| - half] == b
  {
  }

  lemma {:induction false} SameNumber(a: string, b: string)
    requires Digits(a) && Digits(b) && a != [] && b != [] && Number(a) == Number(b)
    requires Number(a) > 0 ==> a[0] != '0' && b[0] != '0'
    requires Number(a) > 0
    ensures a == b
  {
    var i, j := a[..|a| - 1], b[..|b| - 1];
    assert Number(a) == 10 * Number(i) + (a[|a| - 1] as int - '0' as int);
    assert Number(b) == 10 * Number(j) + (b[|b| - 1] as int - '0' as int);
    assert Number(i) == Number(j) && a[|a| - 1] == b[|b| - 1];
    if Number(i) == 0 {
      ZeroIsEmpty(i);
      ZeroIsEmpty(j);
    } else {
      assert i != [] && j != [];
      SameNumber(i, j);
    }
    Seqs.LastApart(a, i, a[|a| - 1]);
    Seqs.LastApart(b, j, b[|b| - 1]);
  }

  lemma {:induction false} ZeroIsEmpty(s: string)
    requires Digits(s) && Number(s) == 0 && (s != [] ==> s[0] != '0')
    ensures s == []
  {
    if |s| > 1 {
      ZeroIsEmpty(s[..|s| - 1]);
    }
  }

  /** A cut leaves one message. */
  lemma {:induction false} OneCut(m: Message, a: Message, b: Message, cap: nat)
    requires CutAt(m, a, cap) && CutAt(m, b, cap)
    ensures a == b
  {
    if m.plain && |m.text| > cap {
      var half, n := cap / 2, |m.text| - cap;
      OneNote(a.text[half..|a.text| - half], b.text[half..|b.text| - half], n);
      ThreeParts(a.text, half);
      ThreeParts(b.text, half);
    }
  }

  lemma {:induction false} ThreeParts(s: string, half: nat)
    requires 2 * half <= |s|
    ensures s == s[..half] + s[half..|s| - half] + s[|s| - half..]
  {
  }

  lemma {:induction false} OneNote(a: string, b: string, n: nat)
    requires n > 0 && Notes(a, n) && Notes(b, n)
    ensures a == b
  {
    var d :| Digits(d) && d != [] && Number(d) == n && (n > 0 ==> d[0] != '0')
      && a == "\n[... " + d + " characters elided by context compaction ...]\n";
    var e :| Digits(e) && e != [] && Number(e) == n && (n > 0 ==> e[0] != '0')
      && b == "\n[... " + e + " characters elided by context compaction ...]\n";
    SameNumber(d, e);
  }

  // ---- one pass --------------------------------------------------------------------

  /**
    A pass over `out` ends at `stop`: the messages before it are cut at `cap` and the rest is as it was; it
    ends where the whole fits, or behind the last message; and at every message it cut, the whole did not
    fit yet.
   */
  ghost predicate PassEnds(out: seq<Message>, r: seq<Message>, from: nat, stop: nat, cap: nat, budget: int) {
    && |r| == |out| && from <= stop && (stop <= |out| || stop == from)
    && (forall j :: 0 <= j < |out| ==> if from <= j < stop then CutAt(out[j], r[j], cap) else r[j] == out[j])
    && (stop < |out| ==> MessagesChars(r) <= budget)
    && (forall i :: from <= i < stop ==> MessagesChars(r[..i] + out[i..]) > budget)
  }

  lemma {:induction false} PassIs(out: seq<Message>, i: nat, cap: nat, budget: int) returns (stop: nat)
    ensures PassEnds(out, ElidePass(out, i, cap, budget), i, stop, cap, budget)
    decreases |out| - i
  {
    if i >= |out| || MessagesChars(out) <= budget {
      stop := i;
    } else {
      var next := out[i := Elide(out[i], cap)];
      stop := PassIs(next, i + 1, cap, budget);
      ElideCuts(out[i], cap);
      PassMore(out, next, ElidePass(out, i, cap, budget), i, stop, cap, budget);
    }
  }

  /** A message that is cut because the whole does not fit, and the pass after it. */
  lemma {:induction false} PassMore(out: seq<Message>, next: seq<Message>, r: seq<Message>, i: nat, stop: nat, cap: nat, budget: int)
    requires i < |out| && MessagesChars(out) > budget
    requires |next| == |out| && CutAt(out[i], next[i], cap) && next == out[i := next[i]]
    requires PassEnds(next, r, i + 1, stop, cap, budget)
    ensures PassEnds(out, r, i, stop, cap, budget)
  {
    forall k | i <= k < stop ensures MessagesChars(r[..k] + out[k..]) > budget {
      SameFront(out, next, r, i, k);
    }
  }

  lemma {:induction false} SameFront(out: seq<Message>, next: seq<Message>, r: seq<Message>, i: nat, k: nat)
    requires i <= k <= |out| == |next| == |r| && i < |out| && next == out[i := next[i]]
    requires forall j :: 0 <= j < i ==> r[j] == next[j]
    ensures r[..k] + out[k..] == if k == i then out else r[..k] + next[k..]
  {
  }

  /** Those promises leave one result. */
  lemma {:induction false} OnePass(out: seq<Message>, r: seq<Message>, s: nat, r': seq<Message>, s': nat, from: nat, cap: nat, budget: int)
    requires PassEnds(out, r, from, s, cap, budget) && PassEnds(out, r', from, s', cap, budget) && s <= s'
    ensures r == r'
  {
    forall j | 0 <= j < |out| && (j < s || j >= s') ensures r[j] == r'[j] {
      if from <= j < s {
        OneCut(out[j], r[j], r'[j], cap);
      }
    }
    if s < s' {
      Mixed(out, r, r', s);
    }
  }

  lemma {:induction false} Mixed(out: seq<Message>, r: seq<Message>, r': seq<Message>, s: nat)
    requires |r| == |out| == |r'| && s <= |out|
    requires (forall j :: 0 <= j < s ==> r[j] == r'[j]) && forall j :: s <= j < |out| ==> r[j] == out[j]
    ensures r == r'[..s] + out[s..]
  {
  }

  // ---- the three passes ------------------------------------------------------------

  /** What the elision leaves: a pass at 8000, one at 2000, one at 400. */
  ghost predicate ElidesTo(ms: seq<Message>, e: seq<Message>, protect: nat, budget: int) {
    exists a, b, i, j, k ::
      && PassEnds(ms, a, protect, i, 8000, budget) && PassEnds(a, b, protect, j, 2000, budget)
      && PassEnds(b, e, protect, k, 400, budget)
  }

  lemma {:induction false} ElidedIs(ms: seq<Message>, protect: nat, budget: int)
    ensures ElidesTo(ms, Elided(ms, protect, budget), protect, budget)
  {
    var a := ElidePass(ms, protect, 8000, budget);
    var b := ElidePass(a, protect, 2000, budget);
    var i := PassIs(ms, protect, 8000, budget);
    var j := PassIs(a, protect, 2000, budget);
    var k := PassIs(b, protect, 400, budget);
  }

  lemma {:induction false} OneElision(ms: seq<Message>, e: seq<Message>, e': seq<Message>, protect: nat, budget: int)
    requires ElidesTo(ms, e, protect, budget) && ElidesTo(ms, e', protect, budget)
    ensures e == e'
  {
    var a, b, i, j, k :| PassEnds(ms, a, protect, i, 8000, budget) && PassEnds(a, b, protect, j, 2000, budget)
      && PassEnds(b, e, protect, k, 400, budget);
    var a', b', i', j', k' :| PassEnds(ms, a', protect, i', 8000, budget) && PassEnds(a', b', protect, j', 2000, budget)
      && PassEnds(b', e', protect, k', 400, budget);
    SamePass(ms, a, i, a', i', protect, 8000, budget);
    SamePass(a, b, j, b', j', protect, 2000, budget);
    SamePass(b, e, k, e', k', protect, 400, budget);
  }

  lemma {:induction false} SamePass(out: seq<Message>, r: seq<Message>, s: nat, r': seq<Message>, s': nat, from: nat, cap: nat, budget: int)
    requires PassEnds(out, r, from, s, cap, budget) && PassEnds(out, r', from, s', cap, budget)
    ensures r == r'
  {
    if s <= s' {
      OnePass(out, r, s, r', s', from, cap, budget);
    } else {
      OnePass(out, r', s', r, s, from, cap, budget);
    }
  }

  /** A text that went through the last cap: at most 400 characters, or 200 at each end of a note. */
  ghost predicate CutDown(m: Message, e: Message) {
    && e == m.(text := e.text)
    && (m.plain && |e.text| > 400 ==>
          && |m.text| > 400 && e.text[..200] == m.text[..200] && e.text[|e.text| - 200..] == m.text[|m.text| - 200..]
          && IsNote(e.text[200..|e.text| - 200]))
  }

  ghost predicate IsNote(s: string) {
    exists n: nat :: Notes(s, n)
  }

  /** Texts go first: while the whole does not fit after the elision, every text past the protected part is cut down. */
  lemma {:induction false} TextsGoFirst(ms: seq<Message>, protect: nat, budget: int)
    requires protect <= |ms| && MessagesChars(Elided(ms, protect, budget)) > budget
    ensures forall j :: protect <= j < |ms| ==> CutDown(ms[j], Elided(ms, protect, budget)[j])
  {
    var e := Elided(ms, protect, budget);
    var b := ElidePass(ElidePass(ms, protect, 8000, budget), protect, 2000, budget);
    var k := PassIs(b, protect, 400, budget);
    ElidedKeepsRoles(ms, protect, budget);
    forall j | protect <= j < |ms| ensures CutDown(ms[j], e[j]) {
      assert Trimmed(ms[j], e[protect + j - protect]);
      assert CutAt(b[j], e[j], 400);
      LastCut(ms[j], b[j], e[j]);
    }
  }

  lemma {:induction false} LastCut(m: Message, b: Message, e: Message)
    requires Trimmed(m, e) && CutAt(b, e, 400)
    ensures CutDown(m, e)
  {
    if b.plain && |b.text| > 400 {
      HasNote(b, e);
    }
  }

  lemma {:induction false} HasNote(b: Message, e: Message)
    requires CutAt(b, e, 400) && b.plain && |b.text| > 400
    ensures |e.text| >= 400 && IsNote(e.text[200..|e.text| - 200])
  {
    NoteIs(e.text[200..|e.text| - 200], |b.text| - 400);
  }

  lemma {:induction false} NoteIs(s: string, n: nat)
    requires Notes(s, n)
    ensures IsNote(s)
  {
  }

  // ---- the turns that go -----------------------------------------------------------

  /** A turn may begin here: at the protected part, or at any message behind it that is not a result. */
  predicate Begins(e: seq<Message>, protect: nat, b: nat) {
    b == protect || (protect < b < |e| && !e[b].role.Tool?)
  }

  /** `e` with its messages from the protected part up to `k` gone. */
  function Gone(e: seq<Message>, protect: nat, k: nat): seq<Message>
    requires protect <= k <= |e|
  {
    e[..protect] + e[k..]
  }

  /**
    Dropping ends at `k`: the whole fits from there or only two messages are left; from every turn before it
    the whole does not fit and more are left; and a turn begins there, or its last message is a lone result.
   */
  ghost predicate DropEndsAt(e: seq<Message>, protect: nat, k: nat, budget: int) {
    && protect <= k <= |e|
    && (MessagesChars(Gone(e, protect, k)) <= budget || |e| - k <= 2)
    && (forall b :: protect <= b < k && Begins(e, protect, b) ==> MessagesChars(Gone(e, protect, b)) > budget && |e| - b > 2)
    && (Begins(e, protect, k) || k == |e| - 1)
  }

  lemma {:induction false} DropIs(e: seq<Message>, protect: nat, budget: int) returns (k: nat)
    requires protect <= |e|
    ensures DropEndsAt(e, protect, k, budget) && DropOldest(e, protect, budget) == Gone(e, protect, k)
    decreases |e|
  {
    if !Drops(e, protect, budget) {
      k := protect;
      NothingDropped(e, protect, budget);
    } else {
      var q := NextTurn(e, protect);
      DropTurnTo(e, protect, q);
      DropStep(e, protect, budget);
      var k' := DropIs(DropTurn(e, protect), protect, budget);
      Shifted(e, protect, q, k', budget);
      k := k' - protect + q;
    }
  }

  lemma {:induction false} DropStep(e: seq<Message>, protect: nat, budget: int)
    requires Drops(e, protect, budget)
    ensures DropOldest(e, protect, budget) == DropOldest(DropTurn(e, protect), protect, budget) && |DropTurn(e, protect)| < |e|
  {
  }

  lemma {:induction false} NothingDropped(e: seq<Message>, protect: nat, budget: int)
    requires protect <= |e| && !Drops(e, protect, budget)
    ensures DropEndsAt(e, protect, protect, budget) && DropOldest(e, protect, budget) == Gone(e, protect, protect)
  {
    Seqs.Cut(e, protect);
  }

  /** Where the turn behind the first one begins, or the last message when there is none. */
  lemma {:induction false} NextTurn(e: seq<Message>, protect: nat) returns (q: nat)
    requires protect + 1 < |e|
    ensures protect < q < |e| && (forall j :: protect < j < q ==> e[j].role.Tool?) && (e[q].role.Tool? ==> q == |e| - 1)
  {
    q := SkipTools(e, protect + 1);
    SkipToolsSkips(e, protect + 1);
    if q == |e| {
      q := |e| - 1;
    }
  }

  lemma {:induction false} Shifted(e: seq<Message>, protect: nat, q: nat, k': nat, budget: int)
    requires protect < q < |e| && Drops(e, protect, budget) && (forall j :: protect < j < q ==> e[j].role.Tool?)
    requires e[q].role.Tool? ==> q == |e| - 1
    requires DropEndsAt(Gone(e, protect, q), protect, k', budget)
    ensures DropEndsAt(e, protect, k' - protect + q, budget)
    ensures Gone(Gone(e, protect, q), protect, k') == Gone(e, protect, k' - protect + q)
  {
    var next, k := Gone(e, protect, q), k' - protect + q;
    GoneTwice(e, protect, q, k');
    Seqs.Cut(e, protect);
    forall b | protect <= b < k && Begins(e, protect, b) ensures MessagesChars(Gone(e, protect, b)) > budget && |e| - b > 2 {
      if b > protect {
        assert b >= q;
        var b' := b - q + protect;
        assert Begins(next, protect, b') by { assert b > q ==> next[b'] == e[b]; }
        GoneTwice(e, protect, q, b');
      }
    }
    assert Begins(next, protect, k') && k' > protect ==> next[k'] == e[k];
  }

  lemma {:induction false} GoneTwice(e: seq<Message>, protect: nat, q: nat, k': nat)
    requires protect <= q <= |e| && protect <= k' <= protect + |e| - q
    ensures var next := Gone(e, protect, q);
            |next| == protect + |e| - q && Gone(next, protect, k') == Gone(e, protect, k' - protect + q)
    ensures forall j :: q <= j < |e| ==> Gone(e, protect, q)[j - q + protect] == e[j]
  {
  }

  lemma {:induction false} OneDrop(e: seq<Message>, protect: nat, k: nat, k': nat, budget: int)
    requires DropEndsAt(e, protect, k, budget) && DropEndsAt(e, protect, k', budget)
    ensures k == k'
  {
  }

  // ---- the whole -------------------------------------------------------------------

  /**
    What a request shrinks to: texts are cut in three passes, each oldest first and only while the whole
    does not fit; then the oldest turns go, and only once every text past the protected part is cut down.
   */
  ghost predicate ShrinksTo(ms: seq<Message>, out: seq<Message>, protect: nat, budget: int) {
    exists e, k :: ElidesTo(ms, e, protect, budget) && DropEndsAt(e, protect, k, budget) && out == Gone(e, protect, k)
  }

  /** Exactly: that is the one request a request shrinks to. */
  lemma {:induction false} ShrinkIs(ms: seq<Message>, protect: nat, budget: int, out: seq<Message>)
    requires protect <= |ms|
    ensures out == Shrunk(ms, protect, budget) <==> ShrinksTo(ms, out, protect, budget)
    ensures MessagesChars(ms) > budget && |Shrunk(ms, protect, budget)| < |ms| ==>
              forall j :: protect <= j < |ms| ==> CutDown(ms[j], Elided(ms, protect, budget)[j])
  {
    var e := Elided(ms, protect, budget);
    ElidedIs(ms, protect, budget);
    var k := DropIs(e, protect, budget);
    if ShrinksTo(ms, out, protect, budget) {
      var e', k' :| ElidesTo(ms, e', protect, budget) && DropEndsAt(e', protect, k', budget) && out == Gone(e', protect, k');
      OneElision(ms, e, e', protect, budget);
      OneDrop(e, protect, k, k', budget);
    }
    if |Shrunk(ms, protect, budget)| < |ms| {
      TextsGoFirst(ms, protect, budget);
    }
  }
}
