/** Resuming a compacted session: what dropping task copies does to the head and the tail a summary counted. */
module ResumedFrame {
  import opened Transcript
  import opened ContextView
  import opened ViewPairing
  import opened Resume
  import Seqs

  // ---- which copies go -------------------------------------------------------------

  /** No message in `[a, b)` is an unanswered copy. */
  predicate NoneDoomed(ms: seq<Message>, wanted: set<string>, a: nat, b: nat)
    requires b <= |ms|
    decreases b
  {
    b <= a || (!Doomed(ms, wanted, b - 1) && NoneDoomed(ms, wanted, a, b - 1))
  }

  lemma {:induction false} NoneDoomedMeans(ms: seq<Message>, wanted: set<string>, a: nat, b: nat)
    requires b <= |ms|
    ensures NoneDoomed(ms, wanted, a, b) <==> forall i :: a <= i < b ==> !Doomed(ms, wanted, i)
    decreases b
  {
    if a < b {
      NoneDoomedMeans(ms, wanted, a, b - 1);
    }
  }

  lemma {:induction false} AnswersConcat(a: seq<Message>, b: seq<Message>)
    ensures Answers(a + b) <==> Answers(a) || Answers(b)
  {
    if Answers(a) {
      var i :| 0 <= i < |a| && (a[i].role.Exit? || IsSubmission(a[i]));
      assert (a + b)[i] == a[i];
    }
    if Answers(b) {
      var i :| 0 <= i < |b| && (b[i].role.Exit? || IsSubmission(b[i]));
      assert (a + b)[|a| + i] == b[i];
    }
  }

  /** An answer in `b` saves every copy in `a`; without one the two parts collapse apart. */
  lemma {:induction false} CollapseConcat(a: seq<Message>, b: seq<Message>, wanted: set<string>)
    ensures Collapsed(a + b, wanted) == (if Answers(b) then a else Collapsed(a, wanted)) + Collapsed(b, wanted)
  {
    if a == [] {
      Seqs.Empty(b);
      Seqs.Empty(Collapsed(b, wanted));
    } else {
      var kept := if Answers(b) then a[1..] else Collapsed(a[1..], wanted);
      Seqs.Tail(a, b);
      CollapseConcat(a[1..], b, wanted);
      AnswersConcat(a[1..], b);
      Seqs.Assoc(First(a + b, wanted), kept, Collapsed(b, wanted));
      Seqs.Uncons(a);
    }
  }

  /** What is left of the first message. */
  function First(ms: seq<Message>, wanted: set<string>): seq<Message>
    requires ms != []
  {
    if IsCopy(ms[0], wanted) && !Answers(ms[1..]) then [] else [ms[0]]
  }

  lemma {:induction false} DoomedIn(a: seq<Message>, b: seq<Message>, wanted: set<string>, i: nat)
    requires i < |a|
    ensures Doomed(a + b, wanted, i) <==> !Answers(b) && Doomed(a, wanted, i)
  {
    assert (a + b)[i + 1..] == a[i + 1..] + b;
    AnswersConcat(a[i + 1..], b);
  }

  lemma {:induction false} NoneDoomedIn(a: seq<Message>, b: seq<Message>, wanted: set<string>, from: nat, to: nat)
    requires to <= |a|
    ensures NoneDoomed(a + b, wanted, from, to) <==> Answers(b) || NoneDoomed(a, wanted, from, to)
  {
    if from < to {
      DoomedIn(a, b, wanted, to - 1);
      NoneDoomedIn(a, b, wanted, from, to - 1);
    }
  }

  /** Where nothing answers, no copy is left. */
  lemma {:induction false} NoCopyLeft(ms: seq<Message>, wanted: set<string>)
    requires !Answers(ms)
    ensures forall i :: 0 <= i < |Collapsed(ms, wanted)| ==> !IsCopy(Collapsed(ms, wanted)[i], wanted)
  {
    if ms != [] {
      Seqs.Uncons(ms);
      AnswersCons(ms[0], ms[1..]);
      NoCopyLeft(ms[1..], wanted);
    }
  }

  /** `c` begins with the first `n` messages of `ms`. */
  predicate BeginsAlike(c: seq<Message>, ms: seq<Message>, n: nat) {
    n <= |ms| && n <= |c| && c[..n] == ms[..n]
  }

  /** A prefix survives word for word exactly when nothing in it is dropped. */
  lemma {:induction false} PrefixKeptIff(ms: seq<Message>, wanted: set<string>, n: nat)
    requires n <= |ms|
    ensures BeginsAlike(Collapsed(ms, wanted), ms, n) <==> NoneDoomed(ms, wanted, 0, n)
    decreases n
  {
    if n > 0 {
      NoneDoomedCons(ms, wanted, n);
      AlikeCons(ms, wanted, n);
      PrefixKeptIff(ms[1..], wanted, n - 1);
    }
  }

  lemma {:induction false} AlikeCons(ms: seq<Message>, wanted: set<string>, n: nat)
    requires 0 < n <= |ms|
    ensures BeginsAlike(Collapsed(ms, wanted), ms, n) <==>
              First(ms, wanted) != [] && BeginsAlike(Collapsed(ms[1..], wanted), ms[1..], n - 1)
  {
    if First(ms, wanted) == [] {
      DoomedFirst(ms, wanted, n);
    } else {
      KeptFirstOf(ms, wanted);
      SameFirst(ms[0], Collapsed(ms[1..], wanted), ms, n);
    }
  }

  lemma {:induction false} KeptFirstOf(ms: seq<Message>, wanted: set<string>)
    requires ms != [] && First(ms, wanted) != []
    ensures Collapsed(ms, wanted) == [ms[0]] + Collapsed(ms[1..], wanted)
  {
  }

  lemma {:induction false} DoomedFirst(ms: seq<Message>, wanted: set<string>, n: nat)
    requires 0 < n <= |ms| && First(ms, wanted) == []
    ensures !BeginsAlike(Collapsed(ms, wanted), ms, n)
  {
    NoCopyLeft(ms[1..], wanted);
    Seqs.Empty(Collapsed(ms[1..], wanted));
    FirstDiffers(Collapsed(ms[1..], wanted), ms, n, wanted);
  }

  lemma {:induction false} NoneDoomedCons(ms: seq<Message>, wanted: set<string>, n: nat)
    requires 0 < n <= |ms|
    ensures NoneDoomed(ms, wanted, 0, n) <==> First(ms, wanted) != [] && NoneDoomed(ms[1..], wanted, 0, n - 1)
  {
    if n == 1 {
      assert Doomed(ms, wanted, 0) <==> First(ms, wanted) == [];
    } else {
      DoomedCons(ms, wanted, n - 2);
      NoneDoomedCons(ms, wanted, n - 1);
    }
  }

  lemma {:induction false} DoomedCons(ms: seq<Message>, wanted: set<string>, i: nat)
    requires i + 1 < |ms|
    ensures Doomed(ms, wanted, i + 1) <==> Doomed(ms[1..], wanted, i)
  {
    assert ms[1..][i + 1..] == ms[i + 1 + 1..];
  }

  lemma {:induction false} FirstDiffers(c: seq<Message>, ms: seq<Message>, n: nat, wanted: set<string>)
    requires 0 < n <= |ms| && IsCopy(ms[0], wanted) && forall i :: 0 <= i < |c| ==> !IsCopy(c[i], wanted)
    ensures !BeginsAlike(c, ms, n)
  {
    if n <= |c| {
      assert c[..n][0] == c[0] && ms[..n][0] == ms[0];
    }
  }

  lemma {:induction false} SameFirst(m: Message, rest: seq<Message>, ms: seq<Message>, n: nat)
    requires 0 < n <= |ms| && ms[0] == m
    ensures BeginsAlike([m] + rest, ms, n) <==> BeginsAlike(rest, ms[1..], n - 1)
  {
    var c := [m] + rest;
    if n <= |c| {
      assert c[..n] == [m] + rest[..n - 1];
      assert ms[..n] == [m] + ms[1..][..n - 1];
      assert ([m] + rest[..n - 1])[1..] == rest[..n - 1];
      assert ([m] + ms[1..][..n - 1])[1..] == ms[1..][..n - 1];
    }
  }

  // ---- the last messages -----------------------------------------------------------

  /** `c` ends on the last `n` messages of `ms`. */
  predicate EndsAlike(c: seq<Message>, ms: seq<Message>, n: nat)
    decreases n
  {
    n == 0 || (c != [] && ms != [] && c[|c| - 1] == ms[|ms| - 1] && EndsAlike(c[..|c| - 1], ms[..|ms| - 1], n - 1))
  }

  lemma {:induction false} EndsAlikeMeans(c: seq<Message>, ms: seq<Message>, n: nat)
    ensures EndsAlike(c, ms, n) <==> n <= |c| && n <= |ms| && c[|c| - n..] == ms[|ms| - n..]
    decreases n
  {
    if n > 0 && c != [] && ms != [] {
      EndsAlikeMeans(c[..|c| - 1], ms[..|ms| - 1], n - 1);
      if n <= |c| && n <= |ms| {
        Seqs.Slice(c, |c| - n);
        Seqs.Slice(ms, |ms| - n);
      }
    }
  }

  lemma {:induction false} EndsAlikeSnoc(c: seq<Message>, ms: seq<Message>, x: Message, n: nat)
    ensures EndsAlike(c + [x], ms + [x], n + 1) <==> EndsAlike(c, ms, n)
  {
    Seqs.Snoc(c, x);
    Seqs.Snoc(ms, x);
  }

  lemma {:induction false} EndsAlikeSelf(ms: seq<Message>, n: nat)
    requires n <= |ms|
    ensures EndsAlike(ms, ms, n)
  {
    EndsAlikeMeans(ms, ms, n);
  }

  /** What is left never ends on a copy. */
  lemma {:induction false} LastIsNoCopy(ms: seq<Message>, wanted: set<string>)
    ensures var c := Collapsed(ms, wanted); c != [] ==> !IsCopy(c[|c| - 1], wanted)
    decreases |ms|
  {
    if ms != [] {
      var e, x := ms[..|ms| - 1], ms[|ms| - 1];
      assert ms == e + [x];
      CollapseSnoc(e, x, wanted);
      LastIsNoCopy(e, wanted);
    }
  }

  lemma {:induction false} CollapseSnoc(e: seq<Message>, x: Message, wanted: set<string>)
    ensures Answers([x]) <==> x.role.Exit? || IsSubmission(x)
    ensures Collapsed(e + [x], wanted) ==
              if IsCopy(x, wanted) then Collapsed(e, wanted)
              else if Answers([x]) then e + [x]
              else Collapsed(e, wanted) + [x]
  {
    CollapseConcat(e, [x], wanted);
    assert [x][1..] == [] && !Answers([x][1..]);
    assert Answers([x]) ==> [x][0].role.Exit? || IsSubmission([x][0]);
    assert x.role.Exit? || IsSubmission(x) ==> [x][0].role.Exit? || IsSubmission([x][0]);
    Seqs.Empty([x]);
    Seqs.Empty(Collapsed(e, wanted));
  }

  lemma {:induction false} NoneDoomedSnoc(e: seq<Message>, x: Message, wanted: set<string>, from: nat)
    requires from <= |e|
    ensures NoneDoomed(e + [x], wanted, from, |e| + 1) <==>
              !IsCopy(x, wanted) && (Answers([x]) || NoneDoomed(e, wanted, from, |e|))
  {
    NoneDoomedIn(e, [x], wanted, from, |e|);
    assert (e + [x])[|e| + 1..] == [];
    assert Doomed(e + [x], wanted, |e|) <==> IsCopy(x, wanted);
  }

  /** The messages from `from` on survive in place exactly when none of them is dropped. */
  lemma {:induction false} SuffixKeptIff(ms: seq<Message>, wanted: set<string>, from: nat, n: nat)
    requires n + from == |ms|
    ensures SuffixIff(ms, wanted, from, n)
    decreases n
  {
    if n > 0 {
      var e, x := ms[..|ms| - 1], ms[|ms| - 1];
      SuffixKeptIff(e, wanted, from, n - 1);
      SuffixKeptStep(e, x, wanted, from, n - 1);
      Seqs.LastApart(ms, e, x);
    }
  }

  predicate SuffixIff(ms: seq<Message>, wanted: set<string>, from: nat, n: nat) {
    EndsAlike(Collapsed(ms, wanted), ms, n) <==> NoneDoomed(ms, wanted, from, |ms|)
  }

  lemma {:induction false} SuffixKeptStep(e: seq<Message>, x: Message, wanted: set<string>, from: nat, n: nat)
    requires n + from == |e| && SuffixIff(e, wanted, from, n)
    ensures SuffixIff(e + [x], wanted, from, n + 1)
  {
    NoneDoomedSnoc(e, x, wanted, from);
    EndsSnoc(e, x, wanted, n);
    assert |e + [x]| == |e| + 1;
  }

  lemma {:induction false} EndsSnoc(e: seq<Message>, x: Message, wanted: set<string>, n: nat)
    requires n <= |e|
    ensures EndsAlike(Collapsed(e + [x], wanted), e + [x], n + 1) <==>
              !IsCopy(x, wanted) && (Answers([x]) || EndsAlike(Collapsed(e, wanted), e, n))
  {
    CollapseSnoc(e, x, wanted);
    if IsCopy(x, wanted) {
      LastIsNoCopy(e, wanted);
      EndsOn(Collapsed(e, wanted), e, x, n);
    } else if Answers([x]) {
      EndsAlikeSelf(e + [x], n + 1);
    } else {
      EndsAlikeSnoc(Collapsed(e, wanted), e, x, n);
    }
  }

  lemma {:induction false} EndsOn(c: seq<Message>, e: seq<Message>, x: Message, n: nat)
    ensures EndsAlike(c, e + [x], n + 1) ==> c != [] && c[|c| - 1] == x
  {
    Seqs.Snoc(e, x);
  }

  lemma {:induction false} NoneDoomedShift(ms: seq<Message>, wanted: set<string>, a: nat, b: nat)
    requires b < |ms|
    ensures NoneDoomed(ms, wanted, a + 1, b + 1) <==> NoneDoomed(ms[1..], wanted, a, b)
  {
    if a < b {
      DoomedCons(ms, wanted, b - 1);
      NoneDoomedShift(ms, wanted, a, b - 1);
    }
  }

  /** What is kept at both ends is kept twice over. */
  lemma {:induction false} KeptSize(ms: seq<Message>, wanted: set<string>, a: nat, b: nat)
    requires a <= b <= |ms| && NoneDoomed(ms, wanted, 0, a) && NoneDoomed(ms, wanted, b, |ms|)
    ensures a + |ms| - b <= |Collapsed(ms, wanted)|
    decreases a
  {
    if a == 0 {
      SuffixKeptIff(ms, wanted, b, |ms| - b);
      EndsAlikeMeans(Collapsed(ms, wanted), ms, |ms| - b);
    } else {
      NoneDoomedCons(ms, wanted, a);
      NoneDoomedShift(ms, wanted, b - 1, |ms| - 1);
      KeptSize(ms[1..], wanted, a - 1, b - 1);
      KeptFirstOf(ms, wanted);
    }
  }

  lemma {:induction false} CollapseShrinks(ms: seq<Message>, wanted: set<string>)
    ensures |Collapsed(ms, wanted)| <= |ms|
    ensures forall m :: m in Collapsed(ms, wanted) ==> m in ms
  {
    if ms != [] {
      CollapseShrinks(ms[1..], wanted);
    }
  }

  // ---- the frame of a summary ------------------------------------------------------

  /** The head and the counted tail of the messages before a summary are the same in `k` and `e`. */
  predicate SameFrame(e: seq<Message>, k: seq<Message>, info: Record)
    requires info.head <= |e|
  {
    info.head <= |k| && k[..info.head] == e[..info.head] && k[TailAt(|k|, info)..] == e[TailAt(|e|, info)..]
  }

  lemma {:induction false} SameFrameIff(e: seq<Message>, info: Record, wanted: set<string>)
    requires info.head <= |e|
    ensures SameFrame(e, Collapsed(e, wanted), info) <==>
              NoneDoomed(e, wanted, 0, info.head) && NoneDoomed(e, wanted, TailAt(|e|, info), |e|)
  {
    var k, from := Collapsed(e, wanted), TailAt(|e|, info);
    PrefixKeptIff(e, wanted, info.head);
    SuffixKeptIff(e, wanted, from, |e| - from);
    EndsAlikeMeans(k, e, |e| - from);
    CollapseShrinks(e, wanted);
    if NoneDoomed(e, wanted, 0, info.head) && NoneDoomed(e, wanted, from, |e|) {
      KeptSize(e, wanted, info.head, from);
    }
    FrameOfEnds(e, k, info, from);
  }

  lemma {:induction false} FrameOfEnds(e: seq<Message>, k: seq<Message>, info: Record, from: nat)
    requires info.head <= |e| && |k| <= |e| && from == TailAt(|e|, info)
    requires BeginsAlike(k, e, info.head) && EndsAlike(k, e, |e| - from) ==> info.head + |e| - from <= |k|
    ensures SameFrame(e, k, info) <==> BeginsAlike(k, e, info.head) && EndsAlike(k, e, |e| - from)
  {
    var r := |e| - from;
    EndsAlikeMeans(k, e, r);
    assert |e| - r == from;
    if SameFrame(e, k, info) {
      assert |k[TailAt(|k|, info)..]| == |e[from..]|;
      assert TailAt(|k|, info) == |k| - r;
    }
  }

  /** The kept part of what precedes a summary, given what follows it. */
  function KeptBefore(e: seq<Message>, d: seq<Message>, wanted: set<string>): seq<Message> {
    if Answers(d) then e else Collapsed(e, wanted)
  }

  lemma {:induction false} CollapseAround(e: seq<Message>, s: Message, d: seq<Message>, wanted: set<string>)
    requires s.role.User? && !IsCopy(s, wanted)
    ensures Collapsed(e + [s] + d, wanted) == KeptBefore(e, d, wanted) + [s] + Collapsed(d, wanted)
    ensures Answers([s] + d) <==> Answers(d)
  {
    AnswersCons(s, d);
    Seqs.Assoc(e, [s], d);
    CollapseConcat(e, [s] + d, wanted);
    assert ([s] + d)[1..] == d;
    Seqs.Assoc(KeptBefore(e, d, wanted), [s], Collapsed(d, wanted));
  }

  /** The recorded head and tail survive: the same summary comes last, behind the same messages. */
  predicate FrameKept(h: seq<Message>, c: seq<Message>)
    requires Viewable(h) && LastSummary(h) >= 0
  {
    var last, l := LastSummary(h), LastSummary(c);
    l >= 0 && c[l] == h[last] && SameFrame(h[..last], c[..l], h[last].compaction.value)
  }

  /** No unanswered copy of the task lies in the recorded head or in the counted tail. */
  predicate FrameUntouched(h: seq<Message>, wanted: set<string>)
    requires Viewable(h) && LastSummary(h) >= 0
  {
    Untouched(h, wanted, LastSummary(h), h[LastSummary(h)].compaction.value)
  }

  predicate Untouched(h: seq<Message>, wanted: set<string>, last: nat, info: Record)
    requires info.head <= last <= |h|
  {
    NoneDoomed(h, wanted, 0, info.head) && NoneDoomed(h, wanted, TailAt(last, info), last)
  }

  /** The latest summary can be viewed from, is a user message and no copy of the task. */
  predicate HasFrame(h: seq<Message>, wanted: set<string>) {
    Viewable(h) && LastSummary(h) >= 0 && h[LastSummary(h)].role.User? && !IsCopy(h[LastSummary(h)], wanted)
  }

  /**
    Resuming a stored session, exits filtered and copies dropped, leaves the head and the tail that the
    latest summary counted as they were if and only if no unanswered copy of the task lies in either.
   */
  lemma {:induction false} ResumeKeepsFrameIff(stored: seq<Message>, wanted: set<string>)
    requires HasFrame(WithoutExits(stored), wanted)
    ensures FrameKept(WithoutExits(stored), Resumed(stored, wanted)) <==> FrameUntouched(WithoutExits(stored), wanted)
  {
    CollapseKeepsFrameIff(WithoutExits(stored), wanted);
  }

  lemma {:induction false} CollapseKeepsFrameIff(h: seq<Message>, wanted: set<string>)
    requires HasFrame(h, wanted)
    ensures FrameKept(h, Collapsed(h, wanted)) <==> FrameUntouched(h, wanted)
  {
    var last := LastSummary(h);
    var e, s, d := h[..last], h[last], h[last + 1..];
    FrameOfCollapse(h, wanted, e, s, d);
    SplitAt(h, last);
    FrameAround(e, s, d, wanted, s.compaction.value);
  }

  lemma {:induction false} FrameAround(e: seq<Message>, s: Message, d: seq<Message>, wanted: set<string>, info: Record)
    requires s.role.User? && !IsCopy(s, wanted) && info.head <= |e|
    ensures SameFrame(e, KeptBefore(e, d, wanted), info) <==> Untouched(e + ([s] + d), wanted, |e|, info)
  {
    CollapseAround(e, s, d, wanted);
    NoneDoomedIn(e, [s] + d, wanted, 0, info.head);
    NoneDoomedIn(e, [s] + d, wanted, TailAt(|e|, info), |e|);
    SameFrameIff(e, info, wanted);
  }

  lemma {:induction false} FrameOfCollapse(h: seq<Message>, wanted: set<string>, e: seq<Message>, s: Message, d: seq<Message>)
    requires Viewable(h) && LastSummary(h) >= 0
    requires e == h[..LastSummary(h)] && s == h[LastSummary(h)] && d == h[LastSummary(h) + 1..]
    requires s.role.User? && !IsCopy(s, wanted)
    ensures FrameKept(h, Collapsed(h, wanted)) <==> SameFrame(e, KeptBefore(e, d, wanted), s.compaction.value)
  {
    SplitAt(h, LastSummary(h));
    CollapseAround(e, s, d, wanted);
    CollapseShrinks(d, wanted);
    SummaryAtPlace(KeptBefore(e, d, wanted), s, Collapsed(d, wanted));
  }
}
