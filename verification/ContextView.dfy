/** The view the model reads: `context_indices`, and `compact`, which appends the next summary. */
module ContextView {
  import opened Transcript
  import opened Repair
  import opened Compaction
  import opened Numbers
  import opened Requests
  import Seqs

  predicate Plain(m: Message) {
    m.compaction.None?
  }

  /** Index of the latest summary, or -1. */
  function LastSummary(ms: seq<Message>): (r: int)
    ensures -1 <= r < |ms|
    ensures r >= 0 ==> !Plain(ms[r])
    ensures forall i :: r < i < |ms| ==> Plain(ms[i])
  {
    if ms == [] then -1
    else if !Plain(ms[|ms| - 1]) then |ms| - 1
    else LastSummary(ms[..|ms| - 1])
  }

  /** The indices in `[a, b)` that hold no summary, in order. */
  function PlainIndices(ms: seq<Message>, a: nat, b: nat): (r: seq<nat>)
    requires b <= |ms|
    ensures forall i :: 0 <= i < |r| ==> a <= r[i] < b && Plain(ms[r[i]])
  {
    if b <= a then []
    else PlainIndices(ms, a, b - 1) + if Plain(ms[b - 1]) then [b - 1] else []
  }

  function UpTo(n: nat): (r: seq<nat>)
    ensures |r| == n && forall i :: 0 <= i < n ==> r[i] == i
  {
    seq(n, i => i)
  }

  /** The view can be formed: the head the latest summary recorded lies before it. */
  predicate Viewable(ms: seq<Message>) {
    var last := LastSummary(ms);
    last >= 0 ==> ms[last].compaction.value.head <= last
  }

  /**
    What every stored summary satisfies: it is a user message, and its head is the leading system
    messages with or without the message that follows them.
   */
  predicate WellFormed(ms: seq<Message>) {
    && Viewable(ms)
    && var last := LastSummary(ms);
       last >= 0 ==> ms[last].role.User? && IsHead(ms, ms[last].compaction.value.head)
  }

  predicate IsHead(ms: seq<Message>, head: nat) {
    var n := SystemPrefix(ms);
    n <= |ms| && (head == n || (head == n + 1 <= |ms| && ms[n].role.User?))
  }

  /** Where the counted tail begins when `n` messages precede the summary. */
  function TailAt(n: nat, info: Record): nat {
    Max(Max(n - info.tailMessages, 0), info.head)
  }

  /** Where the verbatim tail of the latest summary begins. */
  function TailBegin(ms: seq<Message>): nat
    requires LastSummary(ms) >= 0
  {
    TailAt(LastSummary(ms), ms[LastSummary(ms)].compaction.value)
  }

  function ContextIndices(ms: seq<Message>): (r: seq<nat>)
    requires Viewable(ms)
    ensures forall i :: 0 <= i < |r| ==> r[i] < |ms|
  {
    var last := LastSummary(ms);
    if last < 0 then UpTo(|ms|)
    else UpTo(ms[last].compaction.value.head) + [last] + PlainIndices(ms, TailBegin(ms), |ms|)
  }

  function Pick(ms: seq<Message>, indices: seq<nat>): (r: seq<Message>)
    requires forall i :: 0 <= i < |indices| ==> indices[i] < |ms|
    ensures |r| == |indices| && forall i :: 0 <= i < |r| ==> r[i] == ms[indices[i]]
  {
    seq(|indices|, i requires 0 <= i < |indices| => ms[indices[i]])
  }

  function View(ms: seq<Message>): seq<Message>
    requires Viewable(ms)
  {
    Pick(ms, ContextIndices(ms))
  }

  // ---- compaction ------------------------------------------------------------------

  /** The budgets of one compaction, in characters, and the text of its summary. */
  datatype Params = Params(headChars: int, keepChars: int, overflow: bool, summary: string)

  /** Where a compaction cuts: the head, the first position it may keep, the tail in the view and in the history. */
  datatype Cut = Cut(head: nat, lower: nat, tailPos: nat, tailStart: nat)

  function CutOf(ms: seq<Message>, p: Params): (c: Cut)
    requires WellFormed(ms)
    ensures c.head <= c.lower <= c.tailPos <= |ContextIndices(ms)|
    ensures c.head <= |ms| && c.tailStart <= |ms|
    ensures IsHead(ms, c.head)
    ensures c.tailStart == if c.tailPos < |ContextIndices(ms)| then ContextIndices(ms)[c.tailPos] else |ms|
  {
    var indices := ContextIndices(ms);
    var view := View(ms);
    var head := HeadLength(ms, p.headChars);
    var lower := head + if head < |indices| && !Plain(ms[indices[head]]) then 1 else 0;
    var tailPos := TailStart(view, lower, p.keepChars);
    assert lower <= tailPos <= |view| by { TailIsLongestFit(view, lower, p.keepChars); }
    Cut(head, lower, tailPos, if tailPos < |indices| then indices[tailPos] else |ms|)
  }

  /** The summary that goes with a cut: it carries the requests of the part it replaces, capped. */
  function SummaryAt(ms: seq<Message>, c: Cut, text: string): Message
    requires WellFormed(ms) && c.head <= c.tailPos <= |ContextIndices(ms)| && c.tailStart <= |ms|
  {
    var requests := Capped(UserRequests(View(ms)[c.head..c.tailPos]));
    Message(User, text, interrupt := OtherInterrupt,
            compaction := Some(Record(c.head, |ms| - c.tailStart, requests)))
  }

  function SummaryMessage(ms: seq<Message>, p: Params): (m: Message)
    requires WellFormed(ms)
    ensures IsSummary(m, CutOf(ms, p).head, |ms| - CutOf(ms, p).tailStart)
  {
    SummaryAt(ms, CutOf(ms, p), p.summary)
  }

  predicate IsSummary(m: Message, head: nat, tailMessages: nat) {
    m.role.User? && m.compaction.Some? && m.compaction.value.head == head && m.compaction.value.tailMessages == tailMessages
  }

  /** The history after `compact`, or nothing when there is too little to summarize. */
  function Compacted(ms: seq<Message>, p: Params): Option<seq<Message>>
    requires WellFormed(ms)
  {
    var c := CutOf(ms, p);
    if c.tailPos <= c.lower && !p.overflow then None
    else Some(Appended(ms, [SummaryMessage(ms, p)]))
  }

  /**
    Exactly when there is something to summarize: the request overflowed, or what lies past the protected part
    of the view does not fit and another turn begins in it.
   */
  lemma {:induction false} CompactsIff(ms: seq<Message>, p: Params)
    requires WellFormed(ms)
    ensures Compacted(ms, p).Some? <==> p.overflow || TooMuch(View(ms), CutOf(ms, p).lower, p.keepChars)
  {
    CutIsTail(ms, p);
    CutsPast(View(ms), CutOf(ms, p).lower, p.keepChars);
  }

  lemma {:induction false} CutIsTail(ms: seq<Message>, p: Params)
    requires WellFormed(ms)
    ensures var c := CutOf(ms, p); c.lower <= |View(ms)| && c.tailPos == TailStart(View(ms), c.lower, p.keepChars)
  {
  }

  lemma {:induction false} CutsPast(view: seq<Message>, lower: nat, keep: int)
    requires lower <= |view|
    ensures TailStart(view, lower, keep) > lower <==> TooMuch(view, lower, keep)
  {
    TailIsLongestFit(view, lower, keep);
    var r := TailStart(view, lower, keep);
    assert r < |view| && Fits(view, r, keep) ==> !view[r].role.Tool?;
  }

  ghost predicate TooMuch(view: seq<Message>, lower: nat, keep: int) {
    lower < |view| && !Fits(view, lower, keep) && exists s :: lower < s < |view| && !view[s].role.Tool?
  }

  // ---- indices ---------------------------------------------------------------------

  lemma {:induction false} PlainSplit(ms: seq<Message>, a: nat, m: nat, b: nat)
    requires a <= m <= b <= |ms|
    ensures PlainIndices(ms, a, b) == PlainIndices(ms, a, m) + PlainIndices(ms, m, b)
    decreases b
  {
    if m < b {
      PlainSplit(ms, a, m, b - 1);
    }
  }

  lemma {:induction false} PlainAgree(ms: seq<Message>, other: seq<Message>, a: nat, b: nat)
    requires b <= |ms| && b <= |other| && ms[..b] == other[..b]
    ensures PlainIndices(ms, a, b) == PlainIndices(other, a, b)
  {
    if a < b {
      assert ms[b - 1] == ms[..b][b - 1] == other[b - 1];
      assert ms[..b - 1] == ms[..b][..b - 1] == other[..b - 1];
      PlainAgree(ms, other, a, b - 1);
    }
  }

  predicate Ascends(r: seq<nat>) {
    forall i, j :: 0 <= i < j < |r| ==> r[i] < r[j]
  }

  lemma {:induction false} PlainSorted(ms: seq<Message>, a: nat, b: nat)
    requires b <= |ms|
    ensures Ascends(PlainIndices(ms, a, b))
  {
    if a < b {
      PlainSorted(ms, a, b - 1);
      if Plain(ms[b - 1]) {
        OneMoreAscends(PlainIndices(ms, a, b - 1), b - 1);
      }
    }
  }

  lemma {:induction false} OneMoreAscends(r: seq<nat>, x: nat)
    requires Ascends(r) && forall i :: 0 <= i < |r| ==> r[i] < x
    ensures Ascends(r + [x]) && Ascends(r + [])
  {
  }

  lemma {:induction false} PlainHolds(ms: seq<Message>, a: nat, b: nat, x: nat)
    requires a <= x < b <= |ms| && Plain(ms[x])
    ensures x in PlainIndices(ms, a, b)
    decreases b
  {
    if x < b - 1 {
      PlainHolds(ms, a, b - 1, x);
    }
  }

  /** Cutting the list at position `q` is cutting the range at the index found there. */
  lemma {:induction false} PlainCut(ms: seq<Message>, a: nat, b: nat, q: nat)
    requires b <= |ms| && q < |PlainIndices(ms, a, b)|
    ensures var r := PlainIndices(ms, a, b);
            && PlainIndices(ms, a, r[q]) == r[..q]
            && PlainIndices(ms, r[q], b) == r[q..]
  {
    var r := PlainIndices(ms, a, b);
    var left, right := PlainIndices(ms, a, r[q]), PlainIndices(ms, r[q], b);
    PlainSplit(ms, a, r[q], b);
    PlainSorted(ms, a, b);
    PlainSorted(ms, r[q], b);
    assert r == left + right;
    assert forall i :: 0 <= i < |left| ==> r[i] == left[i] < r[q];
    assert |left| <= q;
    assert r[|left|] == right[0] >= r[q];
  }

  lemma {:induction false} AllPlain(ms: seq<Message>, a: nat, b: nat)
    requires a <= b <= |ms| && forall i :: a <= i < b ==> Plain(ms[i])
    ensures |PlainIndices(ms, a, b)| == b - a
    ensures forall i :: 0 <= i < b - a ==> PlainIndices(ms, a, b)[i] == a + i
  {
    if a < b {
      AllPlain(ms, a, b - 1);
    }
  }

  lemma {:induction false} ViewOfPlain(ms: seq<Message>)
    requires forall m :: m in ms ==> Plain(m)
    ensures Viewable(ms) && LastSummary(ms) < 0 && View(ms) == ms
  {
  }

  // ---- the view after a compaction -------------------------------------------------

  /** The head that the latest summary recorded is the head now. */
  predicate StableHead(ms: seq<Message>, p: Params)
    requires WellFormed(ms)
  {
    var last := LastSummary(ms);
    last >= 0 ==> ms[last].compaction.value.head == CutOf(ms, p).head
  }

  /** No call is unanswered at the end: the summary needs no results put in before it. */
  predicate NoOpenCall(ms: seq<Message>) {
    ms != [] && ms[|ms| - 1].role.Assistant? ==> CallIds(ms[|ms| - 1]) == {}
  }

  /**
    When the cut really is a cut of the old view: no call is open, the tail lies past the old summary,
    and it does not reach back into the new head.
   */
  predicate CleanCut(ms: seq<Message>, p: Params)
    requires WellFormed(ms)
  {
    var c := CutOf(ms, p);
    var last := LastSummary(ms);
    && NoOpenCall(ms)
    && (last >= 0 ==>
          && c.tailPos > ms[last].compaction.value.head
          && (c.tailPos < |ContextIndices(ms)| ==> c.tailStart >= c.head))
  }

  lemma {:induction false} StableHeadCutsCleanly(ms: seq<Message>, p: Params)
    requires WellFormed(ms) && StableHead(ms, p) && NoOpenCall(ms)
    ensures CleanCut(ms, p)
  {
    StableHeadCuts(ms, p);
  }

  /** Under a stable head the tail lies past the old summary and does not reach back into the head. */
  lemma {:induction false} StableHeadCuts(ms: seq<Message>, p: Params)
    requires WellFormed(ms) && StableHead(ms, p)
    ensures var c := CutOf(ms, p);
            && c.head <= c.tailStart
            && (LastSummary(ms) >= 0 ==> c.tailPos > ms[LastSummary(ms)].compaction.value.head == c.head)
  {
    var last := LastSummary(ms);
    if last >= 0 {
      var c := CutOf(ms, p);
      var indices := ContextIndices(ms);
      assert indices[c.head] == last;
      if c.tailPos < |indices| {
        assert indices[c.tailPos] == PlainIndices(ms, TailBegin(ms), |ms|)[c.tailPos - c.head - 1];
      }
    }
  }

  /** The view the compaction is meant to leave: head, summary, and the old view from the cut on. */
  function CutView(ms: seq<Message>, p: Params): seq<Message>
    requires WellFormed(ms)
  {
    var c := CutOf(ms, p);
    ms[..c.head] + [SummaryMessage(ms, p)] + View(ms)[c.tailPos..]
  }

  lemma {:induction false} NoClosersNeeded(ms: seq<Message>, msg: Message)
    requires NoOpenCall(ms)
    ensures Closers(ms, [msg]) == [] && Appended(ms, [msg]) == ms + [msg]
  {
  }

  lemma {:induction false} SystemPrefixStable(ms: seq<Message>, rest: seq<Message>)
    requires SystemPrefix(ms) < |ms| || (rest != [] && !rest[0].role.System?)
    ensures SystemPrefix(ms + rest) == SystemPrefix(ms)
  {
    if ms == [] {
      assert ms + rest == rest;
    } else {
      assert (ms + rest)[1..] == ms[1..] + rest;
      if ms[0].role.System? {
        SystemPrefixStable(ms[1..], rest);
      }
    }
  }

  lemma {:induction false} AppendedSummary(ms: seq<Message>, summary: Message, head: nat, tailMessages: nat)
    requires IsSummary(summary, head, tailMessages) && IsHead(ms, head)
    ensures var next := Appended(ms, [summary]);
            && LastSummary(next) == |next| - 1 == |ms| + |Closers(ms, [summary])|
            && next[|next| - 1] == summary
            && WellFormed(next)
  {
    var closers := Closers(ms, [summary]);
    assert Appended(ms, [summary]) == ms + (closers + [summary]);
    assert (closers + [summary])[0] == if closers == [] then summary else closers[0];
    assert closers != [] ==> closers[0] in closers;
    SystemPrefixStable(ms, closers + [summary]);
  }

  /** With no open call, the new view is the head, the summary and the plain messages from the tail on. */
  lemma {:induction false} ViewOfSummary(ms: seq<Message>, summary: Message, head: nat, tailStart: nat)
    requires tailStart <= |ms| && IsSummary(summary, head, |ms| - tailStart) && NoOpenCall(ms)
    requires IsHead(ms, head)
    ensures var next := Appended(ms, [summary]);
            && next == ms + [summary] && WellFormed(next) && LastSummary(next) == |ms|
            && TailBegin(next) == Max(tailStart, head)
            && View(next) == ms[..head] + [summary] + Pick(ms, PlainIndices(ms, Max(tailStart, head), |ms|))
  {
    IndicesOfSummary(ms, summary, head, tailStart);
    PickSummary(ms, summary, head, PlainIndices(ms, Max(tailStart, head), |ms|));
  }

  lemma {:induction false} IndicesOfSummary(ms: seq<Message>, summary: Message, head: nat, tailStart: nat)
    requires tailStart <= |ms| && IsSummary(summary, head, |ms| - tailStart) && NoOpenCall(ms)
    requires IsHead(ms, head)
    ensures var next := Appended(ms, [summary]);
            && next == ms + [summary] && WellFormed(next) && LastSummary(next) == |ms|
            && TailBegin(next) == Max(tailStart, head)
            && ContextIndices(next) == UpTo(head) + [|ms|] + PlainIndices(ms, Max(tailStart, head), |ms|)
  {
    AppendedSummary(ms, summary, head, |ms| - tailStart);
    NoClosersNeeded(ms, summary);
    PlainOfOneMore(ms, summary, Max(tailStart, head));
  }

  /** One more message adds its index unless it is a summary. */
  lemma {:induction false} PlainOfOneMore(ms: seq<Message>, m: Message, a: nat)
    requires a <= |ms|
    ensures PlainIndices(ms + [m], a, |ms| + 1) == PlainIndices(ms, a, |ms|) + if Plain(m) then [|ms|] else []
    ensures !Plain(m) ==> PlainIndices(ms + [m], a, |ms| + 1) == PlainIndices(ms, a, |ms|)
  {
    assert (ms + [m])[..|ms|] == ms == ms[..|ms|];
    PlainAgree(ms + [m], ms, a, |ms|);
  }

  lemma {:induction false} PickSummary(ms: seq<Message>, summary: Message, head: nat, tail: seq<nat>)
    requires head <= |ms| && forall i :: 0 <= i < |tail| ==> tail[i] < |ms|
    ensures Pick(ms + [summary], UpTo(head) + [|ms|] + tail) == ms[..head] + [summary] + Pick(ms, tail)
  {
  }

  lemma {:induction false} PickSuffix(ms: seq<Message>, indices: seq<nat>, pos: nat)
    requires pos <= |indices| && forall i :: 0 <= i < |indices| ==> indices[i] < |ms|
    ensures Pick(ms, indices)[pos..] == Pick(ms, indices[pos..])
    ensures Pick(ms, indices)[..pos] == Pick(ms, indices[..pos])
  {
  }

  lemma {:induction false} PickConcat(ms: seq<Message>, a: seq<nat>, b: seq<nat>)
    requires (forall i :: 0 <= i < |a| ==> a[i] < |ms|) && forall i :: 0 <= i < |b| ==> b[i] < |ms|
    ensures forall i :: 0 <= i < |a + b| ==> (a + b)[i] < |ms|
    ensures Pick(ms, a + b) == Pick(ms, a) + Pick(ms, b)
  {
  }

  /** The view from position `pos` on is the plain messages from the index found there. */
  lemma {:induction false} TailOfView(ms: seq<Message>, pos: nat, begin: nat)
    requires WellFormed(ms) && pos <= |ContextIndices(ms)|
    requires begin == if pos < |ContextIndices(ms)| then ContextIndices(ms)[pos] else |ms|
    requires LastSummary(ms) >= 0 ==> pos > ms[LastSummary(ms)].compaction.value.head
    ensures begin <= |ms| && ContextIndices(ms)[pos..] == PlainIndices(ms, begin, |ms|)
    ensures View(ms)[pos..] == Pick(ms, PlainIndices(ms, begin, |ms|))
  {
    TailOfIndices(ms, pos, begin);
    PickSuffix(ms, ContextIndices(ms), pos);
  }

  lemma {:induction false} TailOfIndices(ms: seq<Message>, pos: nat, begin: nat)
    requires WellFormed(ms) && pos <= |ContextIndices(ms)|
    requires begin == if pos < |ContextIndices(ms)| then ContextIndices(ms)[pos] else |ms|
    requires LastSummary(ms) >= 0 ==> pos > ms[LastSummary(ms)].compaction.value.head
    ensures begin <= |ms| && ContextIndices(ms)[pos..] == PlainIndices(ms, begin, |ms|)
  {
    var last := LastSummary(ms);
    if last < 0 {
      AllPlain(ms, begin, |ms|);
    } else {
      TailPastFront(ms, UpTo(ms[last].compaction.value.head) + [last], TailBegin(ms), pos, begin);
    }
  }

  lemma {:induction false} TailPastFront(ms: seq<Message>, front: seq<nat>, from: nat, pos: nat, begin: nat)
    requires |front| <= pos <= |front + PlainIndices(ms, from, |ms|)|
    requires begin == if pos < |front + PlainIndices(ms, from, |ms|)| then (front + PlainIndices(ms, from, |ms|))[pos] else |ms|
    ensures begin <= |ms| && (front + PlainIndices(ms, from, |ms|))[pos..] == PlainIndices(ms, begin, |ms|)
  {
    var tail := PlainIndices(ms, from, |ms|);
    DropFront(front, tail, pos);
    if pos < |front + tail| {
      PlainCut(ms, from, |ms|, pos - |front|);
    }
  }

  lemma {:induction false} DropFront(a: seq<nat>, b: seq<nat>, n: nat)
    requires |a| <= n <= |a + b|
    ensures (a + b)[n..] == b[n - |a|..]
  {
  }

  /**
    After a compaction the view is exactly the head, the new summary and the old view from the cut on
    if and only if the cut is clean. In particular no older summary comes back.
   */
  lemma {:induction false} ViewAfterCompaction(ms: seq<Message>, p: Params)
    requires WellFormed(ms) && Compacted(ms, p).Some?
    ensures WellFormed(Compacted(ms, p).value)
    ensures View(Compacted(ms, p).value) == CutView(ms, p) <==> CleanCut(ms, p)
  {
    var c := CutOf(ms, p);
    var summary := SummaryMessage(ms, p);
    AppendedSummary(ms, summary, c.head, |ms| - c.tailStart);
    if !NoOpenCall(ms) {
      EndIsInTail(ms, p);
      EndOfCutView(ms, p);
      OpenCallBreaksCut(ms, summary, c.head, c.tailStart, CutView(ms, p));
    } else {
      ViewOfSummary(ms, summary, c.head, c.tailStart);
      var tail := Pick(ms, PlainIndices(ms, Max(c.tailStart, c.head), |ms|));
      SameFront(ms[..c.head] + [summary], tail, View(ms)[c.tailPos..]);
      TailAgreement(ms, c.head, c.tailPos, c.tailStart);
    }
  }

  /** The plain messages from the tail on are the old view from the cut on exactly when the cut is clean. */
  lemma {:induction false} TailAgreement(ms: seq<Message>, head: nat, pos: nat, begin: nat)
    requires WellFormed(ms) && pos <= |ContextIndices(ms)| && head <= |ms|
    requires begin == if pos < |ContextIndices(ms)| then ContextIndices(ms)[pos] else |ms|
    requires LastSummary(ms) < 0 ==> head <= pos
    ensures Pick(ms, PlainIndices(ms, Max(begin, head), |ms|)) == View(ms)[pos..] <==>
              (LastSummary(ms) >= 0 ==>
                && pos > ms[LastSummary(ms)].compaction.value.head
                && (pos < |ContextIndices(ms)| ==> begin >= head))
  {
    var last := LastSummary(ms);
    var tail := PlainIndices(ms, Max(begin, head), |ms|);
    if last >= 0 && pos <= ms[last].compaction.value.head {
      OldSummaryInTail(ms, pos, tail);
    } else {
      TailOfView(ms, pos, begin);
      if begin < head {
        assert ContextIndices(ms)[pos..][0] == begin;
        ShorterTail(ms, begin, head);
      }
    }
  }

  /** A tail that begins at or before the old summary contains it; plain messages do not. */
  lemma {:induction false} OldSummaryInTail(ms: seq<Message>, pos: nat, tail: seq<nat>)
    requires WellFormed(ms) && LastSummary(ms) >= 0 && pos <= ms[LastSummary(ms)].compaction.value.head
    requires forall i :: 0 <= i < |tail| ==> tail[i] < |ms| && Plain(ms[tail[i]])
    ensures Pick(ms, tail) != View(ms)[pos..]
  {
    var at := ms[LastSummary(ms)].compaction.value.head - pos;
    assert View(ms)[pos..][at] == ms[LastSummary(ms)];
  }

  lemma {:induction false} ShorterTail(ms: seq<Message>, begin: nat, head: nat)
    requires begin < head <= |ms| && Plain(ms[begin])
    ensures |PlainIndices(ms, head, |ms|)| < |PlainIndices(ms, begin, |ms|)|
  {
    PlainSplit(ms, begin, head, |ms|);
    PlainHolds(ms, begin, head, begin);
  }

  lemma {:induction false} SameFront(front: seq<Message>, a: seq<Message>, b: seq<Message>)
    ensures front + a == front + b <==> a == b
  {
    if front + a == front + b {
      assert a == (front + a)[|front|..] == b;
    }
  }

  /** The last message is in the view, past the part a compaction protects. */
  lemma {:induction false} EndIsInTail(ms: seq<Message>, p: Params)
    requires WellFormed(ms) && ms != [] && ms[|ms| - 1].role.Assistant?
    ensures CutOf(ms, p).tailPos < |ContextIndices(ms)|
  {
    var c := CutOf(ms, p);
    EndOfIndices(ms);
    TailIsLongestFit(View(ms), c.lower, p.keepChars);
    assert c.head < |ms|;
  }

  lemma {:induction false} EndOfIndices(ms: seq<Message>)
    requires WellFormed(ms) && ms != [] && ms[|ms| - 1].role.Assistant?
    ensures ContextIndices(ms) != [] && ContextIndices(ms)[|ContextIndices(ms)| - 1] == |ms| - 1
    ensures LastSummary(ms) >= 0 ==> |ContextIndices(ms)| >= ms[LastSummary(ms)].compaction.value.head + 2
  {
    assert Plain(ms[|ms| - 1]);
    if LastSummary(ms) >= 0 {
      assert TailBegin(ms) <= |ms| - 1;
    }
  }

  lemma {:induction false} EndOfCutView(ms: seq<Message>, p: Params)
    requires WellFormed(ms) && ms != [] && ms[|ms| - 1].role.Assistant?
    requires CutOf(ms, p).tailPos < |ContextIndices(ms)|
    ensures CutView(ms, p) != [] && CutView(ms, p)[|CutView(ms, p)| - 1] == ms[|ms| - 1]
    ensures CutOf(ms, p).tailStart < |ms|
  {
    EndOfIndices(ms);
  }

  /** With a call open, results are put in between, so the new view ends on one of them. */
  lemma {:induction false} OpenCallBreaksCut(ms: seq<Message>, summary: Message, head: nat, tailStart: nat, cut: seq<Message>)
    requires !NoOpenCall(ms) && tailStart < |ms| && IsSummary(summary, head, |ms| - tailStart)
    requires IsHead(ms, head)
    requires cut != [] && cut[|cut| - 1] == ms[|ms| - 1]
    ensures WellFormed(Appended(ms, [summary])) && View(Appended(ms, [summary])) != cut
  {
    AppendedSummary(ms, summary, head, |ms| - tailStart);
    var closers := Closers(ms, [summary]);
    var closer := closers[|closers| - 1];
    assert closer in closers;
    assert Appended(ms, [summary])[|ms| + |closers| - 1] == closer;
    EndOfView(Appended(ms, [summary]));
  }

  /** A view whose history ends on a summary ends on the message before that summary, when the tail reaches it. */
  lemma {:induction false} EndOfView(ms: seq<Message>)
    requires |ms| > 1 && Viewable(ms) && LastSummary(ms) == |ms| - 1
    requires Plain(ms[|ms| - 2]) && TailBegin(ms) < |ms| - 1
    ensures View(ms) != [] && View(ms)[|View(ms)| - 1] == ms[|ms| - 2]
  {
    PlainEnd(ms, TailBegin(ms), |ms| - 1);
    PickEnd(ms, UpTo(ms[|ms| - 1].compaction.value.head) + [|ms| - 1], PlainIndices(ms, TailBegin(ms), |ms|));
  }

  lemma {:induction false} PickEnd(ms: seq<Message>, front: seq<nat>, r: seq<nat>)
    requires r != [] && forall i :: 0 <= i < |front + r| ==> (front + r)[i] < |ms|
    ensures (front + r)[|front + r| - 1] == r[|r| - 1] < |ms|
    ensures Pick(ms, front + r) != [] && Pick(ms, front + r)[|front + r| - 1] == ms[r[|r| - 1]]
  {
  }

  lemma {:induction false} PlainEnd(ms: seq<Message>, a: nat, n: nat)
    requires a < n < |ms| && Plain(ms[n - 1]) && !Plain(ms[n])
    ensures var r := PlainIndices(ms, a, n + 1); r != [] && r[|r| - 1] == n - 1
  {
    assert PlainIndices(ms, a, n + 1) == PlainIndices(ms, a, n) + [];
  }

  // ---- the view at a summary --------------------------------------------------------

  /** The messages that are no summaries. */
  function PlainOf(ms: seq<Message>): seq<Message> {
    if ms == [] then []
    else PlainOf(ms[..|ms| - 1]) + if Plain(ms[|ms| - 1]) then [ms[|ms| - 1]] else []
  }

  lemma {:induction false} PlainAll(ms: seq<Message>)
    requires forall m :: m in ms ==> Plain(m)
    ensures PlainOf(ms) == ms
  {
    if ms != [] {
      assert ms[|ms| - 1] in ms;
      PlainAll(ms[..|ms| - 1]);
      Seqs.LastApart(ms, ms[..|ms| - 1], ms[|ms| - 1]);
    }
  }

  lemma {:induction false} PickIsFilter(ms: seq<Message>, a: nat, b: nat)
    requires a <= b <= |ms|
    ensures Pick(ms, PlainIndices(ms, a, b)) == PlainOf(ms[a..b])
    decreases b
  {
    if a < b {
      PickIsFilter(ms, a, b - 1);
      FilterStep(ms, a, b);
      PickSnoc(ms, PlainIndices(ms, a, b - 1), b - 1);
      Seqs.Empty(PlainIndices(ms, a, b - 1));
      Seqs.Empty(PlainOf(ms[a..b - 1]));
    }
  }

  lemma {:induction false} FilterStep(ms: seq<Message>, a: nat, b: nat)
    requires a < b <= |ms|
    ensures PlainOf(ms[a..b]) == PlainOf(ms[a..b - 1]) + if Plain(ms[b - 1]) then [ms[b - 1]] else []
  {
    assert ms[a..b][..b - 1 - a] == ms[a..b - 1];
  }

  lemma {:induction false} PickSnoc(ms: seq<Message>, indices: seq<nat>, i: nat)
    requires i < |ms| && forall k :: 0 <= k < |indices| ==> indices[k] < |ms|
    ensures Pick(ms, indices + [i]) == Pick(ms, indices) + [ms[i]]
  {
  }

  /** The view of a history that ends on a summary. */
  lemma {:induction false} ViewAtSummary(e: seq<Message>, s: Message)
    requires !Plain(s) && s.compaction.value.head <= |e|
    ensures var info := s.compaction.value;
            && Viewable(e + [s]) && LastSummary(e + [s]) == |e|
            && View(e + [s]) == e[..info.head] + [s] + PlainOf(e[TailAt(|e|, info)..])
  {
    var info := s.compaction.value;
    var from := TailAt(|e|, info);
    IndicesAtSummary(e, s);
    PickSummary(e, s, info.head, PlainIndices(e, from, |e|));
    PickIsFilter(e, from, |e|);
    assert e[from..|e|] == e[from..];
  }

  lemma {:induction false} IndicesAtSummary(e: seq<Message>, s: Message)
    requires !Plain(s) && s.compaction.value.head <= |e|
    ensures var info := s.compaction.value;
            && Viewable(e + [s]) && LastSummary(e + [s]) == |e|
            && ContextIndices(e + [s]) == UpTo(info.head) + [|e|] + PlainIndices(e, TailAt(|e|, info), |e|)
  {
    Seqs.Snoc(e, s);
    PlainOfOneMore(e, s, TailAt(|e|, s.compaction.value));
  }

  lemma {:induction false} SummaryAtPlace(e: seq<Message>, s: Message, d: seq<Message>)
    requires !Plain(s) && forall m :: m in d ==> Plain(m)
    ensures var ms := e + [s] + d; LastSummary(ms) == |e| && ms[|e|] == s && ms[..|e|] == e && ms[|e| + 1..] == d
  {
    var ms := e + [s] + d;
    assert ms[|e|] == s;
    assert forall i :: |e| < i < |ms| ==> ms[i] == d[i - |e| - 1] && ms[i] in d;
  }

}
