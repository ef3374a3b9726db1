/** What compactions keep from one to the next: the view's order, its pairing and the user's requests. */
module ViewHistory {
  import opened Transcript
  import opened Compaction
  import opened Requests
  import opened ContextView
  import opened Repair
  import opened Numbers
  import Seqs

  // ---- appending -------------------------------------------------------------------

  /** Ordinary messages only extend the view at its end. */
  lemma {:induction false} ViewExtends(ms: seq<Message>, more: seq<Message>)
    requires Viewable(ms) && forall m :: m in more ==> Plain(m)
    ensures Viewable(ms + more) && LastSummary(ms + more) == LastSummary(ms)
    ensures View(ms + more) == View(ms) + more
    ensures WellFormed(ms) ==> WellFormed(ms + more)
    decreases |more|
  {
    if more == [] {
      Seqs.Empty(ms);
      Seqs.Empty(View(ms));
    } else {
      var next := ms + [more[0]];
      assert more[0] in more;
      ViewExtendsOne(ms, more[0]);
      ViewExtends(next, more[1..]);
      Seqs.Uncons(more);
      Seqs.Assoc(ms, [more[0]], more[1..]);
      Seqs.Assoc(View(ms), [more[0]], more[1..]);
    }
  }

  lemma {:induction false} ViewExtendsOne(ms: seq<Message>, m: Message)
    requires Viewable(ms) && Plain(m)
    ensures Viewable(ms + [m]) && LastSummary(ms + [m]) == LastSummary(ms)
    ensures WellFormed(ms) ==> WellFormed(ms + [m])
    ensures View(ms + [m]) == View(ms) + [m]
    ensures LastSummary(ms) >= 0 ==> TailBegin(ms + [m]) == TailBegin(ms)
  {
    IndicesOfOneMore(ms, m);
    PickMore(ms, ContextIndices(ms), m);
    if WellFormed(ms) {
      HeadStays(ms, m);
    }
  }

  lemma {:induction false} IndicesOfOneMore(ms: seq<Message>, m: Message)
    requires Viewable(ms) && Plain(m)
    ensures Viewable(ms + [m]) && LastSummary(ms + [m]) == LastSummary(ms)
    ensures ContextIndices(ms + [m]) == ContextIndices(ms) + [|ms|]
    ensures LastSummary(ms) >= 0 ==> TailBegin(ms + [m]) == TailBegin(ms)
  {
    SummaryStays(ms, m);
    var last := LastSummary(ms);
    if last >= 0 {
      PlainOfOneMore(ms, m, TailBegin(ms));
      Seqs.Assoc(UpTo(ms[last].compaction.value.head) + [last], PlainIndices(ms, TailBegin(ms), |ms|), [|ms|]);
    } else {
      assert UpTo(|ms| + 1) == UpTo(|ms|) + [|ms|];
    }
  }

  lemma {:induction false} SummaryStays(ms: seq<Message>, m: Message)
    requires Plain(m)
    ensures var last := LastSummary(ms); LastSummary(ms + [m]) == last && (last >= 0 ==> (ms + [m])[last] == ms[last])
  {
    Seqs.Snoc(ms, m);
  }

  lemma {:induction false} HeadStays(ms: seq<Message>, m: Message)
    requires WellFormed(ms) && Plain(m)
    ensures WellFormed(ms + [m])
  {
    SummaryStays(ms, m);
    if LastSummary(ms) >= 0 {
      SystemPrefixStable(ms, [m]);
    }
  }

  lemma {:induction false} PickMore(ms: seq<Message>, indices: seq<nat>, m: Message)
    requires forall i :: 0 <= i < |indices| ==> indices[i] < |ms|
    ensures Pick(ms + [m], indices + [|ms|]) == Pick(ms, indices) + [m]
    ensures Pick(ms + [m], indices) == Pick(ms, indices)
  {
  }

  lemma {:induction false} ViewPast(e: seq<Message>, s: Message, d: seq<Message>)
    requires !Plain(s) && s.compaction.value.head <= |e| && forall m :: m in d ==> Plain(m)
    ensures Viewable(e + [s]) && Viewable(e + [s] + d) && View(e + [s] + d) == View(e + [s]) + d
  {
    ViewAtSummary(e, s);
    ViewExtends(e + [s], d);
  }

  // ---- pairing ---------------------------------------------------------------------

  lemma {:induction false} NoCallsPaired(ms: seq<Message>)
    requires forall i :: 0 <= i < |ms| ==> ms[i].role.System? || ms[i].role.User?
    ensures Paired(ms) && OpenCalls(ms) == {}
  {
    if ms != [] {
      NoCallsPaired(ms[..|ms| - 1]);
    }
  }

  /** What the protected part of a view ends on. */
  lemma {:induction false} ProtectedEnd(ms: seq<Message>, p: Params)
    requires WellFormed(ms)
    ensures var c := CutOf(ms, p);
            && (c.lower > 0 ==> View(ms)[c.lower - 1].role.System? || View(ms)[c.lower - 1].role.User?)
            && (forall i :: 0 <= i < c.head ==> ms[i].role.System? || ms[i].role.User?)
  {
    var c := CutOf(ms, p);
    var last := LastSummary(ms);
    if last >= 0 && c.lower > 0 {
      var h := ms[last].compaction.value.head;
      assert c.lower <= h + 1;
      assert c.lower - 1 < h ==> ContextIndices(ms)[c.lower - 1] == c.lower - 1;
      assert ContextIndices(ms)[h] == last;
    }
  }

  /** A clean cut leaves a paired view paired: no result outlives its call. */
  lemma {:induction false} CompactionKeepsPairing(ms: seq<Message>, p: Params)
    requires WellFormed(ms) && Compacted(ms, p).Some? && CleanCut(ms, p)
    requires Paired(View(ms))
    ensures WellFormed(Compacted(ms, p).value) && Paired(View(Compacted(ms, p).value))
  {
    CutViewPaired(ms, p);
    ViewAfterCompaction(ms, p);
  }

  lemma {:induction false} CutViewPaired(ms: seq<Message>, p: Params)
    requires WellFormed(ms) && Paired(View(ms))
    ensures Paired(CutView(ms, p))
  {
    var c := CutOf(ms, p);
    ProtectedEnd(ms, p);
    assert c.tailPos == TailStart(View(ms), c.lower, p.keepChars);
    CutPaired(ms, c, p.keepChars, View(ms), SummaryMessage(ms, p));
  }

  lemma {:induction false} CutPaired(ms: seq<Message>, c: Cut, keep: int, view: seq<Message>, summary: Message)
    requires c.head <= |ms| && c.lower <= |view| && c.tailPos <= |view| && summary.role.User? && Paired(view)
    requires c.tailPos == TailStart(view, c.lower, keep)
    requires c.lower > 0 ==> view[c.lower - 1].role.System? || view[c.lower - 1].role.User?
    requires forall i :: 0 <= i < c.head ==> ms[i].role.System? || ms[i].role.User?
    ensures Paired(ms[..c.head] + [summary] + view[c.tailPos..])
  {
    TailOpensOnNoResult(view, c.lower, keep);
    HeadRoles(ms, c.head, summary);
    HeadedPaired(ms[..c.head] + [summary], view, c.tailPos);
  }

  lemma {:induction false} HeadRoles(ms: seq<Message>, head: nat, summary: Message)
    requires head <= |ms| && summary.role.User?
    requires forall i :: 0 <= i < head ==> ms[i].role.System? || ms[i].role.User?
    ensures var front := ms[..head] + [summary]; forall i :: 0 <= i < |front| ==> front[i].role.System? || front[i].role.User?
  {
  }

  lemma {:induction false} HeadedPaired(front: seq<Message>, view: seq<Message>, pos: nat)
    requires forall i :: 0 <= i < |front| ==> front[i].role.System? || front[i].role.User?
    requires Paired(view) && pos <= |view| && (pos < |view| ==> !view[pos].role.Tool?)
    ensures Paired(front + view[pos..])
  {
    var tail := view[pos..];
    Seqs.Cut(view, pos);
    PairedPrefix(view[..pos], tail);
    PairedConcat(view[..pos], tail);
    assert Paired(tail);
    NoCallsPaired(front);
    PairedConcat(front, tail);
  }

  // ---- the user's requests ---------------------------------------------------------

  /** Everything the user asked for in messages `[a, b)`, oldest first, summaries aside. */
  function Asked(ms: seq<Message>, a: nat, b: nat): seq<string>
    requires b <= |ms|
  {
    UserRequests(Pick(ms, PlainIndices(ms, a, b)))
  }

  lemma {:induction false} AskedSplit(ms: seq<Message>, a: nat, m: nat, b: nat)
    requires a <= m <= b <= |ms|
    ensures Asked(ms, a, b) == Asked(ms, a, m) + Asked(ms, m, b)
  {
    PlainSplit(ms, a, m, b);
    PickConcat(ms, PlainIndices(ms, a, m), PlainIndices(ms, m, b));
    UserRequestsConcat(Pick(ms, PlainIndices(ms, a, m)), Pick(ms, PlainIndices(ms, m, b)));
  }

  lemma {:induction false} AskedAgree(ms: seq<Message>, more: seq<Message>, a: nat, b: nat)
    requires b <= |ms|
    ensures Asked(ms + more, a, b) == Asked(ms, a, b)
  {
    assert (ms + more)[..b] == ms[..b];
    PlainAgree(ms + more, ms, a, b);
    PickPrefix(ms, more, PlainIndices(ms, a, b));
  }

  lemma {:induction false} PickPrefix(ms: seq<Message>, more: seq<Message>, indices: seq<nat>)
    requires forall i :: 0 <= i < |indices| ==> indices[i] < |ms|
    ensures Pick(ms + more, indices) == Pick(ms, indices)
  {
  }

  /** The latest summary carries the capped list of everything asked in the part it stands for. */
  predicate Carried(ms: seq<Message>) {
    WellFormed(ms) &&
    var last := LastSummary(ms);
    last >= 0 ==>
      var info := ms[last].compaction.value;
      info.userMessages == Capped(Asked(ms, info.head, TailBegin(ms)))
  }

  /**
    What a compaction collects past an earlier summary. A cut behind that summary passes its list on when
    the head is no longer than before, and leaves it out when the head has grown; a cut at or before it,
    which a shrunk head allows, collects what is asked in the head up to there.
   */
  lemma {:induction false} RequestsOfCut(ms: seq<Message>, head: nat, pos: nat, begin: nat)
    requires WellFormed(ms) && LastSummary(ms) >= 0 && IsHead(ms, head) && head <= pos <= |ContextIndices(ms)|
    requires begin == if pos < |ContextIndices(ms)| then ContextIndices(ms)[pos] else |ms|
    ensures var info := ms[LastSummary(ms)].compaction.value;
            && begin <= |ms| && (pos > info.head ==> TailBegin(ms) <= begin)
            && UserRequests(View(ms)[head..pos]) ==
                 if pos <= info.head then UserRequests(ms[head..pos])
                 else (if head <= info.head then UserRequests(ms[head..info.head]) + info.userMessages else [])
                      + Asked(ms, TailBegin(ms), begin)
  {
    if pos <= ms[LastSummary(ms)].compaction.value.head {
      HeadOfView(ms);
      SliceOfHead(View(ms), ms, ms[LastSummary(ms)].compaction.value.head, head, pos);
    } else {
      RequestsBehind(ms, head, pos, begin);
    }
  }

  lemma {:induction false} HeadOfView(ms: seq<Message>)
    requires Viewable(ms) && LastSummary(ms) >= 0
    ensures var view, head := View(ms), ms[LastSummary(ms)].compaction.value.head;
            head < |view| && head <= |ms| && view[..head] == ms[..head] && view[head] == ms[LastSummary(ms)]
  {
  }

  lemma {:induction false} SliceOfHead(view: seq<Message>, ms: seq<Message>, h: nat, from: nat, to: nat)
    requires from <= to <= h && h <= |view| && h <= |ms| && view[..h] == ms[..h]
    ensures view[from..to] == ms[from..to]
  {
    forall i | from <= i < to ensures view[i] == ms[i] {
      assert view[..h][i] == ms[..h][i];
    }
  }

  lemma {:induction false} RequestsBehind(ms: seq<Message>, head: nat, pos: nat, begin: nat)
    requires WellFormed(ms) && LastSummary(ms) >= 0 && IsHead(ms, head) && head <= pos <= |ContextIndices(ms)|
    requires pos > ms[LastSummary(ms)].compaction.value.head
    requires begin == if pos < |ContextIndices(ms)| then ContextIndices(ms)[pos] else |ms|
    ensures var info := ms[LastSummary(ms)].compaction.value;
            && TailBegin(ms) <= begin <= |ms|
            && UserRequests(View(ms)[head..pos]) ==
                 (if head <= info.head then UserRequests(ms[head..info.head]) + info.userMessages else [])
                 + Asked(ms, TailBegin(ms), begin)
  {
    var last := LastSummary(ms);
    PlaceInTail(ms, pos, begin);
    var tail := PlainIndices(ms, TailBegin(ms), |ms|);
    RequestsOfPlace(ms, ms[last].compaction.value.head, last, TailBegin(ms), tail, View(ms), head, pos, begin);
  }

  lemma {:induction false} RequestsOfPlace(
      ms: seq<Message>, h: nat, last: nat, tb: nat, tail: seq<nat>, view: seq<Message>, from: nat, pos: nat, begin: nat)
    requires h <= |ms| && last < |ms| && ms[last].compaction.Some? && tb <= |ms|
    requires tail == PlainIndices(ms, tb, |ms|) && view == Pick(ms, UpTo(h) + [last] + tail)
    requires h < pos <= h + 1 + |tail| && from <= h + 1
    requires begin == if pos - h - 1 < |tail| then tail[pos - h - 1] else |ms|
    ensures tb <= begin <= |ms| && |view| == h + 1 + |tail|
    ensures UserRequests(view[from..pos]) ==
              (if from <= h then UserRequests(ms[from..h]) + ms[last].compaction.value.userMessages else [])
              + Asked(ms, tb, begin)
  {
    CutOfTail(ms, tb, pos - h - 1, begin);
    RequestsOfSlice(ms, h, last, tail, from, pos);
  }

  /** A position behind the summary is a position in the tail. */
  lemma {:induction false} PlaceInTail(ms: seq<Message>, pos: nat, begin: nat)
    requires Viewable(ms) && LastSummary(ms) >= 0 && ms[LastSummary(ms)].compaction.value.head < pos <= |ContextIndices(ms)|
    requires begin == if pos < |ContextIndices(ms)| then ContextIndices(ms)[pos] else |ms|
    ensures var h, tail := ms[LastSummary(ms)].compaction.value.head, PlainIndices(ms, TailBegin(ms), |ms|);
            && pos - h - 1 <= |tail| && begin == (if pos - h - 1 < |tail| then tail[pos - h - 1] else |ms|)
            && View(ms) == Pick(ms, UpTo(h) + [LastSummary(ms)] + tail) && TailBegin(ms) <= |ms|
  {
  }

  lemma {:induction false} RequestsOfSlice(ms: seq<Message>, h: nat, last: nat, tail: seq<nat>, from: nat, to: nat)
    requires h <= |ms| && last < |ms| && (forall i :: 0 <= i < |tail| ==> tail[i] < |ms|) && ms[last].compaction.Some?
    requires h < to <= h + 1 + |tail| && from <= h + 1
    ensures var view := Pick(ms, UpTo(h) + [last] + tail);
            && |view| == h + 1 + |tail|
            && UserRequests(view[from..to]) ==
                 (if from <= h then UserRequests(ms[from..h]) + ms[last].compaction.value.userMessages else [])
                 + UserRequests(Pick(ms, tail[..to - h - 1]))
  {
    var part := Pick(ms, tail[..to - h - 1]);
    SliceOfView(ms, h, last, tail, from, to);
    if from <= h {
      RequestsAround(ms[from..h], ms[last], part);
    } else {
      Seqs.Empty(UserRequests(part));
    }
  }

  /** A compaction past an earlier summary passes its list on, in its place among what it stands for. */
  predicate PassesListOn(ms: seq<Message>, head: nat, pos: nat, begin: nat)
    requires Viewable(ms) && LastSummary(ms) >= 0 && head <= pos <= |View(ms)| && begin <= |ms|
  {
    var info := ms[LastSummary(ms)].compaction.value;
    UserRequests(View(ms)[head..pos]) ==
      UserRequests(ms[Min(head, info.head)..info.head]) + info.userMessages + Asked(ms, TailBegin(ms), begin)
  }

  /** What a cut leaves out of the list it should pass on: the old list, and with it what surrounds it when the cut lies before. */
  function LeftOut(ms: seq<Message>, head: nat, pos: nat, begin: nat): seq<string>
    requires Viewable(ms) && LastSummary(ms) >= 0 && begin <= |ms|
  {
    var info := ms[LastSummary(ms)].compaction.value;
    if pos <= info.head then UserRequests(ms[pos..info.head]) + info.userMessages + Asked(ms, TailBegin(ms), begin)
    else if head <= info.head then []
    else info.userMessages
  }

  /**
    Exactly: the old list is passed on when the head has not grown and the cut lies behind the old summary,
    and otherwise only where what is left out is empty.
   */
  lemma {:induction false} ListPassedOnIff(ms: seq<Message>, head: nat, pos: nat, begin: nat)
    requires WellFormed(ms) && LastSummary(ms) >= 0 && IsHead(ms, head) && head <= pos <= |ContextIndices(ms)|
    requires begin == if pos < |ContextIndices(ms)| then ContextIndices(ms)[pos] else |ms|
    ensures begin <= |ms|
    ensures var info := ms[LastSummary(ms)].compaction.value;
            PassesListOn(ms, head, pos, begin) <==> head <= info.head < pos || LeftOut(ms, head, pos, begin) == []
  {
    RequestsOfCut(ms, head, pos, begin);
    if pos <= ms[LastSummary(ms)].compaction.value.head {
      CutBefore(ms, head, pos, begin);
    } else {
      CutBehind(ms, head, pos, begin);
    }
  }

  /** The same of every compaction: of the cut it makes. */
  lemma {:induction false} CompactionPassesListOnIff(ms: seq<Message>, p: Params)
    requires WellFormed(ms) && LastSummary(ms) >= 0
    ensures var c, info := CutOf(ms, p), ms[LastSummary(ms)].compaction.value;
            PassesListOn(ms, c.head, c.tailPos, c.tailStart) <==>
              c.head <= info.head < c.tailPos || LeftOut(ms, c.head, c.tailPos, c.tailStart) == []
  {
    ListPassedOnIff(ms, CutOf(ms, p).head, CutOf(ms, p).tailPos, CutOf(ms, p).tailStart);
  }

  lemma {:induction false} CutBefore(ms: seq<Message>, head: nat, pos: nat, begin: nat)
    requires Viewable(ms) && LastSummary(ms) >= 0 && head <= pos <= ms[LastSummary(ms)].compaction.value.head && begin <= |ms|
    requires pos <= |View(ms)| && UserRequests(View(ms)[head..pos]) == UserRequests(ms[head..pos])
    ensures PassesListOn(ms, head, pos, begin) <==> LeftOut(ms, head, pos, begin) == []
  {
    var info := ms[LastSummary(ms)].compaction.value;
    SplitRequests(ms, head, pos, info.head);
    NothingBehind(UserRequests(ms[head..pos]), UserRequests(ms[pos..info.head]), info.userMessages, Asked(ms, TailBegin(ms), begin));
  }

  lemma {:induction false} CutBehind(ms: seq<Message>, head: nat, pos: nat, begin: nat)
    requires Viewable(ms) && LastSummary(ms) >= 0 && begin <= |ms|
    requires var info := ms[LastSummary(ms)].compaction.value;
             && info.head < pos <= |View(ms)| && head <= pos
             && UserRequests(View(ms)[head..pos]) ==
                  (if head <= info.head then UserRequests(ms[head..info.head]) + info.userMessages else [])
                  + Asked(ms, TailBegin(ms), begin)
    ensures var info := ms[LastSummary(ms)].compaction.value;
            PassesListOn(ms, head, pos, begin) <==> head <= info.head || LeftOut(ms, head, pos, begin) == []
  {
    var info := ms[LastSummary(ms)].compaction.value;
    if head > info.head {
      assert ms[info.head..info.head] == [];
      NothingBefore(info.userMessages, Asked(ms, TailBegin(ms), begin));
    }
  }

  lemma {:induction false} SplitRequests(ms: seq<Message>, a: nat, b: nat, c: nat)
    requires a <= b <= c <= |ms|
    ensures UserRequests(ms[a..c]) == UserRequests(ms[a..b]) + UserRequests(ms[b..c])
  {
    assert ms[a..c] == ms[a..b] + ms[b..c];
    UserRequestsConcat(ms[a..b], ms[b..c]);
  }

  lemma {:induction false} NothingBehind(a: seq<string>, b: seq<string>, list: seq<string>, rest: seq<string>)
    ensures a == a + b + list + rest <==> b + list + rest == []
  {
    assert |a + b + list + rest| == |a| + |b + list + rest|;
    if b + list + rest == [] {
      assert a + b + list + rest == a + (b + list + rest);
      Seqs.Empty(a);
    }
  }

  lemma {:induction false} NothingBefore(list: seq<string>, rest: seq<string>)
    ensures [] + rest == [] + list + rest <==> list == []
  {
    assert |[] + list + rest| == |list| + |rest|;
    Seqs.Empty(rest);
  }

  lemma {:induction false} CutOfTail(ms: seq<Message>, from: nat, q: nat, begin: nat)
    requires from <= |ms| && q <= |PlainIndices(ms, from, |ms|)|
    requires begin == if q < |PlainIndices(ms, from, |ms|)| then PlainIndices(ms, from, |ms|)[q] else |ms|
    ensures from <= begin <= |ms| && PlainIndices(ms, from, |ms|)[..q] == PlainIndices(ms, from, begin)
  {
    if q < |PlainIndices(ms, from, |ms|)| {
      PlainCut(ms, from, |ms|, q);
    }
  }

  /** A slice of a view made of a head, a summary and a tail. */
  lemma {:induction false} SliceOfView(ms: seq<Message>, h: nat, last: nat, tail: seq<nat>, from: nat, to: nat)
    requires h <= |ms| && last < |ms| && forall i :: 0 <= i < |tail| ==> tail[i] < |ms|
    requires h < to <= h + 1 + |tail| && from <= h + 1
    ensures var view := Pick(ms, UpTo(h) + [last] + tail);
            && |view| == h + 1 + |tail|
            && (from <= h ==> view[from..to] == ms[from..h] + [ms[last]] + Pick(ms, tail[..to - h - 1]))
            && (from == h + 1 ==> view[from..to] == Pick(ms, tail[..to - h - 1]))
  {
  }

  lemma {:induction false} RequestsAround(before: seq<Message>, summary: Message, after: seq<Message>)
    requires summary.compaction.Some?
    ensures UserRequests(before + [summary] + after)
         == UserRequests(before) + summary.compaction.value.userMessages + UserRequests(after)
  {
    var list := summary.compaction.value.userMessages;
    UserRequestsConcat(before + [summary], after);
    UserRequestsConcat(before, [summary]);
    assert [summary][..0] == [];
    Seqs.Empty(list);
  }

  /** What was asked between a cut and the tail that is counted, moved on by the results put in: in no list and in no tail. */
  function SkippedAt(ms: seq<Message>, closers: seq<Message>, head: nat, tailStart: nat): seq<string>
    requires head <= |ms| && tailStart <= |ms|
  {
    Asked(ms + closers, tailStart, Max(tailStart + |closers|, head))
  }

  function Skipped(ms: seq<Message>, p: Params): seq<string>
    requires WellFormed(ms)
  {
    SkippedAt(ms, Closers(ms, [SummaryMessage(ms, p)]), CutOf(ms, p).head, CutOf(ms, p).tailStart)
  }

  /**
    Everything asked is in three parts: what the latest summary lists, what was skipped, and what the tail
    says. The view tells the first and the last, up to the cap.
   */
  predicate AskedInParts(ms: seq<Message>, before: seq<string>, skipped: seq<string>)
    requires Viewable(ms) && LastSummary(ms) >= 0
  {
    var info := ms[LastSummary(ms)].compaction.value;
    var after := Asked(ms, TailBegin(ms), |ms|);
    && info.head <= TailBegin(ms) && info.head <= |View(ms)|
    && Asked(ms, info.head, TailBegin(ms)) == before + skipped
    && Asked(ms, info.head, |ms|) == before + skipped + after
    && info.userMessages == Capped(before)
    && Capped(UserRequests(View(ms)[info.head..])) == Capped(before + after)
  }

  /** The history after a compaction, with what it skipped. */
  ghost predicate SkipsOnly(next: seq<Message>, before: seq<string>, skipped: seq<string>) {
    WellFormed(next) && LastSummary(next) >= 0 && AskedInParts(next, before, skipped) && (skipped == [] ==> Carried(next))
  }

  /**
    The old list survives: the head has not grown, the cut lies behind the old summary, and nothing was asked
    in the part by which the head has shrunk. A stable head is one way.
   */
  predicate KeepsList(ms: seq<Message>, p: Params)
    requires WellFormed(ms)
  {
    LastSummary(ms) >= 0 ==>
      var info, c := ms[LastSummary(ms)].compaction.value, CutOf(ms, p);
      c.head <= info.head < c.tailPos && UserRequests(ms[c.head..info.head]) == []
  }

  lemma {:induction false} StableHeadKeepsList(ms: seq<Message>, p: Params)
    requires WellFormed(ms) && StableHead(ms, p)
    ensures KeepsList(ms, p)
  {
    StableHeadCuts(ms, p);
  }

  /** Where the old list survives a compaction loses, beyond the cap, exactly what was asked between its cut and the tail it counts. */
  lemma {:induction false} CompactionAccounts(ms: seq<Message>, p: Params)
    requires Carried(ms) && Compacted(ms, p).Some? && KeepsList(ms, p)
    ensures SkipsOnly(Compacted(ms, p).value, Asked(ms, CutOf(ms, p).head, CutOf(ms, p).tailStart), Skipped(ms, p))
  {
    var s, head, tailStart := SummaryMessage(ms, p), CutOf(ms, p).head, CutOf(ms, p).tailStart;
    SummaryLists(ms, p);
    CompactedIs(ms, p);
    AppendedSummary(ms, s, head, |ms| - tailStart);
    PartsOfAsked(ms, s, Closers(ms, [s]), head, tailStart, Compacted(ms, p).value, Asked(ms, head, tailStart), Skipped(ms, p));
  }

  /** What the summary lists and the tail says is everything asked if and only if nothing was skipped. */
  lemma {:induction false} CompactionLosesNothingIff(ms: seq<Message>, p: Params)
    requires Carried(ms) && Compacted(ms, p).Some? && KeepsList(ms, p)
    ensures SkipsOnly(Compacted(ms, p).value, Asked(ms, CutOf(ms, p).head, CutOf(ms, p).tailStart), Skipped(ms, p))
    ensures var next, c := Compacted(ms, p).value, CutOf(ms, p);
            var told := Asked(ms, c.head, c.tailStart) + Asked(next, TailBegin(next), |next|);
            Asked(next, next[LastSummary(next)].compaction.value.head, |next|) == told <==> Skipped(ms, p) == []
  {
    CompactionAccounts(ms, p);
    var next := Compacted(ms, p).value;
    Longer(Asked(ms, CutOf(ms, p).head, CutOf(ms, p).tailStart), Skipped(ms, p), Asked(next, TailBegin(next), |next|));
  }

  lemma {:induction false} Longer(a: seq<string>, b: seq<string>, c: seq<string>)
    ensures a + b + c == a + c <==> b == []
  {
    assert |a + b + c| == |a + c| + |b|;
    Seqs.Empty(a);
  }

  lemma {:induction false} CompactedIs(ms: seq<Message>, p: Params)
    requires WellFormed(ms) && Compacted(ms, p).Some?
    ensures Compacted(ms, p).value == Appended(ms, [SummaryMessage(ms, p)])
  {
  }

  /** The new summary lists, up to the cap, what was asked up to the cut. */
  lemma {:induction false} SummaryLists(ms: seq<Message>, p: Params)
    requires Carried(ms) && KeepsList(ms, p)
    ensures var c := CutOf(ms, p);
            c.head <= c.tailStart <= |ms| && SummaryMessage(ms, p).compaction.value.userMessages == Capped(Asked(ms, c.head, c.tailStart))
  {
    var c := CutOf(ms, p);
    KeptCutLiesBehind(ms, p);
    if LastSummary(ms) < 0 {
      CollectedFromWhole(ms, c.head, c.tailPos, c.tailStart);
    } else {
      CollectedPastSummary(ms, c.head, c.tailPos, c.tailStart);
    }
  }

  /** Nothing is skipped where no call is open. */
  lemma {:induction false} NoOpenCallSkipsNothing(ms: seq<Message>, p: Params)
    requires WellFormed(ms) && KeepsList(ms, p) && NoOpenCall(ms)
    ensures Skipped(ms, p) == []
  {
    KeptCutLiesBehind(ms, p);
    NoClosersNeeded(ms, SummaryMessage(ms, p));
    SkipsNothingAt(ms, CutOf(ms, p).head, CutOf(ms, p).tailStart);
  }

  lemma {:induction false} KeptCutLiesBehind(ms: seq<Message>, p: Params)
    requires WellFormed(ms) && KeepsList(ms, p)
    ensures CutOf(ms, p).head <= CutOf(ms, p).tailStart <= |ms|
  {
    var c := CutOf(ms, p);
    if LastSummary(ms) >= 0 {
      RequestsOfCut(ms, c.head, c.tailPos, c.tailStart);
    }
  }

  lemma {:induction false} SkipsNothingAt(ms: seq<Message>, head: nat, tailStart: nat)
    requires head <= tailStart <= |ms|
    ensures SkippedAt(ms, [], head, tailStart) == []
  {
  }

  /** A summary whose list is the capped list of what was asked up to `tailStart`, behind the results put in. */
  lemma {:induction false} PartsOfAsked(
      ms: seq<Message>, s: Message, closers: seq<Message>, head: nat, tailStart: nat,
      next: seq<Message>, before: seq<string>, skipped: seq<string>)
    requires head <= tailStart <= |ms| && IsSummary(s, head, |ms| - tailStart) && next == ms + closers + [s] && WellFormed(next)
    requires before == Asked(ms, head, tailStart) && s.compaction.value.userMessages == Capped(before)
    requires skipped == SkippedAt(ms, closers, head, tailStart)
    ensures SkipsOnly(next, before, skipped)
  {
    var e, from := ms + closers, Max(tailStart + |closers|, head);
    ViewAtSummary(e, s);
    Seqs.Snoc(e, s);
    AskedAgree(ms, closers, head, tailStart);
    AskedAgree(e, [s], tailStart, from);
    AskedAgree(e, [s], head, tailStart);
    TailOfNext(e, s, head, from);
    ComposeParts(next, tailStart, before, skipped);
  }

  lemma {:induction false} TailOfNext(e: seq<Message>, s: Message, head: nat, from: nat)
    requires !Plain(s) && s.compaction.value.head == head <= |e| && from == TailAt(|e|, s.compaction.value)
    ensures Viewable(e + [s]) && LastSummary(e + [s]) == |e| && TailBegin(e + [s]) == from && (e + [s])[|e|] == s
  {
    ViewAtSummary(e, s);
    Seqs.Snoc(e, s);
  }

  lemma {:induction false} ComposeParts(next: seq<Message>, tailStart: nat, before: seq<string>, skipped: seq<string>)
    requires WellFormed(next) && LastSummary(next) >= 0 && TailBegin(next) <= |next|
    requires var info := next[LastSummary(next)].compaction.value;
             && info.head <= tailStart <= TailBegin(next) && info.userMessages == Capped(before)
             && before == Asked(next, info.head, tailStart) && skipped == Asked(next, tailStart, TailBegin(next))
    ensures SkipsOnly(next, before, skipped)
  {
    var info, from := next[LastSummary(next)].compaction.value, TailBegin(next);
    AskedSplit(next, info.head, tailStart, from);
    AskedSplit(next, info.head, from, |next|);
    ViewListAndTail(next);
    CapOfCap(before, Asked(next, from, |next|));
    Seqs.Empty(before);
  }

  /** Past the head a view tells the summary's list and what is asked in the tail. */
  lemma {:induction false} ViewListAndTail(ms: seq<Message>)
    requires Viewable(ms) && LastSummary(ms) >= 0
    ensures var info := ms[LastSummary(ms)].compaction.value;
            && info.head <= |View(ms)|
            && UserRequests(View(ms)[info.head..]) == info.userMessages + Asked(ms, TailBegin(ms), |ms|)
  {
    var last := LastSummary(ms);
    var head := ms[last].compaction.value.head;
    ViewFromSummary(ms);
    RequestsAround(ms[head..head], ms[last], Pick(ms, PlainIndices(ms, TailBegin(ms), |ms|)));
    assert UserRequests(ms[head..head]) == [];
    Seqs.Empty(ms[last].compaction.value.userMessages);
  }

  /** What a cut at `pos` collects is, up to the cap, everything asked between the head and the message there. */
  predicate Collects(ms: seq<Message>, head: nat, pos: nat, begin: nat)
    requires Viewable(ms)
  {
    head <= begin <= |ms| && head <= pos <= |View(ms)| &&
    Capped(UserRequests(View(ms)[head..pos])) == Capped(Asked(ms, head, begin))
  }

  lemma {:induction false} CollectedFromWhole(ms: seq<Message>, head: nat, pos: nat, begin: nat)
    requires LastSummary(ms) < 0 && head <= pos <= |ContextIndices(ms)|
    requires begin == if pos < |ContextIndices(ms)| then ContextIndices(ms)[pos] else |ms|
    ensures Collects(ms, head, pos, begin)
  {
    SliceOfWholeView(ms, head, pos);
  }

  lemma {:induction false} CollectedPastSummary(ms: seq<Message>, head: nat, pos: nat, begin: nat)
    requires Carried(ms) && IsHead(ms, head) && head <= pos <= |ContextIndices(ms)| && LastSummary(ms) >= 0
    requires var h := ms[LastSummary(ms)].compaction.value.head; head <= h < pos && UserRequests(ms[head..h]) == []
    requires begin == if pos < |ContextIndices(ms)| then ContextIndices(ms)[pos] else |ms|
    ensures Collects(ms, head, pos, begin)
  {
    var info := ms[LastSummary(ms)].compaction.value;
    RequestsOfCut(ms, head, pos, begin);
    CarriedOn(ms, info.head, TailBegin(ms), begin);
    NothingAskedIn(ms, head, info.head, begin);
    assert ms[info.head..info.head] == [];
    Seqs.Empty(info.userMessages);
  }

  /** Where nothing was asked at first, the same is asked without it. */
  lemma {:induction false} NothingAskedIn(ms: seq<Message>, a: nat, m: nat, b: nat)
    requires a <= m <= b <= |ms| && UserRequests(ms[a..m]) == []
    ensures Asked(ms, a, b) == Asked(ms, m, b)
  {
    PickIsFilter(ms, a, m);
    NothingInPlain(ms[a..m]);
    AskedSplit(ms, a, m, b);
    Seqs.Empty(Asked(ms, m, b));
  }

  lemma {:induction false} NothingInPlain(ms: seq<Message>)
    requires UserRequests(ms) == []
    ensures UserRequests(PlainOf(ms)) == []
  {
    if ms != [] {
      var e, m := ms[..|ms| - 1], ms[|ms| - 1];
      assert |UserRequests(ms)| == |UserRequests(e)| + |RequestsOf(m)|;
      NothingInPlain(e);
      if Plain(m) {
        Seqs.Snoc(PlainOf(e), m);
      } else {
        Seqs.Empty(PlainOf(e));
      }
    }
  }

  lemma {:induction false} SliceOfWholeView(ms: seq<Message>, a: nat, b: nat)
    requires LastSummary(ms) < 0 && a <= b <= |ms|
    ensures View(ms)[a..b] == Pick(ms, PlainIndices(ms, a, b))
  {
    AllPlain(ms, a, b);
    assert View(ms) == ms;
  }

  lemma {:induction false} CarriedOn(ms: seq<Message>, a: nat, m: nat, b: nat)
    requires a <= m <= b <= |ms|
    ensures Capped(UserRequests(ms[a..a]) + Capped(Asked(ms, a, m)) + Asked(ms, m, b)) == Capped(Asked(ms, a, b))
  {
    AskedSplit(ms, a, m, b);
    CapOfCap(Asked(ms, a, m), Asked(ms, m, b));
    assert UserRequests(ms[a..a]) == [];
    Seqs.Empty(Capped(Asked(ms, a, m)));
  }

  lemma {:induction false} AppendCarriesRequests(ms: seq<Message>, more: seq<Message>)
    requires Carried(ms) && forall m :: m in more ==> Plain(m)
    ensures Carried(ms + more)
  {
    ViewExtends(ms, more);
    var last := LastSummary(ms);
    if last >= 0 {
      assert (ms + more)[last] == ms[last];
      AskedAgree(ms, more, ms[last].compaction.value.head, TailBegin(ms));
    }
  }

  /** The list in the summary followed by the requests verbatim in the tail is, up to the cap, everything asked. */
  lemma {:induction false} ViewTellsEveryRequest(ms: seq<Message>)
    requires Carried(ms) && LastSummary(ms) >= 0
    ensures var head := ms[LastSummary(ms)].compaction.value.head;
            Capped(UserRequests(View(ms)[head..])) == Capped(Asked(ms, head, |ms|))
  {
    var last := LastSummary(ms);
    var head, begin := ms[last].compaction.value.head, TailBegin(ms);
    ViewFromSummary(ms);
    RequestsAround(ms[head..head], ms[last], Pick(ms, PlainIndices(ms, begin, |ms|)));
    CarriedOn(ms, head, begin, |ms|);
  }

  lemma {:induction false} ViewFromSummary(ms: seq<Message>)
    requires Viewable(ms) && LastSummary(ms) >= 0
    ensures var last := LastSummary(ms);
            var head := ms[last].compaction.value.head;
            View(ms)[head..] == ms[head..head] + [ms[last]] + Pick(ms, PlainIndices(ms, TailBegin(ms), |ms|))
  {
    var last := LastSummary(ms);
    var head := ms[last].compaction.value.head;
    var tail := PlainIndices(ms, TailBegin(ms), |ms|);
    SliceOfView(ms, head, last, tail, head, head + 1 + |tail|);
    assert tail[..|tail|] == tail;
    assert View(ms)[head..|View(ms)|] == View(ms)[head..];
  }
}
