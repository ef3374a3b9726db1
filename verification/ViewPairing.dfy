/** When the view of a paired history is paired, exactly. */
module ViewPairing {
  import opened Transcript
  import opened Repair
  import opened Compaction
  import opened Numbers
  import opened ContextView
  import opened ViewHistory
  import Seqs

  ghost predicate UserSummaries(ms: seq<Message>) {
    forall i :: 0 <= i < |ms| && !Plain(ms[i]) ==> ms[i].role.User?
  }

  /** A view that says the same as the history about what is open. */
  ghost predicate Mirrors(view: seq<Message>, ms: seq<Message>) {
    Clean(view) && Grounded(view) && Pending(view) == Pending(ms) && OpenCalls(ms) <= OpenCalls(view)
  }

  lemma {:induction false} MirrorStep(view: seq<Message>, ms: seq<Message>, m: Message)
    requires Mirrors(view, ms) && Clean(ms + [m]) && Grounded(ms + [m])
    ensures Mirrors(view + [m], ms + [m])
  {
    assert (ms + [m])[..|ms|] == ms;
    assert (view + [m])[..|view|] == view;
  }

  /** Leaving out summaries leaves nothing unanswered and nothing unasked. */
  lemma {:induction false} PlainMirrors(ms: seq<Message>)
    requires Clean(ms) && Grounded(ms) && UserSummaries(ms)
    ensures Mirrors(PlainOf(ms), ms)
  {
    if ms != [] {
      var e, m := ms[..|ms| - 1], ms[|ms| - 1];
      Seqs.LastApart(ms, e, m);
      PlainMirrors(e);
      if Plain(m) {
        MirrorStep(PlainOf(e), e, m);
      } else {
        Seqs.Empty(PlainOf(e));
      }
    }
  }

  /** A tail may follow a summary when it is empty or does not open on a tool result. */
  predicate OpensWell(tail: seq<Message>) {
    tail == [] || !tail[0].role.Tool?
  }

  /** The plain messages from `from` on are paired, unless they open on a result. */
  lemma {:induction false} TailPaired(e: seq<Message>, from: nat)
    requires Paired(e) && from <= |e| && UserSummaries(e) && OpensWell(PlainOf(e[from..]))
    ensures Paired(PlainOf(e[from..]))
  {
    var tail := e[from..];
    Seqs.Cut(e, from);
    FirstIsKept(tail);
    PairedPrefix(e[..from], tail);
    PairedConcat(e[..from], tail);
    assert UserSummaries(tail);
    PlainMirrors(tail);
  }

  /** A first result is no summary, so it is the first plain message. */
  lemma {:induction false} FirstIsKept(ms: seq<Message>)
    requires UserSummaries(ms)
    ensures ms != [] && ms[0].role.Tool? ==> !OpensWell(PlainOf(ms))
  {
    if ms != [] && ms[0].role.Tool? {
      FirstPlain(ms);
    }
  }

  lemma {:induction false} FirstPlain(ms: seq<Message>)
    requires ms != [] && Plain(ms[0])
    ensures PlainOf(ms) != [] && PlainOf(ms)[0] == ms[0]
  {
    if |ms| > 1 {
      FirstPlain(ms[..|ms| - 1]);
    }
  }

  /** A head, a user message and a tail: whether they are paired shows at their two seams. */
  lemma {:induction false} SeamsPaired(head: seq<Message>, s: Message, tail: seq<Message>)
    requires Clean(head) && Grounded(head) && s.role.User? && (OpensWell(tail) ==> Paired(tail))
    ensures Paired(head + [s] + tail) <==> Pending(head) == {} && OpensWell(tail)
    ensures !OpensWell(tail) ==> !Grounded(head + [s] + tail)
  {
    var front := head + [s];
    Seqs.Snoc(head, s);
    if Pending(head) == {} && OpensWell(tail) {
      PairedConcat(front, tail);
    } else if Pending(head) != {} {
      if Clean(front + tail) {
        CleanPrefix(front, tail);
      }
    }
    if !OpensWell(tail) {
      ResultAfterUser(front, tail);
    }
  }

  lemma {:induction false} ResultAfterUser(front: seq<Message>, tail: seq<Message>)
    requires front != [] && front[|front| - 1].role.User? && tail != [] && tail[0].role.Tool?
    ensures !Grounded(front + tail)
  {
    assert (front + tail)[..|front|] == front && (front + tail)[|front|] == tail[0];
    if Grounded(front + tail) {
      GroundedAt(front + tail, |front|);
    }
  }

  // ---- the view of a paired history ------------------------------------------------

  /** The head that a summary records leaves no call open, and the tail it counts does not open on a result. */
  predicate SeamsBefore(e: seq<Message>, info: Record)
    requires info.head <= |e|
  {
    Pending(e[..info.head]) == {} && OpensWell(PlainOf(e[TailAt(|e|, info)..]))
  }

  /** The seams of the latest summary hold. */
  predicate SeamsHold(ms: seq<Message>)
    requires Viewable(ms)
  {
    LastSummary(ms) >= 0 ==> SeamsBefore(ms[..LastSummary(ms)], ms[LastSummary(ms)].compaction.value)
  }

  /** The view of a paired history is paired if and only if the seams hold. */
  lemma {:induction false} ViewPairedIff(ms: seq<Message>)
    requires Paired(ms) && Viewable(ms) && UserSummaries(ms)
    ensures Paired(View(ms)) <==> SeamsHold(ms)
  {
    var last := LastSummary(ms);
    if last < 0 {
      NoSummaries(ms);
    } else {
      var e, s, d := ms[..last], ms[last], ms[last + 1..];
      SplitAt(ms, last);
      SummariesBefore(ms, last);
      PlainFrom(ms, last + 1);
      SeamsAround(e, s, d);
    }
  }

  lemma {:induction false} NoSummaries(ms: seq<Message>)
    requires LastSummary(ms) < 0
    ensures Viewable(ms) && View(ms) == ms
  {
    PlainFrom(ms, 0);
    assert ms[0..] == ms;
    ViewOfPlain(ms);
  }

  lemma {:induction false} PlainFrom(h: seq<Message>, n: nat)
    requires n <= |h| && forall i :: n <= i < |h| ==> Plain(h[i])
    ensures forall m :: m in h[n..] ==> Plain(m)
  {
  }

  lemma {:induction false} SummariesBefore(ms: seq<Message>, n: nat)
    requires n < |ms| && UserSummaries(ms)
    ensures UserSummaries(ms[..n]) && (!Plain(ms[n]) ==> ms[n].role.User?)
  {
  }

  lemma {:induction false} SeamsAround(e: seq<Message>, s: Message, d: seq<Message>)
    requires Paired(e + [s] + d) && UserSummaries(e) && !Plain(s) && s.role.User? && s.compaction.value.head <= |e|
    requires forall m :: m in d ==> Plain(m)
    ensures Viewable(e + [s] + d) && (Paired(View(e + [s] + d)) <==> SeamsBefore(e, s.compaction.value))
  {
    AroundSummary(e, s, d);
    SeamsAt(e, s);
    ViewPast(e, s, d);
    ThenPaired(View(e + [s]), d);
  }

  lemma {:induction false} SplitAt(h: seq<Message>, last: nat)
    requires last < |h|
    ensures h == h[..last] + ([h[last]] + h[last + 1..]) == h[..last] + [h[last]] + h[last + 1..]
  {
  }

  /** What precedes and what follows a user message in a paired history. */
  lemma {:induction false} AroundSummary(e: seq<Message>, s: Message, d: seq<Message>)
    requires Paired(e + [s] + d) && s.role.User?
    ensures Paired(e) && Paired(d)
  {
    CleanPrefix(e + [s], d);
    Seqs.Snoc(e, s);
    PairedConcat(e + [s], d);
    if d != [] && d[0].role.Tool? {
      ResultAfterUser(e + [s], d);
    }
  }

  /** The view of a history that ends on its summary. */
  lemma {:induction false} SeamsAt(e: seq<Message>, s: Message)
    requires Paired(e) && UserSummaries(e) && !Plain(s) && s.role.User? && s.compaction.value.head <= |e|
    ensures Viewable(e + [s]) && (Paired(View(e + [s])) <==> SeamsBefore(e, s.compaction.value))
    ensures !OpensWell(PlainOf(e[TailAt(|e|, s.compaction.value)..])) ==> !Grounded(View(e + [s]))
  {
    var info := s.compaction.value;
    ViewAtSummary(e, s);
    Seqs.Cut(e, info.head);
    CleanPrefix(e[..info.head], e[info.head..]);
    if OpensWell(PlainOf(e[TailAt(|e|, info)..])) {
      TailPaired(e, TailAt(|e|, info));
    }
    SeamsPaired(e[..info.head], s, PlainOf(e[TailAt(|e|, info)..]));
  }

  lemma {:induction false} ThenPaired(a: seq<Message>, d: seq<Message>)
    requires Paired(d)
    ensures Paired(a + d) ==> Paired(a)
    ensures Paired(a) ==> Paired(a + d)
  {
    if Paired(a) {
      PairedConcat(a, d);
    }
    if Paired(a + d) {
      if d == [] {
        Seqs.Empty(a);
      } else {
        OpensOnNoResult(d);
        PairedPrefix(a, d);
        CleanPrefix(a, d);
      }
    }
  }

  lemma {:induction false} OpensOnNoResult(d: seq<Message>)
    requires Grounded(d) && d != []
    ensures !d[0].role.Tool?
  {
    GroundedAt(d, 0);
  }

  // ---- the view after a compaction -------------------------------------------------

  /** The tail that begins at `tailStart`, moved on by the results put in, does not open on a result. */
  predicate PairsAt(ms: seq<Message>, closers: seq<Message>, head: nat, tailStart: nat) {
    TailWell(ms + closers, Max(tailStart + |closers|, head))
  }

  predicate TailWell(e: seq<Message>, from: nat) {
    from <= |e| && OpensWell(PlainOf(e[from..]))
  }

  /** What a caller can tell beforehand: the tail that will be counted does not open on a result. */
  predicate PairsAfter(ms: seq<Message>, p: Params)
    requires WellFormed(ms)
  {
    PairsAt(ms, Closers(ms, [SummaryMessage(ms, p)]), CutOf(ms, p).head, CutOf(ms, p).tailStart)
  }

  /** The view after `next` is paired when `well`, and carries a result without its call when not. */
  ghost predicate PairedExactly(next: seq<Message>, well: bool) {
    && Viewable(next) && Paired(next) && UserSummaries(next)
    && (if well then Paired(View(next)) else !Grounded(View(next)))
  }

  /**
    After a compaction the view is paired if and only if the counted tail does not open on a result:
    whether or not a call was open, the head stable, or the old view paired.
   */
  lemma {:induction false} CompactionPairsIff(ms: seq<Message>, p: Params)
    requires WellFormed(ms) && Closable(ms) && Grounded(ms) && UserSummaries(ms) && Compacted(ms, p).Some?
    ensures WellFormed(Compacted(ms, p).value) && PairedExactly(Compacted(ms, p).value, PairsAfter(ms, p))
  {
    var s, c := SummaryMessage(ms, p), CutOf(ms, p);
    CompactedIs(ms, p);
    AppendedSummary(ms, s, c.head, |ms| - c.tailStart);
    SummaryBehind(ms, s, Closers(ms, [s]), c.head, c.tailStart);
  }

  /** A clean cut of a paired view is one way to meet that. */
  lemma {:induction false} CleanCutPairs(ms: seq<Message>, p: Params)
    requires WellFormed(ms) && Closable(ms) && Grounded(ms) && UserSummaries(ms) && Compacted(ms, p).Some?
    requires CleanCut(ms, p) && Paired(View(ms))
    ensures PairsAfter(ms, p)
  {
    CompactionPairsIff(ms, p);
    CompactionKeepsPairing(ms, p);
  }

  /** A summary behind a history and the results put in for it. */
  lemma {:induction false} SummaryBehind(ms: seq<Message>, s: Message, closers: seq<Message>, head: nat, tailStart: nat)
    requires Closable(ms) && Grounded(ms) && UserSummaries(ms) && IsHead(ms, head) && tailStart <= |ms|
    requires IsSummary(s, head, |ms| - tailStart) && closers == Closers(ms, [s])
    ensures PairedExactly(Appended(ms, [s]), PairsAt(ms, closers, head, tailStart))
  {
    ClosedFacts(ms, s, closers, head);
    CountedAt(ms, closers, head, tailStart, s.compaction.value);
    SummaryEnds(ms + closers, s, head, Max(tailStart + |closers|, head), Appended(ms, [s]), PairsAt(ms, closers, head, tailStart));
  }

  lemma {:induction false} CountedAt(ms: seq<Message>, closers: seq<Message>, head: nat, tailStart: nat, info: Record)
    requires tailStart <= |ms| && info.head == head && info.tailMessages == |ms| - tailStart
    ensures TailAt(|ms + closers|, info) == Max(tailStart + |closers|, head)
    ensures PairsAt(ms, closers, head, tailStart) == TailWell(ms + closers, Max(tailStart + |closers|, head))
  {
  }

  lemma {:induction false} ClosedFacts(ms: seq<Message>, s: Message, closers: seq<Message>, head: nat)
    requires Closable(ms) && Grounded(ms) && UserSummaries(ms) && IsHead(ms, head) && s.role.User? && closers == Closers(ms, [s])
    ensures var e := ms + closers;
            Paired(e) && Paired(e + [s]) && UserSummaries(e) && head <= |e| && Pending(e[..head]) == {}
  {
    ClosedPaired(ms, s);
    ClosedSummaries(ms, closers);
    HeadIsQuiet(ms, closers, head);
  }

  lemma {:induction false} SummaryEnds(e: seq<Message>, s: Message, head: nat, from: nat, next: seq<Message>, well: bool)
    requires next == e + [s] && well == TailWell(e, from)
    requires Paired(e) && Paired(e + [s]) && UserSummaries(e) && !Plain(s) && s.role.User?
    requires s.compaction.value.head == head <= |e| && Pending(e[..head]) == {} && from == TailAt(|e|, s.compaction.value)
    ensures PairedExactly(next, well)
  {
    SeamsAt(e, s);
    OneMoreSummary(e, s);
    WellDecides(e, s, from);
  }

  lemma {:induction false} WellDecides(e: seq<Message>, s: Message, from: nat)
    requires !Plain(s) && s.compaction.value.head <= |e| && from == TailAt(|e|, s.compaction.value)
    requires Pending(e[..s.compaction.value.head]) == {}
    ensures from <= |e| && (TailWell(e, from) <==> SeamsBefore(e, s.compaction.value))
    ensures TailWell(e, from) <==> OpensWell(PlainOf(e[TailAt(|e|, s.compaction.value)..]))
  {
  }

  lemma {:induction false} ClosedPaired(ms: seq<Message>, s: Message)
    requires Closable(ms) && Grounded(ms) && s.role.User?
    ensures Paired(ms + Closers(ms, [s])) && Paired(ms + Closers(ms, [s]) + [s])
  {
    var e := ms + Closers(ms, [s]);
    AppendUserCloses(ms, s);
    Seqs.Empty(e + [s]);
    AroundSummary(e, s, []);
  }

  lemma {:induction false} OneMoreSummary(e: seq<Message>, s: Message)
    requires UserSummaries(e) && s.role.User?
    ensures UserSummaries(e + [s])
  {
  }

  lemma {:induction false} ClosedSummaries(ms: seq<Message>, closers: seq<Message>)
    requires UserSummaries(ms) && forall m :: m in closers ==> Plain(m)
    ensures UserSummaries(ms + closers)
  {
  }

  /** The head is system messages and at most a user message. */
  lemma {:induction false} HeadIsQuiet(ms: seq<Message>, closers: seq<Message>, head: nat)
    requires IsHead(ms, head)
    ensures Pending((ms + closers)[..head]) == {}
  {
    assert (ms + closers)[..head] == ms[..head];
    NoCallsPaired(ms[..head]);
  }
}
