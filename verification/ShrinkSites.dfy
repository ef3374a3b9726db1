/** The places where a request is shrunk: before a summary is asked for, and before a query is retried. */
module ShrinkSites {
  import opened Transcript
  import opened Compaction
  import opened Shrink
  import opened ContextView
  import opened ViewHistory
  import opened Repair
  import opened Conversation
  import opened Sessions
  import Seqs
  import Numbers

  // ---- asking for a summary --------------------------------------------------------

  lemma {:induction false} NothingOpenAfter(ms: seq<Message>, n: nat)
    requires n <= |ms| && (n > 0 ==> ms[n - 1].role.System? || ms[n - 1].role.User?)
    ensures OpenCalls(ms[..n]) == {}
  {
    if n > 0 {
      assert ms[..n][|ms[..n]| - 1] == ms[n - 1];
    }
  }

  /** The one way a shrunk request loses its pairing when nothing is open in the part it protects. */
  predicate EndsOnLoneResult(ms: seq<Message>, protect: nat, budget: int)
    requires ms != [] && protect <= |ms|
  {
    LeavesLoneResult(Elided(ms, protect, budget), protect, LastTurnAt(ms), budget)
  }

  lemma {:induction false} SomethingIsLeft(out: seq<Message>, protect: nat, budget: int)
    requires out != []
    ensures DropOldest(out, protect, budget) != []
    decreases |out|
  {
    if Drops(out, protect, budget) {
      SomethingIsLeft(DropTurn(out, protect), protect, budget);
    }
  }

  /** A shrunk request has the protected part of the original. */
  lemma {:induction false} SameProtected(ms: seq<Message>, protect: nat, budget: int)
    requires ms != [] && protect <= |ms|
    ensures var out := Shrunk(ms, protect, budget); out != [] && protect <= |out| && out[..protect] == ms[..protect]
  {
    var k := ShrinkKeepsSuffix(ms, protect, budget);
    SomethingIsLeft(Elided(ms, protect, budget), protect, budget);
  }

  /** What the prompt ends is paired exactly when nothing is open at its end and no lone result is left. */
  ghost predicate PairedUnlessLone(ms: seq<Message>, protect: nat, budget: int, prompt: Message)
    requires ms != [] && protect <= |ms|
  {
    Paired(Shrunk(ms, protect, budget) + [prompt]) <==> NoOpenCall(ms) && !EndsOnLoneResult(ms, protect, budget)
  }

  lemma {:induction false} PromptAdded(ms: seq<Message>, prompt: Message)
    requires prompt.role.User?
    ensures Paired(ms + [prompt]) <==> Paired(ms)
  {
    Seqs.Snoc(ms, prompt);
  }

  lemma {:induction false} ShrunkOnce(ms: seq<Message>, protect: nat, budget: int, prompt: Message)
    requires Closable(ms) && Grounded(ms) && ms != [] && protect <= |ms| && OpenCalls(ms[..protect]) == {} && prompt.role.User?
    ensures PairedUnlessLone(ms, protect, budget, prompt)
  {
    OpenAtEnd(ms);
    PromptAdded(Shrunk(ms, protect, budget), prompt);
    if NoOpenCall(ms) {
      ClosedHeadPairing(ms, protect, budget);
    } else {
      OpenStaysOpen(ms, protect, budget);
    }
  }

  lemma {:induction false} ShrunkTwice(ms: seq<Message>, protect: nat, budget: int, half: int, prompt: Message)
    requires Closable(ms) && Grounded(ms) && ms != [] && protect <= |ms| && OpenCalls(ms[..protect]) == {} && prompt.role.User?
    ensures var once := Shrunk(ms, protect, budget);
            && once != [] && protect <= |once|
            && (NoOpenCall(ms) && !EndsOnLoneResult(ms, protect, budget) ==> PairedUnlessLone(once, protect, half, prompt))
            && (!NoOpenCall(ms) ==> !Paired(Shrunk(once, protect, half) + [prompt]))
  {
    var once := Shrunk(ms, protect, budget);
    SameProtected(ms, protect, budget);
    if !NoOpenCall(ms) {
      OpenStaysOpen(ms, protect, budget);
      OpenStaysOpen(once, protect, half);
      PromptAdded(Shrunk(once, protect, half), prompt);
    } else if !EndsOnLoneResult(ms, protect, budget) {
      ShrunkOnce(ms, protect, budget, prompt);
      PromptAdded(once, prompt);
      ShrunkOnce(once, protect, half, prompt);
    }
  }

  /** A view that mirrors a closable history is closable: it ends on the same message. */
  lemma {:induction false} ViewClosable(ms: seq<Message>)
    requires Viewed(ms, true) && Closable(ms)
    ensures Closable(View(ms)) && (NoOpenCall(View(ms)) <==> NoOpenCall(ms))
  {
    OpenAtEnd(ms);
    if Pending(ms) != {} {
      EndOfIndices(ms);
    }
    OpenAtEnd(View(ms));
  }

  /**
    The query for a summary protects head and old summary. Shrunk once, and once more when the provider
    still overflows, it is paired exactly when no call is open and the last turn does not end as a lone
    result; over an open call no shrinking pairs it.
   */
  lemma {:induction false} SummaryRequestPairing(ms: seq<Message>, p: Params, budget: int, half: int, prompt: Message)
    requires Viewed(ms, true) && Closable(ms) && View(ms) != [] && prompt.role.User?
    ensures var view, lower := View(ms), CutOf(ms, p).lower;
            var once := Shrunk(view, lower, budget);
            && lower <= |view| && PairedUnlessLone(view, lower, budget, prompt)
            && once != [] && lower <= |once|
            && (NoOpenCall(ms) && !EndsOnLoneResult(view, lower, budget) ==> PairedUnlessLone(once, lower, half, prompt))
            && (!NoOpenCall(ms) ==> !Paired(Shrunk(once, lower, half) + [prompt]))
  {
    ViewClosable(ms);
    ProtectedEnd(ms, p);
    NothingOpenAfter(View(ms), CutOf(ms, p).lower);
    ShrunkOnce(View(ms), CutOf(ms, p).lower, budget, prompt);
    ShrunkTwice(View(ms), CutOf(ms, p).lower, budget, half, prompt);
  }

  // ---- the size of the view --------------------------------------------------------

  /** A tail fits what is kept, or is the last turn. */
  lemma {:induction false} TailIsSmall(view: seq<Message>, lower: nat, keep: int)
    requires Grounded(view) && lower <= |view| && view != []
    requires lower > 0 ==> view[lower - 1].role.System? || view[lower - 1].role.User?
    ensures var r := TailStart(view, lower, keep);
            && lower <= r <= |view|
            && MessagesChars(view[r..]) <= Numbers.Max(Numbers.Max(keep, 0), MessagesChars(view[LastTurnAt(view)..]))
  {
    var r := TailStart(view, lower, keep);
    TailIsLongestFit(view, lower, keep);
    TailOpensOnNoResult(view, lower, keep);
    LastTurnIs(view);
    if r == |view| {
      assert view[r..] == [];
    } else if !Fits(view, r, keep) {
      assert r == LastTurnAt(view);
    }
  }

  lemma {:induction false} PartsChars(head: seq<Message>, s: Message, tail: seq<Message>)
    ensures MessagesChars(head + [s] + tail) == MessagesChars(head) + MessageChars(s) + MessagesChars(tail)
  {
    CharsConcat(head + [s], tail);
    CharsConcat(head, [s]);
    assert [s][1..] == [];
  }

  /** The head, the summary, and what was to be kept or, if that is more, the last turn. */
  function SizeBound(head: seq<Message>, s: Message, view: seq<Message>, keep: int): int
    requires Grounded(view) && view != []
  {
    MessagesChars(head) + MessageChars(s) + Numbers.Max(Numbers.Max(keep, 0), MessagesChars(view[LastTurnAt(view)..]))
  }

  /**
    After a compaction with a clean cut the view is as small as promised: the head, the summary, and a
    tail no larger than what was to be kept, or than the last turn if that alone is larger.
   */
  lemma {:induction false} ViewIsSmall(ms: seq<Message>, p: Params)
    requires WellFormed(ms) && Grounded(View(ms)) && View(ms) != [] && Compacted(ms, p).Some? && CleanCut(ms, p)
    ensures WellFormed(Compacted(ms, p).value)
    ensures MessagesChars(View(Compacted(ms, p).value)) <= SizeBound(ms[..CutOf(ms, p).head], SummaryMessage(ms, p), View(ms), p.keepChars)
  {
    ViewAfterCompaction(ms, p);
    CutViewIsSmall(ms, p);
  }

  lemma {:induction false} CutViewIsSmall(ms: seq<Message>, p: Params)
    requires WellFormed(ms) && Grounded(View(ms)) && View(ms) != []
    ensures MessagesChars(CutView(ms, p)) <= SizeBound(ms[..CutOf(ms, p).head], SummaryMessage(ms, p), View(ms), p.keepChars)
  {
    ProtectedEnd(ms, p);
    CutIsSmall(ms, CutOf(ms, p), p.keepChars, View(ms), SummaryMessage(ms, p));
  }

  lemma {:induction false} CutIsSmall(ms: seq<Message>, c: Cut, keep: int, view: seq<Message>, s: Message)
    requires Grounded(view) && view != [] && c.head <= |ms| && c.lower <= |view| && c.tailPos <= |view|
    requires c.tailPos == TailStart(view, c.lower, keep)
    requires c.lower > 0 ==> view[c.lower - 1].role.System? || view[c.lower - 1].role.User?
    ensures MessagesChars(ms[..c.head] + [s] + view[c.tailPos..]) <= SizeBound(ms[..c.head], s, view, keep)
  {
    TailIsSmall(view, c.lower, keep);
    PartsChars(ms[..c.head], s, view[c.tailPos..]);
  }

  // ---- retrying a query ------------------------------------------------------------

  /** What the retry protects: it takes the first user message of the view for the task, and one message more. */
  function RetryProtects(view: seq<Message>, maxChars: int): nat {
    HeadLength(view, maxChars) + 1
  }

  /**
    The summary, at `head`, is taken for the task, because the head left the task out, and the one message
    more is a call whose results come after it.
   */
  predicate ProtectsCall(view: seq<Message>, head: nat, maxChars: int)
    requires head < |view|
  {
    && head == SystemPrefix(view) && MessageChars(view[head]) <= maxChars
    && head + 1 < |view| && view[head + 1].role.Assistant? && CallIds(view[head + 1]) != {}
  }

  /** A paired view whose summary stands behind the system messages, with or without the task between. */
  ghost predicate ViewWithSummary(view: seq<Message>, head: nat) {
    && Paired(view) && head < |view| && view[head].role.User? && SystemPrefix(view) <= head <= SystemPrefix(view) + 1
    && (head > SystemPrefix(view) ==> view[head - 1].role.User?)
  }

  lemma {:induction false} FrontOfView(ms: seq<Message>)
    requires WellFormed(ms) && LastSummary(ms) >= 0 && Paired(View(ms))
    ensures ViewWithSummary(View(ms), ms[LastSummary(ms)].compaction.value.head)
  {
    var view, last := View(ms), LastSummary(ms);
    var head := ms[last].compaction.value.head;
    HeadOfView(ms);
    SamePrefix(view, ms, head);
  }

  lemma {:induction false} SamePrefix(a: seq<Message>, b: seq<Message>, head: nat)
    requires head < |a| && head <= |b| && a[..head] == b[..head] && a[head].role.User?
    requires head == SystemPrefix(b) || (head == SystemPrefix(b) + 1 && b[head - 1].role.User?)
    ensures SystemPrefix(a) == SystemPrefix(b) && (head > 0 ==> a[head - 1] == b[head - 1])
  {
    assert forall i :: 0 <= i < head ==> a[i] == a[..head][i] == b[i];
  }

  /** The last protected message is a system or user message, or the one after the summary. */
  lemma {:induction false} LastProtected(view: seq<Message>, head: nat, maxChars: int)
    requires ViewWithSummary(view, head) && RetryProtects(view, maxChars) <= |view|
    ensures var m := view[RetryProtects(view, maxChars) - 1];
            && !m.role.Tool?
            && (ProtectsCall(view, head, maxChars) <==> m.role.Assistant? && CallIds(m) != {})
  {
    var protect := RetryProtects(view, maxChars);
    if protect == head + 2 {
      FollowsSummary(view, head);
    }
  }

  /** What follows the summary in a paired view is no result. */
  lemma {:induction false} FollowsSummary(view: seq<Message>, head: nat)
    requires Paired(view) && head + 1 < |view| && view[head].role.User?
    ensures !view[head + 1].role.Tool?
  {
    GroundedAt(view, head + 1);
    assert view[..head + 1][|view[..head + 1]| - 1] == view[head];
  }

  lemma {:induction false} OpenAt(ms: seq<Message>, n: nat)
    requires 0 < n <= |ms| && !ms[n - 1].role.Tool?
    ensures OpenCalls(ms[..n]) == Pending(ms[..n]) == if ms[n - 1].role.Assistant? then CallIds(ms[n - 1]) else {}
  {
    assert ms[..n][|ms[..n]| - 1] == ms[n - 1];
  }

  /** A retried query stays paired exactly when this holds. */
  predicate RetryKeepsPairing(view: seq<Message>, head: nat, maxChars: int, budget: int)
    requires head < |view|
  {
    var protect := RetryProtects(view, maxChars);
    Drops(Elided(view, protect, budget), protect, budget) ==>
      if EndsOnLoneResult(view, protect, budget)
      then ProtectsCall(view, head, maxChars) && CallIds(view[protect - 1]) == {view[|view| - 1].answers}
      else !ProtectsCall(view, head, maxChars)
  }

  lemma {:induction false} RetryViewPairing(view: seq<Message>, head: nat, maxChars: int, budget: int)
    requires ViewWithSummary(view, head)
    ensures Paired(Shrunk(view, RetryProtects(view, maxChars), budget)) <==> RetryKeepsPairing(view, head, maxChars, budget)
  {
    var protect := RetryProtects(view, maxChars);
    ShrinkPairing(view, protect, budget);
    if Drops(Elided(view, protect, budget), protect, budget) {
      LastProtected(view, head, maxChars);
      OpenAt(view, protect);
      if EndsOnLoneResult(view, protect, budget) {
        LastIsResult(view);
      }
    }
  }

  lemma {:induction false} LastIsResult(view: seq<Message>)
    requires view != [] && Grounded(view) && |view| - LastTurnAt(view) >= 2
    ensures view[|view| - 1].role.Tool?
  {
    LastTurnIs(view);
  }

  /**
    The retry after an overflow. When the summary passes for the task and a call follows it, dropping
    anything breaks the query, unless all that is left is the one result of that call; otherwise it
    breaks exactly when it leaves a lone result.
   */
  lemma {:induction false} RetryPairing(ms: seq<Message>, maxChars: int, budget: int)
    requires WellFormed(ms) && LastSummary(ms) >= 0 && Paired(View(ms))
    ensures var head := ms[LastSummary(ms)].compaction.value.head;
            && head < |View(ms)|
            && (Paired(Shrunk(View(ms), RetryProtects(View(ms), maxChars), budget)) <==>
                  RetryKeepsPairing(View(ms), head, maxChars, budget))
  {
    FrontOfView(ms);
    RetryViewPairing(View(ms), ms[LastSummary(ms)].compaction.value.head, maxChars, budget);
  }

  // ---- a retry that breaks a turn --------------------------------------------------

  /** A compaction that leaves a long task out of the head and keeps both turns in the tail. */
  lemma {:induction false} CompactsLongTask(x: Session, p: Params)
    requires x.Ok() && MessageChars(x.task) > p.headChars
    requires MessagesChars(x.Turns()) <= p.keepChars < MessagesChars([x.task] + x.Turns())
    ensures var h := x.History();
            && WellFormed(h) && Compacted(h, p) == Some(h + [SummaryMessage(h, p)])
            && IsSummary(SummaryMessage(h, p), 1, 4)
  {
    var h := x.History();
    HistoryPaired(x);
    assert h[1..] == [x.task] + x.Turns() && h[1..][0] == x.task && h[2..] == x.Turns();
    assert HeadLength(h, p.headChars) == 1;
    TailBeginsAt(h, 1, p.keepChars, 2);
    CompactsTo(h, p, 1, 2);
  }

  /**
    A task too long for the head, an overflow, and a retry whose budget has room for the summary: if the
    request has to shrink, it ends on a call without its result.
   */
  lemma {:induction false} RetryBreaksTurn(x: Session, p: Params, maxChars: int, budget: int)
    requires x.Ok() && MessageChars(x.task) > p.headChars
    requires MessagesChars(x.Turns()) <= p.keepChars < MessagesChars([x.task] + x.Turns())
    requires WellFormed(x.History()) && MessageChars(SummaryMessage(x.History(), p)) <= maxChars
    requires var view := [x.system, SummaryMessage(x.History(), p)] + x.Turns(); MessagesChars(Elided(view, 3, budget)) > budget
    ensures Compacted(x.History(), p).Some?
    ensures var ms, view := Compacted(x.History(), p).value, [x.system, SummaryMessage(x.History(), p)] + x.Turns();
            && WellFormed(ms) && View(ms) == view && Paired(view) && RetryProtects(view, maxChars) == 3
            && !Paired(Shrunk(view, 3, budget))
  {
    var s := SummaryMessage(x.History(), p);
    CompactsLongTask(x, p);
    LongTaskView(x, s);
    RetryOfTurns(x, s, maxChars, budget);
  }

  lemma {:induction false} LongTaskView(x: Session, s: Message)
    requires x.Ok() && IsSummary(s, 1, 4)
    ensures WellFormed(x.History() + [s]) && View(x.History() + [s]) == [x.system, s] + x.Turns()
  {
    LongTaskHead(x, s);
    LongTaskParts(x);
    ViewOfTurns(x.History(), s, x.system, x.Turns());
  }

  lemma {:induction false} ViewOfTurns(h: seq<Message>, s: Message, system: Message, turns: seq<Message>)
    requires IsSummary(s, 1, 4) && |h| == 6 && h[..1] == [system] && h[2..] == turns && forall m :: m in turns ==> Plain(m)
    ensures Viewable(h + [s]) && View(h + [s]) == [system, s] + turns
  {
    ViewAtSummary(h, s);
    assert TailAt(6, s.compaction.value) == 2;
    PlainAll(turns);
    Pair(system, s);
  }

  lemma {:induction false} Pair(a: Message, b: Message)
    ensures [a] + [b] == [a, b]
  {
  }

  lemma {:induction false} LongTaskHead(x: Session, s: Message)
    requires x.Ok() && IsSummary(s, 1, 4)
    ensures WellFormed(x.History() + [s])
  {
    var h := x.History();
    assert h[1..][0] == x.task;
    assert SystemPrefix(h) == 1;
    assert h[5] == x.result2;
    NoClosersNeeded(h, s);
    AppendedSummary(h, s, 1, 4);
  }

  lemma {:induction false} LongTaskParts(x: Session)
    ensures var h := x.History(); |h| == 6 && h[..1] == [x.system] && h[2..] == x.Turns()
    ensures x.Ok() ==> forall m :: m in x.Turns() ==> Plain(m)
  {
  }

  lemma {:induction false} TurnsPaired(x: Session, s: Message)
    requires x.Ok() && s.role.User?
    ensures Paired([x.system, s] + x.Turns())
  {
    NoCallsPaired([x.system, s]);
    AnsweredTurn([x.system, s], x.call1, x.result1);
    AnsweredTurn([x.system, s] + [x.call1, x.result1], x.call2, x.result2);
    assert [x.system, s] + [x.call1, x.result1] + [x.call2, x.result2] == [x.system, s] + x.Turns();
  }

  lemma {:induction false} RetryOfTurns(x: Session, s: Message, maxChars: int, budget: int)
    requires x.Ok() && s.role.User? && MessageChars(s) <= maxChars
    requires MessagesChars(Elided([x.system, s] + x.Turns(), 3, budget)) > budget
    ensures var view := [x.system, s] + x.Turns();
            Paired(view) && RetryProtects(view, maxChars) == 3 && !Paired(Shrunk(view, 3, budget))
  {
    var view := [x.system, s] + x.Turns();
    TurnsPaired(x, s);
    PlaceOfCalls(x, s, view);
    RetryViewPairing(view, 1, maxChars, budget);
  }

  lemma {:induction false} PlaceOfCalls(x: Session, s: Message, view: seq<Message>)
    requires x.Ok() && s.role.User? && view == [x.system, s] + x.Turns()
    ensures SystemPrefix(view) == 1 && view[1] == s && view[2] == x.call1 && LastTurnAt(view) == 4
  {
    assert view[1..][0] == s;
    assert view[4] == x.call2 && view[5] == x.result2;
    assert BackOverTools(view, 0, 4) == 4;
  }
}
