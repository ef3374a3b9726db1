/** Sessions whose recorded head or tail holds the task: what resuming them shows. */
module ResumedLimits {
  import opened Transcript
  import opened Compaction
  import opened ContextView
  import opened ViewHistory
  import opened Resume
  import opened ResumedFrame
  import opened ResumedView
  import opened Sessions
  import Seqs

  // ---- dropping one copy -----------------------------------------------------------

  lemma {:induction false} NoCopyNoLoss(ms: seq<Message>, wanted: set<string>)
    requires forall m :: m in ms ==> !IsCopy(m, wanted)
    ensures Collapsed(ms, wanted) == ms
  {
    if ms != [] {
      assert ms[0] in ms;
      NoCopyNoLoss(ms[1..], wanted);
      Seqs.Uncons(ms);
    }
  }

  lemma {:induction false} NoExitsSame(ms: seq<Message>)
    requires forall m :: m in ms ==> !m.role.Exit?
    ensures WithoutExits(ms) == ms
  {
    if ms != [] {
      assert ms[|ms| - 1] in ms;
      NoExitsSame(ms[..|ms| - 1]);
      Seqs.LastApart(ms, ms[..|ms| - 1], ms[|ms| - 1]);
    }
  }

  /** What the model reads first when `stored` is resumed. */
  ghost predicate ResumesTo(stored: seq<Message>, wanted: set<string>, task: Message, view: seq<Message>) {
    var start := StartOf(stored, wanted, task);
    Viewable(start) && View(start) == view
  }

  /** The view of `k`, a summary and a task. */
  function Framed(k: seq<Message>, s: Message, task: Message): seq<Message>
    requires s.compaction.Some? && s.compaction.value.head <= |k|
  {
    var info := s.compaction.value;
    k[..info.head] + [s] + PlainOf(k[TailAt(|k|, info)..]) + [task]
  }

  /** Messages that neither copy the task nor close its turn. */
  ghost predicate Neutral(ms: seq<Message>, wanted: set<string>) {
    forall x :: x in ms ==> !IsCopy(x, wanted) && !x.role.Exit? && !IsSubmission(x)
  }

  /** One unanswered copy before a summary that ends the history: it goes, and the summary counts what is left. */
  lemma {:induction false} DropOneCopy(a: seq<Message>, m: Message, b: seq<Message>, s: Message, wanted: set<string>, task: Message)
    requires IsCopy(m, wanted) && Neutral(a, wanted) && Neutral(b, wanted)
    requires !Plain(s) && s.role.User? && !IsCopy(s, wanted) && s.compaction.value.head <= |a + b|
    requires Paired(a + [m] + b) && task.role.User? && Plain(task)
    ensures ResumesTo(a + [m] + b + [s], wanted, task, Framed(a + b, s, task))
  {
    StartWithoutCopy(a, m, b, s, wanted, task);
    ViewPast(a + b, s, [task]);
    ViewAtSummary(a + b, s);
  }

  lemma {:induction false} StartWithoutCopy(a: seq<Message>, m: Message, b: seq<Message>, s: Message, wanted: set<string>, task: Message)
    requires IsCopy(m, wanted) && Neutral(a, wanted) && Neutral(b, wanted) && s.role.User? && !IsCopy(s, wanted)
    requires Paired(a + [m] + b)
    ensures StartOf(a + [m] + b + [s], wanted, task) == a + b + [s] + [task]
  {
    CopyGoes(a, m, b, s, wanted);
    NoExitsIn(a, m, b, s, wanted);
    SummaryEnds(a + [m] + b, s);
    StartIs(a + [m] + b + [s], wanted, task);
    Seqs.Empty([task]);
  }

  lemma {:induction false} NoExitsIn(a: seq<Message>, m: Message, b: seq<Message>, s: Message, wanted: set<string>)
    requires IsCopy(m, wanted) && Neutral(a, wanted) && Neutral(b, wanted) && s.role.User?
    ensures WithoutExits(a + [m] + b + [s]) == a + [m] + b + [s]
  {
    NoExitsSame(a + [m] + b + [s]);
  }

  lemma {:induction false} SummaryEnds(h: seq<Message>, s: Message)
    requires Paired(h) && s.role.User?
    ensures Clean(h + [s]) && Grounded(h + [s]) && Pending(h + [s]) == {}
  {
    Seqs.Snoc(h, s);
  }

  lemma {:induction false} CopyGoes(a: seq<Message>, m: Message, b: seq<Message>, s: Message, wanted: set<string>)
    requires IsCopy(m, wanted) && Neutral(a, wanted) && Neutral(b, wanted) && s.role.User? && !IsCopy(s, wanted)
    ensures Collapsed(a + [m] + b + [s], wanted) == a + b + [s]
  {
    NoCopyNoLoss(a, wanted);
    NoCopyNoLoss(b, wanted);
    CollapseSnoc(a, m, wanted);
    CollapseConcat(a + [m], b, wanted);
    CollapseSnoc(a + [m] + b, s, wanted);
  }

  // ---- the two families ------------------------------------------------------------

  /** A compaction that keeps the task in the head and leaves the first turn out of the tail. */
  lemma {:induction false} CompactsFirstTurn(x: Session, p: Params)
    requires x.Ok() && MessageChars(x.task) <= p.headChars && p.keepChars < MessagesChars(x.Turns())
    ensures var h := x.History();
            && WellFormed(h) && Compacted(h, p) == Some(h + [SummaryMessage(h, p)])
            && IsSummary(SummaryMessage(h, p), 2, 2) && SummaryMessage(h, p).text == p.summary
  {
    var h := x.History();
    HistoryPaired(x);
    SystemAndTask(h, p);
    assert h[2..] == x.Turns();
    assert h[3] == x.result1 && h[4] == x.call2 && h[5] == x.result2;
    TailBeginsAt(h, 2, p.keepChars, 4);
    CompactsTo(h, p, 2, 4);
  }

  /**
    A session that compacted while it worked on its task, died and is resumed with that task: the copy in
    the recorded head goes, the head takes in the first call instead, and its result was summarized away.
   */
  lemma {:induction false} HeadCopyLeavesOpenCall(x: Session, p: Params, wanted: set<string>, task: Message)
    requires x.Ok() && IsCopy(x.task, wanted) && Trimmed(p.summary) !in wanted
    requires MessageChars(x.task) <= p.headChars && p.keepChars < MessagesChars(x.Turns())
    requires task.role.User? && Plain(task)
    ensures Paired(x.History()) && WellFormed(x.History()) && Compacted(x.History(), p).Some?
    ensures var view := [x.system, x.call1, SummaryMessage(x.History(), p), x.call2, x.result2, task];
            ResumesTo(Compacted(x.History(), p).value, wanted, task, view) && !AllAnswered(view)
  {
    CompactsFirstTurn(x, p);
    HistoryPaired(x);
    HeadCopyView(x, SummaryMessage(x.History(), p), wanted, task);
  }

  lemma {:induction false} HeadCopyView(x: Session, s: Message, wanted: set<string>, task: Message)
    requires x.Ok() && IsCopy(x.task, wanted) && IsSummary(s, 2, 2) && Trimmed(s.text) !in wanted
    requires task.role.User? && Plain(task)
    ensures var view := [x.system, x.call1, s, x.call2, x.result2, task];
            ResumesTo(x.History() + [s], wanted, task, view) && !AllAnswered(view)
  {
    HistoryPaired(x);
    NeutralParts(x, wanted);
    DropOneCopy([x.system], x.task, x.Turns(), s, wanted, task);
    HeadShape(x.system, x.call1, x.result1, x.call2, x.result2, s, task);
    CallThenUser(x.system, x.call1, s, x.call2, x.result2, task);
  }

  lemma {:induction false} NeutralParts(x: Session, wanted: set<string>)
    requires x.Ok()
    ensures Neutral([x.system], wanted) && Neutral(x.Turns(), wanted) && Neutral([x.call2, x.result2], wanted)
  {
  }

  lemma {:induction false} NeutralFront(x: Session, other: Message, wanted: set<string>)
    requires x.Ok() && Says(other) && !IsCopy(other, wanted)
    ensures Neutral([x.system, other, x.call1, x.result1], wanted)
  {
  }

  lemma {:induction false} HeadShape(a: Message, b: Message, c: Message, d: Message, e: Message, s: Message, task: Message)
    requires Plain(d) && Plain(e) && IsSummary(s, 2, 2)
    ensures Framed([a] + [b, c, d, e], s, task) == [a, b, s, d, e, task]
  {
    var k := [a] + [b, c, d, e];
    assert k[..2] == [a, b] && k[3..] == [d, e];
    PlainAll([d, e]);
  }

  lemma {:induction false} CallThenUser(a: Message, call: Message, m: Message, d: Message, e: Message, task: Message)
    requires call.role.Assistant? && CallIds(call) != {} && m.role.User?
    ensures !AllAnswered([a, call, m, d, e, task])
  {
    var all := [a, call, m, d, e, task];
    assert all == [a, call] + [m] + [d, e, task];
    Seqs.Snoc([a, call], m);
    assert Pending([a, call]) == CallIds(call);
    if Clean(all) {
      CleanPrefix([a, call] + [m], [d, e, task]);
    }
  }

  /** A compaction whose tail begins with the task. */
  lemma {:induction false} LateSummary(x: Session, other: Message, p: Params) returns (s: Message)
    requires x.Ok() && other.role.User? && Says(other) && MessageChars(other) <= p.headChars
    requires MessagesChars([x.task, x.call2, x.result2]) <= p.keepChars < MessagesChars(x.Late(other)[2..])
    ensures var h := x.Late(other);
            && WellFormed(h) && s == SummaryMessage(h, p) && IsSummary(s, 2, 3) && s.text == p.summary
            && Compacted(h, p) == Some(h + [s])
  {
    var h := x.Late(other);
    LatePaired(x, other);
    SystemAndTask(h, p);
    assert h[4..] == [x.task, x.call2, x.result2] && h[3] == x.result1 && h[4] == x.task && h[6] == x.result2;
    TailBeginsAt(h, 2, p.keepChars, 4);
    CompactsTo(h, p, 2, 4);
    s := SummaryMessage(h, p);
  }

  /**
    A session whose task was added later and is the first message of the counted tail: resumed with that
    task, the tail reaches one message further back, to a result whose call was summarized away.
   */
  lemma {:induction false} TailCopyOrphansResult(x: Session, other: Message, p: Params, wanted: set<string>, task: Message)
    requires x.Ok() && other.role.User? && Says(other) && !IsCopy(other, wanted)
    requires IsCopy(x.task, wanted) && Trimmed(p.summary) !in wanted && MessageChars(other) <= p.headChars
    requires MessagesChars([x.task, x.call2, x.result2]) <= p.keepChars < MessagesChars(x.Late(other)[2..])
    requires task.role.User? && Plain(task)
    ensures Paired(x.Late(other)) && WellFormed(x.Late(other)) && Compacted(x.Late(other), p).Some?
    ensures var view := [x.system, other, SummaryMessage(x.Late(other), p), x.result1, x.call2, x.result2, task];
            ResumesTo(Compacted(x.Late(other), p).value, wanted, task, view) && !Grounded(view)
  {
    var s := LateSummary(x, other, p);
    LatePaired(x, other);
    TailCopyView(x, other, s, wanted, task);
  }

  lemma {:induction false} TailCopyView(x: Session, other: Message, s: Message, wanted: set<string>, task: Message)
    requires x.Ok() && other.role.User? && Says(other) && !IsCopy(other, wanted)
    requires IsCopy(x.task, wanted) && IsSummary(s, 2, 3) && Trimmed(s.text) !in wanted
    requires task.role.User? && Plain(task)
    ensures var view := [x.system, other, s, x.result1, x.call2, x.result2, task];
            ResumesTo(x.Late(other) + [s], wanted, task, view) && !Grounded(view)
  {
    LatePaired(x, other);
    NeutralParts(x, wanted);
    NeutralFront(x, other, wanted);
    DropOneCopy([x.system, other, x.call1, x.result1], x.task, [x.call2, x.result2], s, wanted, task);
    TailShape(x.system, other, x.call1, x.result1, x.call2, x.result2, s, task);
    UserThenResult(x.system, other, s, x.result1, x.call2, x.result2, task);
  }

  lemma {:induction false} TailShape(
      a: Message, b: Message, c: Message, r: Message, d: Message, e: Message, s: Message, task: Message)
    requires Plain(r) && Plain(d) && Plain(e) && IsSummary(s, 2, 3)
    ensures Framed([a, b, c, r] + [d, e], s, task) == [a, b, s, r, d, e, task]
  {
    var k := [a, b, c, r] + [d, e];
    assert k[..2] == [a, b] && k[3..] == [r, d, e];
    PlainAll([r, d, e]);
  }

  lemma {:induction false} UserThenResult(a: Message, b: Message, m: Message, result: Message, d: Message, e: Message, task: Message)
    requires m.role.User? && result.role.Tool?
    ensures !Grounded([a, b, m, result, d, e, task])
  {
    var all := [a, b, m, result, d, e, task];
    assert all[..3] == [a, b] + [m] && all[3] == result;
    Seqs.Snoc([a, b], m);
    if Grounded(all) {
      GroundedAt(all, 3);
    }
  }
}
