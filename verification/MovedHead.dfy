/** Runs whose head grows or shrinks between two compactions, and the requests they lose. */
module MovedHead {
  import opened Transcript
  import opened Compaction
  import opened Requests
  import opened ContextView
  import opened ViewHistory
  import opened Conversation
  import opened Sessions
  import opened Runs
  import Seqs

  // ---- the run ---------------------------------------------------------------------

  /**
    A task, a request the user adds, and a turn; a compaction whose tail has no room for the request;
    another turn; and a second compaction, under another budget for the head.
   */
  datatype Story = Story(x: Session, ask: Message, first: Params, second: Params) {

    predicate Ok() {
      && x.Ok() && x.task.interrupt.NoInterrupt? && ask.role.User? && ask.interrupt.UserNewTask? && Says(ask)
      && first.keepChars < MessagesChars([ask, x.call1, x.result1])
    }

    /** The head has no room for the task at first, and then it has; the second tail is the second turn. */
    predicate Grows() {
      first.headChars < MessageChars(x.task) <= second.headChars && second.keepChars < MessagesChars(x.Turns())
    }

    /** The head has room for the task at first, and then it has not; the second tail reaches back to the summary. */
    predicate Shrinks(s: Message) {
      && second.headChars < MessageChars(x.task) <= first.headChars
      && MessagesChars([s] + x.Turns()) <= second.keepChars < MessagesChars([x.task, s] + x.Turns())
    }

    /** The head of the first compaction. */
    function FirstHead(): nat {
      if first.headChars < MessageChars(x.task) then 1 else 2
    }

    function Before(): seq<Message> {
      [x.system, x.task] + [ask] + [x.call1, x.result1]
    }

    /** The history at the second compaction, given the first summary. */
    function After(s: Message): seq<Message> {
      Before() + [s] + [x.call2, x.result2]
    }

    function Tape(): seq<Event> {
      [Told(ask), Reply(x.call1), Observed([x.result1], None), TurnOver, Compact(first),
       Reply(x.call2), Observed([x.result2], None), TurnOver, Compact(second)]
    }
  }

  lemma {:induction false} BeforePaired(t: Story)
    requires t.Ok()
    ensures Paired(t.Before()) && Paired([t.x.system, t.x.task]) && Paired([t.x.system, t.x.task] + [t.ask])
    ensures forall m :: m in t.Before() ==> Plain(m)
  {
    NoCallsPaired([t.x.system, t.x.task]);
    QuietMessage([t.x.system, t.x.task], t.ask);
    AnsweredTurn([t.x.system, t.x.task] + [t.ask], t.x.call1, t.x.result1);
  }

  /** The first compaction: the request goes into the summary, whether or not the task is in the head. */
  lemma {:induction false} FirstCompaction(t: Story)
    requires t.Ok()
    ensures var h := t.Before();
            && WellFormed(h) && NoOpenCall(h) && Compacted(h, t.first).Some?
            && IsSummary(SummaryMessage(h, t.first), t.FirstHead(), 2)
            && SummaryMessage(h, t.first).compaction.value.userMessages == [Clip(StripTask(t.ask.text))]
  {
    BeforePaired(t);
    BeforeTail(t);
    CompactsTo(t.Before(), t.first, t.FirstHead(), 3);
    PlainCutIs(t.Before(), t.first, t.FirstHead(), 3);
    BeforeAsks(t);
    ListAt(t.Before(), t.first, t.FirstHead(), 3);
  }

  /** What a cut of a history without summaries lists. */
  lemma {:induction false} ListAt(h: seq<Message>, p: Params, head: nat, at: nat)
    requires WellFormed(h) && View(h) == h && CutOf(h, p) == Cut(head, head, at, at) && head <= at <= |h|
    ensures SummaryMessage(h, p).compaction.value.userMessages == Capped(UserRequests(h[head..at]))
  {
  }

  lemma {:induction false} BeforeAsks(t: Story)
    requires t.Ok()
    ensures Capped(UserRequests(t.Before()[t.FirstHead()..3])) == [Clip(StripTask(t.ask.text))]
  {
    OneRequest(t.x.task, t.ask);
    assert t.Before()[t.FirstHead()..3] == if t.FirstHead() == 1 then [t.x.task, t.ask] else [t.ask];
  }

  lemma {:induction false} BeforeTail(t: Story)
    requires t.Ok()
    ensures var h := t.Before();
            && h[|h| - 1].role.Tool? && HeadLength(h, t.first.headChars) == t.FirstHead()
            && TailStart(h, t.FirstHead(), t.first.keepChars) == 3
  {
    var h := t.Before();
    assert h[1] == t.x.task && h[1..][0] == t.x.task && h[3] == t.x.call1 && h[4] == t.x.result1;
    assert h[2..] == [t.ask, t.x.call1, t.x.result1];
    assert SystemPrefix(h) == 1;
    SuffixShrinks(h, 1, 2);
    TailBeginsAt(h, t.FirstHead(), t.first.keepChars, 3);
  }

  lemma {:induction false} OneRequest(task: Message, ask: Message)
    requires RequestsOf(task) == [] && Plain(ask) && ask.role.User? && ask.interrupt.UserNewTask?
    ensures Capped(UserRequests([task, ask])) == [Clip(StripTask(ask.text))] == Capped(UserRequests([ask]))
  {
    var r := StripTask(ask.text);
    assert [task, ask][..1] == [task] && [task][..0] == [];
    assert UserRequests([task]) == [] + RequestsOf(task) == [];
    assert UserRequests([task, ask]) == [] + [r] == [r];
    assert [ask][..0] == [];
    assert UserRequests([ask]) == [] + [r] == [r];
    assert [r][1..] == [] && ClipAll([]) == [];
  }

  lemma {:induction false} BeforeParts(t: Story)
    requires t.Ok()
    ensures var h := t.Before();
            && |h| == 5 && SystemPrefix(h) == 1 && h[1].role.User? && h[4] == t.x.result1
            && h[..1] == [t.x.system] && h[..2] == [t.x.system, t.x.task] && h[3..] == [t.x.call1, t.x.result1]
  {
    assert t.Before()[1..][0] == t.x.task;
  }

  /** The first summary, counting a head and the first turn. */
  lemma {:induction false} ViewOfFirst(t: Story, s: Message, head: nat)
    requires t.Ok() && IsSummary(s, head, 2) && 1 <= head <= 2
    ensures WellFormed(t.Before() + [s]) && View(t.Before() + [s]) == t.Before()[..head] + [s] + [t.x.call1, t.x.result1]
  {
    BeforePaired(t);
    BeforeParts(t);
    NoClosersNeeded(t.Before(), s);
    AppendedSummary(t.Before(), s, head, 2);
    ViewAtSummary(t.Before(), s);
    PlainAll([t.x.call1, t.x.result1]);
  }

  /** What the second compaction sees. */
  lemma {:induction false} AfterView(t: Story, s: Message, head: nat)
    requires t.Ok() && IsSummary(s, head, 2) && 1 <= head <= 2
    ensures var ms := t.After(s);
            && WellFormed(ms) && NoOpenCall(ms) && |ms| == 8 && ms[0] == t.x.system && ms[1] == t.x.task && ms[5] == s
            && LastSummary(ms) == 5 && View(ms) == (if head == 1 then [t.x.system] else [t.x.system, t.x.task]) + [s] + t.x.Turns()
  {
    ViewOfFirst(t, s, head);
    BeforeParts(t);
    Seqs.Snoc(t.Before(), s);
    ViewExtends(t.Before() + [s], [t.x.call2, t.x.result2]);
    AfterShape(t.Before()[..head] + [s], t.x);
    AfterParts(t, s);
  }

  lemma {:induction false} AfterShape(front: seq<Message>, x: Session)
    ensures front + [x.call1, x.result1] + [x.call2, x.result2] == front + x.Turns()
  {
  }

  lemma {:induction false} AfterParts(t: Story, s: Message)
    ensures var ms := t.After(s); |ms| == 8 && ms[0] == t.x.system && ms[1] == t.x.task && ms[5] == s && ms[7] == t.x.result2
  {
  }

  // ---- a head that grows -----------------------------------------------------------

  /** The head takes in the task, starts past the first summary, and the compaction collects nothing. */
  lemma {:induction false} GrownCompaction(t: Story, s: Message)
    requires t.Ok() && t.Grows() && IsSummary(s, 1, 2)
    ensures var ms := t.After(s);
            && WellFormed(ms) && NoOpenCall(ms) && Compacted(ms, t.second).Some?
            && SummaryMessage(ms, t.second).compaction.value.userMessages == []
  {
    var ms, view := t.After(s), [t.x.system, s] + t.x.Turns();
    AfterView(t, s, 1);
    assert [t.x.system] + [s] == [t.x.system, s];
    SystemAndTask(ms, t.second);
    TurnsTail(t.x, s, t.second.keepChars, view);
    SecondCut(ms, t.second, view);
    NoRequests(t.x.call1, t.x.result1);
    NothingCollected(ms, t.second, CutOf(ms, t.second));
  }

  lemma {:induction false} NothingCollected(ms: seq<Message>, p: Params, c: Cut)
    requires WellFormed(ms) && c == CutOf(ms, p) && c.tailPos > c.lower
    requires Capped(UserRequests(View(ms)[c.head..c.tailPos])) == []
    ensures Compacted(ms, p).Some? && SummaryMessage(ms, p).compaction.value.userMessages == []
  {
  }

  lemma {:induction false} TurnsTail(x: Session, s: Message, keep: int, view: seq<Message>)
    requires x.Ok() && view == [x.system, s] + x.Turns() && keep < MessagesChars(x.Turns())
    ensures TailStart(view, 2, keep) == 4 && |view| == 6 && Plain(view[2]) && view[2..4] == [x.call1, x.result1]
  {
    assert view[2..] == x.Turns() && view[3] == x.result1 && view[4] == x.call2 && view[5] == x.result2;
    TailBeginsAt(view, 2, keep, 4);
  }

  lemma {:induction false} SecondCut(ms: seq<Message>, p: Params, view: seq<Message>)
    requires WellFormed(ms) && View(ms) == view && |view| == 6 && Plain(view[2]) && HeadLength(ms, p.headChars) == 2
    requires TailStart(view, 2, p.keepChars) == 4
    ensures var c := CutOf(ms, p); c.head == c.lower == 2 && c.tailPos == 4
  {
    assert view[2] == ms[ContextIndices(ms)[2]];
  }

  // ---- a head that shrinks ---------------------------------------------------------

  /** Without the task in it the head allows a cut at the first summary: its list and its tail are left behind. */
  lemma {:induction false} ShrunkCompaction(t: Story, s: Message)
    requires t.Ok() && t.Shrinks(s) && IsSummary(s, 2, 2)
    ensures var ms := t.After(s);
            && WellFormed(ms) && NoOpenCall(ms) && Compacted(ms, t.second).Some?
            && CutOf(ms, t.second) == Cut(1, 1, 2, 5)
            && SummaryMessage(ms, t.second).compaction.value.userMessages == []
  {
    AfterView(t, s, 2);
    var view := [t.x.system, t.x.task] + [s] + t.x.Turns();
    BackToSummary(t.x, s, t.second.keepChars, view);
    ShrunkBudget(t.After(s), t.x.task, t.second, view);
  }

  lemma {:induction false} ShrunkBudget(ms: seq<Message>, task: Message, p: Params, view: seq<Message>)
    requires |ms| == 8 && ms[0].role.System? && ms[1] == task && task.role.User? && p.headChars < MessageChars(task)
    requires WellFormed(ms) && LastSummary(ms) == 5 && ms[5].compaction.value.head == 2
    requires View(ms) == view && Plain(task) && RequestsOf(task) == [] && ReachesBack(view, task, p.keepChars)
    ensures CutOf(ms, p) == Cut(1, 1, 2, 5)
    ensures Compacted(ms, p).Some? && SummaryMessage(ms, p).compaction.value.userMessages == []
  {
    LongTaskOut(ms, p);
    ShrunkCut(ms, p, view);
    ShrunkCollects(ms, p, view, task);
  }

  /** The tail begins right behind the task of the old head. */
  predicate ReachesBack(view: seq<Message>, task: Message, keep: int) {
    |view| == 7 && view[1] == task && view[1..2] == [task] && TailStart(view, 1, keep) == 2
  }

  lemma {:induction false} ShrunkCollects(ms: seq<Message>, p: Params, view: seq<Message>, task: Message)
    requires WellFormed(ms) && View(ms) == view && CutOf(ms, p) == Cut(1, 1, 2, 5)
    requires |view| == 7 && view[1..2] == [task] && RequestsOf(task) == []
    ensures Compacted(ms, p).Some? && SummaryMessage(ms, p).compaction.value.userMessages == []
  {
    NoRequest(task);
    NothingCollected(ms, p, Cut(1, 1, 2, 5));
  }

  lemma {:induction false} LongTaskOut(ms: seq<Message>, p: Params)
    requires |ms| >= 2 && ms[0].role.System? && ms[1].role.User? && p.headChars < MessageChars(ms[1])
    ensures HeadLength(ms, p.headChars) == 1
  {
    assert ms[1..][0] == ms[1];
    assert SystemPrefix(ms) == 1;
  }

  lemma {:induction false} BackToSummary(x: Session, s: Message, keep: int, view: seq<Message>)
    requires x.Ok() && s.role.User? && view == [x.system, x.task] + [s] + x.Turns()
    requires MessagesChars([s] + x.Turns()) <= keep < MessagesChars([x.task, s] + x.Turns())
    ensures ReachesBack(view, x.task, keep)
  {
    assert view[1..] == [x.task, s] + x.Turns() && view[2..] == [s] + x.Turns();
    TailBeginsAt(view, 1, keep, 2);
  }

  lemma {:induction false} ShrunkCut(ms: seq<Message>, p: Params, view: seq<Message>)
    requires WellFormed(ms) && View(ms) == view && LastSummary(ms) == 5 && ms[5].compaction.value.head == 2
    requires |view| == 7 && Plain(view[1]) && HeadLength(ms, p.headChars) == 1 && TailStart(view, 1, p.keepChars) == 2
    ensures CutOf(ms, p) == Cut(1, 1, 2, 5)
  {
    assert ContextIndices(ms)[2] == 5 && ContextIndices(ms)[1] == 1;
  }

  lemma {:induction false} NoRequest(task: Message)
    requires RequestsOf(task) == []
    ensures Capped(UserRequests([task])) == []
  {
    assert [task][..0] == [];
    assert UserRequests([task]) == [] + RequestsOf(task) == [];
  }

  /** The view then: neither the old list, nor the turn the first summary counted. */
  lemma {:induction false} ShrunkView(t: Story, s: Message, s2: Message)
    requires t.Ok() && IsSummary(s, 2, 2) && IsSummary(s2, 1, 3)
    ensures Viewable(t.After(s) + [s2]) && View(t.After(s) + [s2]) == [t.x.system, s2, t.x.call2, t.x.result2]
  {
    AfterParts(t, s);
    AfterEnds(t, s);
    ViewAtSummary(t.After(s), s2);
    PlainBehind(s, t.x.call2, t.x.result2);
    assert TailAt(8, s2.compaction.value) == 5;
    FourMessages(t.x.system, s2, t.x.call2, t.x.result2);
  }

  lemma {:induction false} AfterEnds(t: Story, s: Message)
    ensures |t.After(s)| == 8 && t.After(s)[..1] == [t.x.system] && t.After(s)[5..] == [s, t.x.call2, t.x.result2]
  {
  }

  lemma {:induction false} FourMessages(a: Message, b: Message, c: Message, d: Message)
    ensures [a] + [b] + [c, d] == [a, b, c, d]
  {
  }

  lemma {:induction false} PlainBehind(s: Message, call: Message, result: Message)
    requires !Plain(s) && Plain(call) && Plain(result)
    ensures PlainOf([s, call, result]) == [call, result]
  {
    assert [s, call, result][..2] == [s, call] && [s, call][..1] == [s] && [s][..0] == [];
    assert PlainOf([s]) == [] + [] == [];
    assert PlainOf([s, call]) == [] + [call] == [call];
  }

  // ---- the events ------------------------------------------------------------------

  lemma {:induction false} TapeEvents(t: Story, tape: seq<Event>)
    requires tape == t.Tape()
    ensures |tape| == 9 && tape[0] == Told(t.ask) && tape[4] == Compact(t.first) && tape[|tape| - 1] == Compact(t.second)
    ensures tape[1] == Reply(t.x.call1) && tape[2] == Observed([t.x.result1], None) && tape[3] == TurnOver
    ensures var i := |tape| - 4; tape[i] == Reply(t.x.call2) && tape[i + 1] == Observed([t.x.result2], None) && tape[i + 2] == TurnOver
  {
  }

  /** The first five events. */
  lemma {:induction false} StoryBegins(t: Story, s: Message, tape: seq<Event>)
    requires t.Ok() && tape == t.Tape() && WellFormed(t.Before()) && s == SummaryMessage(t.Before(), t.first)
    ensures Reaches(State([t.x.system, t.x.task], Ready, None), tape, 0, State(t.Before() + [s], Ready, None), 5)
  {
    TapeEvents(t, tape);
    FirstCompaction(t);
    BeforePaired(t);
    AskTurnCompaction([t.x.system, t.x.task], t.ask, t.x.call1, t.x.result1, t.first, tape, t.Before());
  }

  lemma {:induction false} MidAnswered(t: Story, s: Message)
    requires t.Ok() && s.role.User?
    ensures AllAnswered(t.Before() + [s])
  {
    BeforePaired(t);
    Seqs.Snoc(t.Before(), s);
  }

  lemma {:induction false} StoryRuns(t: Story, s: Message)
    requires t.Ok() && WellFormed(t.Before()) && s == SummaryMessage(t.Before(), t.first)
    requires WellFormed(t.After(s)) && NoOpenCall(t.After(s)) && Compacted(t.After(s), t.second).Some?
    ensures LawfulRun(State([t.x.system, t.x.task], Ready, None), t.Tape())
    ensures Run(State([t.x.system, t.x.task], Ready, None), t.Tape())
         == State(t.After(s) + [SummaryMessage(t.After(s), t.second)], Ready, None)
  {
    var start, tape := State([t.x.system, t.x.task], Ready, None), t.Tape();
    var mid, done := State(t.Before() + [s], Ready, None), State(t.After(s) + [SummaryMessage(t.After(s), t.second)], Ready, None);
    StoryBegins(t, s, tape);
    StoryEnds(t, s, tape);
    Chained(start, tape, mid, 5, done);
  }

  /** The last four events. */
  lemma {:induction false} StoryEnds(t: Story, s: Message, tape: seq<Event>)
    requires t.Ok() && tape == t.Tape() && s.role.User?
    requires WellFormed(t.After(s)) && NoOpenCall(t.After(s)) && Compacted(t.After(s), t.second).Some?
    ensures var done := t.After(s) + [SummaryMessage(t.After(s), t.second)];
            |tape| == 9 && Reaches(State(t.Before() + [s], Ready, None), tape, 5, State(done, Ready, None), 9)
  {
    TapeEvents(t, tape);
    MidAnswered(t, s);
    TurnThenCompaction(t.Before() + [s], t.x.call2, t.x.result2, t.second, tape, |tape| - 4, t.After(s));
  }

  lemma {:induction false} Chained(start: State, tape: seq<Event>, mid: State, j: nat, done: State)
    requires Reaches(start, tape, 0, mid, j) && Reaches(mid, tape, j, done, |tape|)
    ensures LawfulRun(start, tape) && Run(start, tape) == done
  {
    ReachesOn(start, tape, 0, mid, j, done, |tape|);
    ReachesEnd(start, tape, done);
  }

  /**
    A lawful run from a fresh start in which a head that has grown drops the list of the summary before:
    the first summary carries the request the user added, the second carries none.
   */
  lemma {:induction false} GrownHeadLosesRequests(t: Story)
    requires t.Ok() && t.Grows()
    ensures WellFormed(t.Before()) && LawfulRun(State([t.x.system, t.x.task], Ready, None), t.Tape())
    ensures var s := SummaryMessage(t.Before(), t.first);
            var ms := t.After(s);
            && s.compaction.value.userMessages == [Clip(StripTask(t.ask.text))]
            && WellFormed(ms) && SummaryMessage(ms, t.second).compaction.value.userMessages == []
            && Run(State([t.x.system, t.x.task], Ready, None), t.Tape()).messages == ms + [SummaryMessage(ms, t.second)]
  {
    FirstCompaction(t);
    var s := SummaryMessage(t.Before(), t.first);
    GrownCompaction(t, s);
    StoryRuns(t, s);
  }

  /**
    A lawful run from a fresh start in which a head that has shrunk lets the tail reach back to the summary
    before: its list and the turn it counted are in no later view.
   */
  lemma {:induction false} ShrunkHeadLosesRequests(t: Story)
    requires t.Ok() && WellFormed(t.Before()) && t.Shrinks(SummaryMessage(t.Before(), t.first))
    ensures LawfulRun(State([t.x.system, t.x.task], Ready, None), t.Tape())
    ensures var s := SummaryMessage(t.Before(), t.first);
            var ms := t.After(s);
            && s.compaction.value.userMessages == [Clip(StripTask(t.ask.text))]
            && WellFormed(ms) && SummaryMessage(ms, t.second).compaction.value.userMessages == []
            && ShrunkRun(t, ms + [SummaryMessage(ms, t.second)], SummaryMessage(ms, t.second))
  {
    FirstCompaction(t);
    var s := SummaryMessage(t.Before(), t.first);
    ShrunkCompaction(t, s);
    StoryRuns(t, s);
    AfterParts(t, s);
    ShrunkView(t, s, SummaryMessage(t.After(s), t.second));
  }

  /** How the run ends: with this history, and a view of the prompt, the new summary and the last turn. */
  ghost predicate ShrunkRun(t: Story, last: seq<Message>, s2: Message) {
    && Run(State([t.x.system, t.x.task], Ready, None), t.Tape()).messages == last
    && Viewable(last) && View(last) == [t.x.system, s2, t.x.call2, t.x.result2]
  }
}
