/** Runs that compact while they hold behind a submit marker, with its call still open. */
module ViewLimits {
  import opened Transcript
  import opened Repair
  import opened Compaction
  import opened Requests
  import opened ContextView
  import opened ViewHistory
  import opened ViewPairing
  import opened Conversation
  import opened Sessions
  import opened Runs
  import Seqs

  /**
    A task and one answered turn, perhaps a request the user adds, a command that submits, a compaction
    while the run holds, and a follow-up.
   */
  datatype Story = Story(x: Session, asks: seq<Message>, exit: Message, p: Params, note: Message) {

    ghost predicate Ok() {
      && x.Ok() && x.task.interrupt.NoInterrupt? && exit.role.Exit? && Plain(exit) && note.role.User? && Plain(note)
      && |asks| <= 1 && (asks != [] ==> asks[0].role.User? && asks[0].interrupt.UserNewTask? && Says(asks[0]))
      && MessageChars(x.task) <= p.headChars && p.keepChars < MessagesChars(Held()[2..])
      && (asks != [] ==> MessagesChars(asks + [x.call2]) <= p.keepChars)
    }

    function Done(): seq<Message> {
      [x.system, x.task] + [x.call1, x.result1]
    }

    /** The history when the run holds. */
    function Held(): seq<Message> {
      Done() + asks + [x.call2]
    }

    /** The result put in for the open call. */
    function Closer(): Message {
      Synthetic(x.result2.answers)
    }

    function Tape(): seq<Event> {
      [Reply(x.call1), Observed([x.result1], None), TurnOver] + (if asks == [] then [] else [Told(asks[0])])
      + [Reply(x.call2), Proposed(exit), TurnOver, Compact(p), FollowUp(note)]
    }
  }

  // ---- the history -----------------------------------------------------------------

  lemma {:induction false} HeldHistory(t: Story)
    requires t.Ok()
    ensures Paired([t.x.system, t.x.task]) && Paired(t.Done()) && Paired(t.Done() + t.asks)
    ensures Clean(t.Held()) && Grounded(t.Held()) && Closable(t.Held()) && !NoOpenCall(t.Held())
    ensures forall m :: m in t.Held() ==> Plain(m)
  {
    NoCallsPaired([t.x.system, t.x.task]);
    AnsweredTurn([t.x.system, t.x.task], t.x.call1, t.x.result1);
    if t.asks == [] {
      Seqs.Empty(t.Done());
    } else {
      assert t.asks == [t.asks[0]];
      QuietMessage(t.Done(), t.asks[0]);
    }
    Seqs.Snoc(t.Done() + t.asks, t.x.call2);
  }

  lemma {:induction false} HeldParts(t: Story)
    requires t.Ok()
    ensures var h := t.Held();
            && |h| == 5 + |t.asks| && h[0] == t.x.system && h[1] == t.x.task && h[3] == t.x.result1
            && h[..2] == [t.x.system, t.x.task] && h[2..4] == [t.x.call1, t.x.result1]
            && h[4..] == t.asks + [t.x.call2] && !h[4].role.Tool? && h[|h| - 1] == t.x.call2
  {
    var h := t.Held();
    assert h[4] == if t.asks == [] then t.x.call2 else t.asks[0];
    assert h[4..] == t.asks + [t.x.call2];
  }

  /** The head is the system prompt and the task; the tail begins behind the first turn. */
  lemma {:induction false} HeldCut(t: Story)
    requires t.Ok()
    ensures var h := t.Held();
            && WellFormed(h) && View(h) == h && CutOf(h, t.p) == Cut(2, 2, 4, 4) && Compacted(h, t.p).Some?
            && IsSummary(SummaryMessage(h, t.p), 2, |h| - 4)
  {
    HeldHistory(t);
    HeldTail(t);
    PlainCutIs(t.Held(), t.p, 2, 4);
  }

  lemma {:induction false} HeldTail(t: Story)
    requires t.Ok()
    ensures |t.Held()| > 4 && HeadLength(t.Held(), t.p.headChars) == 2 && TailStart(t.Held(), 2, t.p.keepChars) == 4
  {
    HeldParts(t);
    SystemAndTask(t.Held(), t.p);
    TailBeginsAt(t.Held(), 2, t.p.keepChars, 4);
  }

  lemma {:induction false} OneCloser(t: Story, s: Message)
    requires t.Ok() && s.role.User?
    ensures Closers(t.Held(), [s]) == [t.Closer()]
  {
    HeldParts(t);
    assert CallIds(t.x.call2) == {t.x.result2.answers};
    var closers := SyntheticResults({t.x.result2.answers});
    assert |closers| == 1 && closers[0] in closers;
    SoleResult(t.x.result2.answers);
  }

  lemma {:induction false} SoleResult(id: string)
    ensures SyntheticResults({id}) == [Synthetic(id)]
  {
    EveryPendingHasCloser({id});
    var closers := SyntheticResults({id});
    assert |closers| == |{id}| == 1;
    assert closers[0] in closers;
  }

  /** After the compaction: the tail that is counted begins one message later than the cut. */
  lemma {:induction false} CompactedView(t: Story)
    requires t.Ok()
    ensures var h := t.Held();
            && WellFormed(h) && Compacted(h, t.p).Some?
            && var s, next := SummaryMessage(h, t.p), Compacted(h, t.p).value;
               && AllAnswered(next) && WellFormed(next) && next == h + [t.Closer()] + [s]
               && View(next) == [t.x.system, t.x.task] + [s] + (h[5..] + [t.Closer()])
  {
    var h := t.Held();
    var s := SummaryMessage(h, t.p);
    HeldHistory(t);
    HeldParts(t);
    HeldCut(t);
    CompactedIs(h, t.p);
    OneCloser(t, s);
    AppendUserCloses(h, s);
    AppendedSummary(h, s, 2, |h| - 4);
    HeldView(t, h, s);
  }

  lemma {:induction false} HeldView(t: Story, h: seq<Message>, s: Message)
    requires t.Ok() && h == t.Held() && IsSummary(s, 2, |h| - 4)
    ensures Viewable(h + [t.Closer()] + [s])
    ensures View(h + [t.Closer()] + [s]) == [t.x.system, t.x.task] + [s] + (h[5..] + [t.Closer()])
  {
    HeldParts(t);
    HeldHistory(t);
    CountedFromFive(h, t.Closer(), s);
  }

  lemma {:induction false} CountedFromFive(h: seq<Message>, m: Message, s: Message)
    requires |h| >= 5 && Plain(m) && (forall x :: x in h ==> Plain(x)) && IsSummary(s, 2, |h| - 4)
    ensures Viewable(h + [m] + [s]) && View(h + [m] + [s]) == h[..2] + [s] + (h[5..] + [m])
  {
    PlainFromHeld(h, m);
    PlainAll(h[5..] + [m]);
    PartsOf(h, m);
    ViewAtSummary(h + [m], s);
    assert TailAt(|h + [m]|, s.compaction.value) == 5;
  }

  lemma {:induction false} PartsOf(h: seq<Message>, m: Message)
    requires |h| >= 5
    ensures (h + [m])[..2] == h[..2] && (h + [m])[5..] == h[5..] + [m]
  {
  }

  lemma {:induction false} PlainFromHeld(h: seq<Message>, m: Message)
    requires |h| >= 5 && Plain(m) && forall x :: x in h ==> Plain(x)
    ensures forall x :: x in h[5..] + [m] ==> Plain(x)
  {
  }

  // ---- the run ---------------------------------------------------------------------

  /** Up to the hold. */
  lemma {:induction false} StoryHolds(t: Story, tape: seq<Event>)
    requires t.Ok() && tape == t.Tape()
    ensures |tape| == 8 + |t.asks| && tape[|tape| - 2] == Compact(t.p) && tape[|tape| - 1] == FollowUp(t.note)
    ensures Reaches(State([t.x.system, t.x.task], Ready, None), tape, 0, State(t.Held(), Holding, Some(t.exit)), |tape| - 2)
  {
    var start, done, asked := State([t.x.system, t.x.task], Ready, None), State(t.Done(), Ready, None), State(t.Done() + t.asks, Ready, None);
    HeldHistory(t);
    RunTurn([t.x.system, t.x.task], t.x.call1, t.x.result1, tape, 0);
    if t.asks == [] {
      Seqs.Empty(t.Done());
    } else {
      assert t.asks == [t.asks[0]];
      RunAsked(t.Done(), t.asks[0], tape, 3);
      ReachesOn(start, tape, 0, done, 3, asked, 4);
    }
    RunToHold(t.Done() + t.asks, t.x.call2, t.exit, tape, 3 + |t.asks|);
    ReachesOn(start, tape, 0, asked, 3 + |t.asks|, State(t.Held(), Holding, Some(t.exit)), 6 + |t.asks|);
  }

  /** The view that the run's last query is built from. */
  ghost predicate LastQuery(t: Story, view: seq<Message>) {
    var last := Run(State([t.x.system, t.x.task], Ready, None), t.Tape());
    last.phase.Ready? && Viewable(last.messages) && View(last.messages) == view
  }

  /** The whole run: it is lawful, and this is its last query. */
  lemma {:induction false} StoryRuns(t: Story)
    requires t.Ok()
    ensures WellFormed(t.Held()) && Compacted(t.Held(), t.p).Some?
    ensures var start := State([t.x.system, t.x.task], Ready, None);
            Sound(start) && Telling(start) && LawfulRun(start, t.Tape())
    ensures LastQuery(t, [t.x.system, t.x.task] + [SummaryMessage(t.Held(), t.p)] + (t.Held()[5..] + [t.Closer()]) + [t.note])
  {
    CompactedView(t);
    StoryEnds(t, Compacted(t.Held(), t.p).value);
    ViewExtends(Compacted(t.Held(), t.p).value, [t.note]);
    FreshRunStarts(t.x.system, t.x.task);
  }

  lemma {:induction false} StoryEnds(t: Story, next: seq<Message>)
    requires t.Ok() && WellFormed(t.Held()) && Compacted(t.Held(), t.p) == Some(next) && AllAnswered(next)
    ensures var start := State([t.x.system, t.x.task], Ready, None);
            Run(start, t.Tape()) == State(next + [t.note], Ready, None) && LawfulRun(start, t.Tape())
  {
    StoryHolds(t, t.Tape());
    HeldEnds(State([t.x.system, t.x.task], Ready, None), t.Held(), t.p, t.exit, t.note, t.Tape());
  }

  // ---- three things that go wrong --------------------------------------------------

  /** The query for the summary carries the open call, and nothing answers it before the prompt. */
  lemma {:induction false} HeldSummaryQueryIsOpen(t: Story, prompt: Message)
    requires t.Ok() && prompt.role.User?
    ensures Sound(State([t.x.system, t.x.task], Ready, None))
    ensures Reaches(State([t.x.system, t.x.task], Ready, None), t.Tape(), 0, State(t.Held(), Holding, Some(t.exit)), 6 + |t.asks|)
    ensures WellFormed(t.Held()) && Compacted(t.Held(), t.p).Some? && !AllAnswered(View(t.Held()) + [prompt])
  {
    FreshRunStarts(t.x.system, t.x.task);
    StoryHolds(t, t.Tape());
    HeldCut(t);
    HeldHistory(t);
    PromptOverCall(t.Held(), prompt);
  }

  lemma {:induction false} PromptOverCall(h: seq<Message>, prompt: Message)
    requires Closable(h) && !NoOpenCall(h) && prompt.role.User?
    ensures !AllAnswered(h + [prompt])
  {
    Seqs.Snoc(h, prompt);
    OpenAtEnd(h);
  }

  /**
    With nothing said in between, the result put in before the summary takes the place of its call in the
    counted tail: the next query carries a result without its call.
   */
  lemma {:induction false} HeldCompactionOrphansResult(t: Story)
    requires t.Ok() && t.asks == []
    ensures WellFormed(t.Held()) && LawfulRun(State([t.x.system, t.x.task], Ready, None), t.Tape())
    ensures var view := [t.x.system, t.x.task, SummaryMessage(t.Held(), t.p), t.Closer(), t.note];
            LastQuery(t, view) && !Grounded(view)
  {
    StoryRuns(t);
    HeldParts(t);
    assert t.Held()[5..] == [];
    FiveMessages(t.x.system, t.x.task, SummaryMessage(t.Held(), t.p), t.Closer(), t.note);
  }

  lemma {:induction false} FiveMessages(a: Message, b: Message, s: Message, r: Message, n: Message)
    requires s.role.User? && r.role.Tool?
    ensures [a, b] + [s] + ([] + [r]) + [n] == [a, b, s, r, n] && !Grounded([a, b, s, r, n])
  {
    ResultAfterUser([a, b, s], [r, n]);
    assert [a, b, s] + [r, n] == [a, b, s, r, n];
  }

  /**
    With a request in between, first in the tail, the view is paired and the head stable; but the request
    is in neither the summary's list nor the counted tail.
   */
  lemma {:induction false} HeldCompactionLosesRequest(t: Story)
    requires t.Ok() && t.asks != []
    ensures WellFormed(t.Held()) && LawfulRun(State([t.x.system, t.x.task], Ready, None), t.Tape())
    ensures var h := t.Held();
            && StableHead(h, t.p) && Skipped(h, t.p) == [StripTask(t.asks[0].text)]
            && SummaryMessage(h, t.p).compaction.value.userMessages == []
    ensures LastQuery(t, [t.x.system, t.x.task, SummaryMessage(t.Held(), t.p), t.x.call2, t.Closer(), t.note])
  {
    StoryRuns(t);
    HeldCut(t);
    LastOfHeld(t);
    NothingListed(t, t.Held());
    AskIsSkipped(t, t.Held());
    SixMessages(t.x.system, t.x.task, SummaryMessage(t.Held(), t.p), t.x.call2, t.Closer(), t.note);
  }

  lemma {:induction false} LastOfHeld(t: Story)
    requires t.Ok() && t.asks != []
    ensures |t.Held()| == 6 && t.Held()[5..] == [t.x.call2] && LastSummary(t.Held()) < 0
  {
    HeldParts(t);
    HeldHistory(t);
    ViewOfPlain(t.Held());
  }

  lemma {:induction false} SixMessages(a: Message, b: Message, s: Message, c: Message, r: Message, n: Message)
    ensures [a, b] + [s] + ([c] + [r]) + [n] == [a, b, s, c, r, n]
  {
  }

  lemma {:induction false} NothingListed(t: Story, h: seq<Message>)
    requires t.Ok() && h == t.Held() && WellFormed(h) && View(h) == h && CutOf(h, t.p) == Cut(2, 2, 4, 4)
    ensures SummaryMessage(h, t.p).compaction.value.userMessages == []
  {
    HeldParts(t);
    NoRequests(t.x.call1, t.x.result1);
    ListOfCut(h, t.p, [t.x.call1, t.x.result1]);
  }

  lemma {:induction false} ListOfCut(h: seq<Message>, p: Params, part: seq<Message>)
    requires WellFormed(h) && CutOf(h, p) == Cut(2, 2, 4, 4) && part == View(h)[2..4]
    ensures SummaryMessage(h, p).compaction.value.userMessages == Capped(UserRequests(part))
  {
  }

  lemma {:induction false} AskIsSkipped(t: Story, h: seq<Message>)
    requires t.Ok() && t.asks != [] && h == t.Held() && WellFormed(h) && CutOf(h, t.p) == Cut(2, 2, 4, 4)
    ensures Skipped(h, t.p) == [StripTask(t.asks[0].text)]
  {
    OneCloser(t, SummaryMessage(h, t.p));
    SkippedAsk(t, h);
  }

  lemma {:induction false} SkippedAsk(t: Story, h: seq<Message>)
    requires t.Ok() && t.asks != [] && h == t.Held()
    ensures |h| >= 4 && SkippedAt(h, [t.Closer()], 2, 4) == [StripTask(t.asks[0].text)]
  {
    var e, ask := h + [t.Closer()], t.asks[0];
    HeldParts(t);
    assert e[4] == ask;
    assert PlainIndices(e, 4, 5) == PlainIndices(e, 4, 4) + [4] == [4];
    assert Pick(e, [4]) == [ask];
    assert [ask][..0] == [];
    assert UserRequests([ask]) == [] + RequestsOf(ask) == RequestsOf(ask);
  }
}
