/** What a run says stays in its history, and what becomes of the exits on the way to its end. */
module RunEnds {
  import opened Transcript
  import opened Repair
  import opened ContextView
  import opened ViewHistory
  import opened Conversation
  import Journal
  import Gates
  import AgentState
  import Seqs

  // ---- what was said ---------------------------------------------------------------

  /** A message the engine made up itself: a synthetic result, or a summary. */
  predicate MadeUp(m: Message) {
    || m == Message(Tool, "Tool call was interrupted before execution; no result was available.", answers := m.answers)
    || m.compaction.Some?
  }

  /** The messages of a history that somebody said. */
  function Spoken(ms: seq<Message>): seq<Message> {
    if ms == [] then [] else Spoken(ms[..|ms| - 1]) + if MadeUp(ms[|ms| - 1]) then [] else [ms[|ms| - 1]]
  }

  /** What an event says in the phase it belongs to: the exits aside, which a gate still has to judge. */
  function SaidBy(s: State, e: Event): seq<Message> {
    match s.phase
    case Ready =>
      (match e
       case Told(note) => [note]
       case ModelSwitched(note) => [note]
       case Summarized(summary) => [summary]
       case Reply(reply) => [reply]
       case FormatError(draft, complaint, _) => Opt(draft) + [complaint]
       case _ => [])
    case Replied =>
      (match e
       case Turned(note) => [note]
       case Observed(results, _) => results
       case _ => [])
    case Gate => if e.Rejected? && AtExit(s.messages) then [e.note] else []
    case Holding =>
      (match e
       case Told(note) => [note]
       case Summarized(summary) => [summary]
       case FollowUp(note) => [note]
       case _ => [])
    case Ended => []
  }

  function SaidIn(s: State, tape: seq<Event>): seq<Message>
    decreases |tape|
  {
    if tape == [] then [] else SaidBy(s, tape[0]) + SaidIn(Step(s, tape[0]), tape[1..])
  }

  lemma {:induction false} SpokenConcat(a: seq<Message>, b: seq<Message>)
    ensures Spoken(a + b) == Spoken(a) + Spoken(b)
  {
    if b == [] {
      Seqs.Empty(a);
      Seqs.Empty(Spoken(a));
    } else {
      Seqs.Init(a, b);
      SpokenConcat(a, b[..|b| - 1]);
      Seqs.Assoc(Spoken(a), Spoken(b[..|b| - 1]), if MadeUp(b[|b| - 1]) then [] else [b[|b| - 1]]);
    }
  }

  lemma {:induction false} MadeUpIsSilent(ms: seq<Message>)
    requires forall m :: m in ms ==> MadeUp(m)
    ensures Spoken(ms) == []
  {
    if ms != [] {
      MadeUpIsSilent(ms[..|ms| - 1]);
      assert ms[|ms| - 1] in ms;
    }
  }

  /** The results that an append puts in are made up, and no exits. */
  lemma {:induction false} AppendSays(ms: seq<Message>, msgs: seq<Message>)
    ensures Spoken(Appended(ms, msgs)) == Spoken(ms) + Spoken(msgs)
    ensures ms <= Appended(ms, msgs)
    ensures NoExits(ms) && (forall m :: m in msgs ==> !m.role.Exit?) ==> NoExits(Appended(ms, msgs))
  {
    var closers := Closers(ms, msgs);
    assert forall m :: m in closers ==> m == Synthetic(m.answers) && m.role.Tool?;
    MadeUpIsSilent(closers);
    SpokenConcat(ms, closers);
    Seqs.Empty(Spoken(ms));
    SpokenConcat(ms + closers, msgs);
    forall i | 0 <= i < |ms + closers + msgs| ensures (ms + closers + msgs)[i] in ms || (ms + closers + msgs)[i] in closers || (ms + closers + msgs)[i] in msgs {
    }
  }

  /** An exit behind other messages, or alone, goes to the end. */
  lemma {:induction false} ExitAtEnd(ms: seq<Message>, msgs: seq<Message>, last: Option<Message>)
    requires last.Some? ==> last.value.role.Exit?
    ensures Appended(Appended(ms, msgs), Opt(last)) == Appended(ms, msgs) + Opt(last)
    ensures msgs != [] ==> Appended(ms, msgs + Opt(last)) == Appended(ms, msgs) + Opt(last)
  {
    var next := Appended(ms, msgs);
    assert Closers(next, Opt(last)) == [];
    Seqs.Empty(next);
    if msgs != [] {
      assert (msgs + Opt(last))[0] == msgs[0];
      assert Closers(ms, msgs + Opt(last)) == Closers(ms, msgs);
      Seqs.Assoc(ms + Closers(ms, msgs), msgs, Opt(last));
    }
  }

  /** Answered, and with no exit but one that is being judged, is held, or ended the run. */
  ghost predicate Calm(s: State) {
    Answered(s) && NoExits(Body(s))
  }

  /** What a step leaves: a history with this much more said, no exits in it, and the old one at its front. */
  ghost predicate Grows(s: State, next: State, said: seq<Message>) {
    NoExits(Body(next)) && Spoken(Body(next)) == Spoken(Body(s)) + Spoken(said) && Body(s) <= Body(next)
  }

  lemma {:induction false} Appends(s: State, next: State, base: seq<Message>, msgs: seq<Message>, last: Option<Message>)
    requires base == Body(s) && NoExits(base) && (forall m :: m in msgs ==> !m.role.Exit?) && (last.Some? ==> last.value.role.Exit?)
    requires next.messages == Appended(base, msgs) + Opt(last) && (last.Some? ==> next.phase.Gate? || next.phase.Ended?)
    ensures Grows(s, next, msgs)
  {
    AppendSays(base, msgs);
    var out := Appended(base, msgs);
    if last.Some? {
      Seqs.Snoc(out, last.value);
    } else {
      Seqs.Empty(out);
    }
  }

  lemma {:induction false} StaysAs(s: State, next: State)
    requires Calm(s) && Body(next) == Body(s)
    ensures Grows(s, next, [])
  {
    Seqs.Empty(Spoken(Body(s)));
  }

  lemma {:induction false} CompactSays(s: State, p: Params)
    requires (s.phase.Ready? || s.phase.Holding?) && Calm(s) && WellFormed(s.messages)
    ensures Grows(s, Step(s, Compact(p)), [])
  {
    if Compacted(s.messages, p).Some? {
      SummaryStep(s, p);
      CompactedIs(s.messages, p);
      SummarySays(s, Step(s, Compact(p)), SummaryMessage(s.messages, p));
    } else {
      StaysAs(s, s);
    }
  }

  lemma {:induction false} SummarySays(s: State, next: State, m: Message)
    requires (s.phase.Ready? || s.phase.Holding?) && Calm(s) && m.compaction.Some? && m.role.User?
    requires next == s.(messages := Appended(s.messages, [m]))
    ensures Grows(s, next, [])
  {
    MadeUpIsSilent([m]);
    AppendSays(s.messages, [m]);
    Seqs.Empty(Spoken(s.messages));
    assert Body(next) == next.messages && Spoken([m]) == Spoken([]);
  }

  lemma {:induction false} ReadySays(s: State, e: Event)
    requires s.phase.Ready? && Calm(s) && Lawful(s, e) && !e.Interrupted?
    ensures Grows(s, Step(s, e), SaidBy(s, e))
  {
    var ms := s.messages;
    match e
    case Told(note) => Appends(s, Step(s, e), ms, [note], None);
    case ModelSwitched(note) => NothingOpenNothingAdded(ms, [note]); Appends(s, Step(s, e), ms, [note], None);
    case Compact(p) => CompactSays(s, p);
    case Summarized(summary) => Appends(s, Step(s, e), ms, [summary], None);
    case Halted(exit) => HaltSays(s, e, exit);
    case Reply(reply) => Appends(s, Step(s, e), ms, [reply], None);
    case FormatError(draft, complaint, last) =>
      ExitAtEnd(ms, Opt(draft) + [complaint], last);
      Appends(s, Step(s, e), ms, Opt(draft) + [complaint], last);
    case _ => StaysAs(s, s);
  }

  lemma {:induction false} HaltSays(s: State, e: Event, exit: Message)
    requires Calm(s) && exit.role.Exit? && Body(s) == s.messages
    requires Step(s, e).messages == Appended(s.messages, [exit]) && Step(s, e).phase.Gate?
    ensures Grows(s, Step(s, e), [])
  {
    AddExit(s.messages, exit);
    StaysAs(s, Step(s, e));
  }

  lemma {:induction false} RepliedSays(s: State, e: Event)
    requires s.phase.Replied? && Calm(s) && Lawful(s, e) && !e.Interrupted?
    ensures Grows(s, Step(s, e), SaidBy(s, e))
  {
    var ms := s.messages;
    match e
    case Turned(note) => Appends(s, Step(s, e), ms, [note], None);
    case Proposed(exit) => HaltSays(s, e, exit);
    case Observed(results, last) =>
      ExitAtEnd(ms, results, last);
      Appends(s, Step(s, e), ms, results, last);
    case _ => StaysAs(s, s);
  }

  lemma {:induction false} GateSays(s: State, e: Event)
    requires s.phase.Gate? && Calm(s) && Lawful(s, e) && !e.Interrupted?
    ensures Grows(s, Step(s, e), SaidBy(s, e))
  {
    if AtExit(s.messages) {
      match e
      case Rejected(note) => Appends(s, Step(s, e), Init(s.messages), [note], None);
      case Failed(exit) =>
        AddExit(Init(s.messages), exit);
        StaysAs(s, Step(s, e));
      case _ => StaysAs(s, Step(s, e));
    } else {
      StaysAs(s, Step(s, e));
    }
  }

  lemma {:induction false} HoldingSays(s: State, e: Event)
    requires s.phase.Holding? && Calm(s) && Lawful(s, e) && !e.Interrupted?
    ensures Grows(s, Step(s, e), SaidBy(s, e))
  {
    var ms := s.messages;
    match e
    case Told(note) => Appends(s, Step(s, e), ms, [note], None);
    case Compact(p) => CompactSays(s, p);
    case Summarized(summary) => Appends(s, Step(s, e), ms, [summary], None);
    case FollowUp(note) => Appends(s, Step(s, e), ms, [note], None);
    case Released =>
      ReleaseKeeps(s);
      StaysAs(s, Step(s, e));
    case _ => StaysAs(s, s);
  }

  lemma {:induction false} StepSays(s: State, e: Event)
    requires Calm(s) && Lawful(s, e)
    ensures Calm(Step(s, e)) && Grows(s, Step(s, e), SaidBy(s, e))
  {
    StepKeeps(s, e, true);
    if e.Interrupted? {
      InterruptKeeps(s);
      StaysAs(s, Step(s, e));
    } else {
      match s.phase
      case Ready => ReadySays(s, e);
      case Replied => RepliedSays(s, e);
      case Gate => GateSays(s, e);
      case Holding => HoldingSays(s, e);
      case Ended => StaysAs(s, s);
    }
  }

  /**
    In every run the history only grows, and without what the engine makes up itself it is exactly what was
    said before and in the run, in order and each message once: nothing is lost to a popped exit, a
    rejection, an interrupted call, a compaction or a follow-up, and nothing else gets in.
   */
  lemma {:induction false} EverythingSaidStays(s: State, tape: seq<Event>)
    requires Calm(s) && LawfulRun(s, tape)
    ensures Calm(Run(s, tape)) && Body(s) <= Body(Run(s, tape))
    ensures Spoken(Body(Run(s, tape))) == Spoken(Body(s)) + Spoken(SaidIn(s, tape))
    decreases |tape|
  {
    if tape == [] {
      Seqs.Empty(Spoken(Body(s)));
    } else {
      var next := Step(s, tape[0]);
      StepSays(s, tape[0]);
      EverythingSaidStays(next, tape[1..]);
      SpokenConcat(SaidBy(s, tape[0]), SaidIn(next, tape[1..]));
      Seqs.Assoc(Spoken(Body(s)), Spoken(SaidBy(s, tape[0])), Spoken(SaidIn(next, tape[1..])));
    }
  }

  // ---- the exits -------------------------------------------------------------------

  /** The exit that an event proposes or sets. */
  function ExitOf(e: Event): Option<Message> {
    match e
    case Halted(exit) => Some(exit)
    case Proposed(exit) => Some(exit)
    case FormatError(_, _, last) => last
    case Observed(_, last) => last
    case _ => None
  }

  /** Exactly: a step that brings the run to its gate leaves an exit there if the event carries one, and then that one. */
  lemma {:induction false} GateHasExitIff(s: State, e: Event)
    requires Calm(s) && Lawful(s, e) && (s.phase.Ready? || s.phase.Replied?) && Step(s, e).phase.Gate?
    ensures EndsOn(Step(s, e).messages, ExitOf(e))
  {
    match e
    case FormatError(draft, complaint, last) => FormatErrorEnds(s, e);
    case Observed(results, last) => ObservedEnds(s, e);
    case Turned(note) => NoExitBehind(s.messages, [note]);
    case Halted(exit) => AddExit(s.messages, exit);
    case Proposed(exit) => AddExit(s.messages, exit);
    case _ =>
  }

  /** The history ends on this exit, or on no exit. */
  predicate EndsOn(ms: seq<Message>, exit: Option<Message>) {
    if exit.Some? then ms != [] && ms[|ms| - 1] == exit.value && exit.value.role.Exit? else !AtExit(ms)
  }

  lemma {:induction false} FormatErrorEnds(s: State, e: Event)
    requires Calm(s) && Lawful(s, e) && s.phase.Ready? && e.FormatError?
    ensures EndsOn(Step(s, e).messages, ExitOf(e))
  {
    ExitAtEnd(s.messages, Opt(e.draft) + [e.complaint], e.last);
    LastIsExit(s.messages, Opt(e.draft) + [e.complaint], e.last);
  }

  lemma {:induction false} ObservedEnds(s: State, e: Event)
    requires Calm(s) && Lawful(s, e) && s.phase.Replied? && e.Observed?
    ensures EndsOn(Step(s, e).messages, ExitOf(e))
  {
    ExitAtEnd(s.messages, e.results, e.last);
    LastIsExit(s.messages, e.results, e.last);
  }

  lemma {:induction false} LastIsExit(ms: seq<Message>, msgs: seq<Message>, last: Option<Message>)
    requires NoExits(ms) && (forall m :: m in msgs ==> !m.role.Exit?) && (last.Some? ==> last.value.role.Exit?)
    ensures EndsOn(Appended(ms, msgs) + Opt(last), last)
  {
    NoExitBehind(ms, msgs);
  }

  lemma {:induction false} NoExitBehind(ms: seq<Message>, msgs: seq<Message>)
    requires NoExits(ms) && forall m :: m in msgs ==> !m.role.Exit?
    ensures !AtExit(Appended(ms, msgs)) && Appended(ms, msgs) + [] == Appended(ms, msgs)
  {
    AppendSays(ms, msgs);
  }

  /** At the gate a rejection takes the exit back and a failure replaces it; without an exit the loop goes on. */
  lemma {:induction false} GateJudges(s: State, note: Message, failure: Message)
    requires Calm(s) && s.phase.Gate? && note.role.User? && failure.role.Exit?
    ensures AtExit(s.messages) ==>
              var sentBack := Run(s, [Rejected(note), TurnOver]);
              sentBack == State(Appended(Init(s.messages), [note]), Ready, s.exit)
    ensures AtExit(s.messages) ==>
              Run(s, [Failed(failure), TurnOver]) == State(Init(s.messages), Holding, Some(failure))
    ensures !AtExit(s.messages) ==> Run(s, [TurnOver]) == s.(phase := Ready)
  {
    OneStep(s, TurnOver);
    if AtExit(s.messages) {
      TwoSteps(s, Rejected(note), TurnOver);
      TwoSteps(s, Failed(failure), TurnOver);
      AddExit(Init(s.messages), failure);
    }
  }

  /** What the agent does with a verdict of a gate, on its log and on its history, is the run's event for it. */
  lemma {:induction false} VerdictIsEvent(l: Journal.Log, verdict: Gates.Verdict, note: Message, failure: Message)
    requires AtExit(l.messages) && failure.role.Exit?
    ensures var ms := l.messages;
            var after := AgentState.Judged(ms, verdict, note, failure);
            && Journal.Apply(Journal.Popped(l), AgentState.ClosingOp(verdict, ms[|ms| - 1], note, failure)).messages == after
            && (verdict.Accepted? ==> after == ms)
            && (verdict.SentBack? ==> after == Step(State(ms, Gate, None), Rejected(note)).messages)
            && (verdict.Failed? ==> after == Step(State(ms, Gate, None), Failed(failure)).messages)
  {
    Seqs.LastApart(l.messages, Init(l.messages), l.messages[|l.messages| - 1]);
  }

  lemma {:induction false} OneStep(s: State, e: Event)
    ensures Run(s, [e]) == Step(s, e)
  {
    assert [e][1..] == [];
  }

  lemma {:induction false} TwoSteps(s: State, e: Event, f: Event)
    ensures Run(s, [e, f]) == Step(Step(s, e), f)
  {
    assert [e, f][1..] == [f];
    OneStep(Step(s, e), f);
  }

  /** What a held run may meet without leaving the hold. */
  predicate Holds(e: Event) {
    !e.FollowUp? && !e.Released? && !e.Interrupted?
  }

  lemma {:induction false} RunSnoc(s: State, tape: seq<Event>, e: Event)
    ensures Run(s, tape + [e]) == Step(Run(s, tape), e)
    ensures LawfulRun(s, tape + [e]) ==> LawfulRun(s, tape)
    decreases |tape|
  {
    if tape == [] {
      assert tape + [e] == [e] && [e][1..] == [];
    } else {
      assert (tape + [e])[1..] == tape[1..] + [e];
      RunSnoc(Step(s, tape[0]), tape[1..], e);
    }
  }

  lemma {:induction false} HeldRun(s: State, held: seq<Event>)
    requires s.phase.Holding? && forall e :: e in held ==> Holds(e)
    ensures var r := Run(s, held); r.phase.Holding? && r.exit == s.exit && s.messages <= r.messages
    decreases |held|
  {
    if held != [] {
      assert held[0] in held;
      HeldStep(s, held[0]);
      HeldRun(Step(s, held[0]), held[1..]);
    }
  }

  lemma {:induction false} HeldStep(s: State, e: Event)
    requires s.phase.Holding? && Holds(e)
    ensures Step(s, e).phase.Holding? && Step(s, e).exit == s.exit && s.messages <= Step(s, e).messages
  {
    HeldMessages(s, e);
    match e
    case Told(note) => AppendGrows(s.messages, [note]);
    case Summarized(summary) => AppendGrows(s.messages, [summary]);
    case Compact(p) => CompactGrows(s.messages, p);
    case _ =>
  }

  lemma {:induction false} HeldMessages(s: State, e: Event)
    requires s.phase.Holding? && Holds(e)
    ensures Step(s, e) == s.(messages :=
              if e.Told? then Appended(s.messages, [e.note]) else if e.Summarized? then Appended(s.messages, [e.summary])
              else if e.Compact? then CompactedOrSame(s.messages, e.params) else s.messages)
  {
  }

  lemma {:induction false} AppendGrows(ms: seq<Message>, msgs: seq<Message>)
    ensures ms <= Appended(ms, msgs)
  {
    Seqs.Assoc(ms, Closers(ms, msgs), msgs);
  }

  lemma {:induction false} CompactGrows(ms: seq<Message>, p: Params)
    ensures ms <= CompactedOrSame(ms, p)
  {
    if WellFormed(ms) && Compacted(ms, p).Some? {
      CompactedIs(ms, p);
      AppendGrows(ms, [SummaryMessage(ms, p)]);
    }
  }

  /**
    An exit that passed its gate: it is taken off and held, whatever arrives meanwhile goes behind the history,
    and when the run is released that same exit is its last message again.
   */
  lemma {:induction false} HeldExitReturns(s: State, held: seq<Event>)
    requires s.phase.Gate? && AtExit(s.messages) && forall e :: e in held ==> Holds(e)
    ensures var exit, kept := s.messages[|s.messages| - 1], Run(s, [TurnOver] + held).messages;
            && Init(s.messages) <= kept
            && Run(s, [TurnOver] + held) == State(kept, Holding, Some(exit))
            && Run(s, [TurnOver] + held + [Released]) == State(kept + [exit], Ended, None)
  {
    HeldPart(s, held);
    RunSnoc(s, [TurnOver] + held, Released);
    ReleasedStep(Run(s, [TurnOver] + held), s.messages[|s.messages| - 1]);
  }

  lemma {:induction false} ReleasedStep(s: State, exit: Message)
    requires s.phase.Holding? && s.exit == Some(exit)
    ensures Step(s, Released) == State(s.messages + [exit], Ended, None)
  {
  }

  lemma {:induction false} HeldPart(s: State, held: seq<Event>)
    requires s.phase.Gate? && AtExit(s.messages) && forall e :: e in held ==> Holds(e)
    ensures var r := Run(s, [TurnOver] + held);
            Init(s.messages) <= r.messages && r == State(r.messages, Holding, Some(s.messages[|s.messages| - 1]))
  {
    assert ([TurnOver] + held)[1..] == held;
    HeldRun(Step(s, TurnOver), held);
  }

  /** A follow-up instead takes the run on, without that exit. */
  lemma {:induction false} HeldRunGoesOn(s: State, held: seq<Event>, note: Message)
    requires s.phase.Gate? && AtExit(s.messages) && forall e :: e in held ==> Holds(e)
    ensures var kept := Run(s, [TurnOver] + held).messages;
            && Init(s.messages) <= kept
            && Run(s, [TurnOver] + held + [FollowUp(note)]) == State(Appended(kept, [note]), Ready, None)
  {
    HeldPart(s, held);
    RunSnoc(s, [TurnOver] + held, FollowUp(note));
    FollowUpStep(Run(s, [TurnOver] + held), note);
  }

  lemma {:induction false} FollowUpStep(s: State, note: Message)
    requires s.phase.Holding?
    ensures Step(s, FollowUp(note)) == State(Appended(s.messages, [note]), Ready, None)
  {
  }

  /** A held run has its exit in hand, and an ended one has it at the end of its history. */
  predicate HasExit(s: State) {
    && (s.phase.Holding? ==> s.exit.Some? && s.exit.value.role.Exit?)
    && (s.phase.Ended? ==> AtExit(s.messages))
  }

  lemma {:induction false} StepHasExit(s: State, e: Event)
    requires HasExit(s) && !e.Interrupted?
    ensures HasExit(Step(s, e))
  {
    if s.phase.Holding? && e.Released? {
      Seqs.Snoc(s.messages, s.exit.value);
    }
  }

  /** Every run that ends without being interrupted ends on an exit. */
  lemma {:induction false} EveryRunEndsAtAnExit(s: State, tape: seq<Event>)
    requires HasExit(s) && Interrupted !in tape
    ensures HasExit(Run(s, tape))
    ensures Run(s, tape).phase.Ended? ==> AtExit(Run(s, tape).messages)
    decreases |tape|
  {
    if tape != [] {
      StepHasExit(s, tape[0]);
      EveryRunEndsAtAnExit(Step(s, tape[0]), tape[1..]);
    }
  }

  /** An interrupted run ends as it stands, and an ended run does nothing more. */
  lemma {:induction false} InterruptedRunEnds(s: State, rest: seq<Event>)
    ensures Run(s, [Interrupted] + rest) == s.(phase := Ended)
  {
    assert ([Interrupted] + rest)[1..] == rest;
    EndedStays(s.(phase := Ended), rest);
  }

  lemma {:induction false} EndedStays(s: State, tape: seq<Event>)
    requires s.phase.Ended?
    ensures Run(s, tape) == s
    decreases |tape|
  {
    if tape != [] {
      EndedStays(s, tape[1..]);
    }
  }

  // ---- a rejected fast answer ------------------------------------------------------

  /** A fast answer whose exit was rejected leaves the log with the history that the run then starts from. */
  lemma {:induction false} RejectedFastLog(l: Journal.Log, system: Message, task: Message, answer: Message, exit: Message, note: Message)
    requires l.messages == [answer, exit] && exit.role.Exit?
    ensures var after := Journal.ApplyAll(l, [Journal.PopExit, Journal.Add([note]), Journal.Prefix(system, task)]);
            after.messages == [system, task] + Appended([answer], [note]) && after.journaled == 0
  {
    var popped := Journal.Apply(l, Journal.PopExit);
    assert popped.messages == [answer];
    LastTwo(popped, Journal.Add([note]), Journal.Prefix(system, task));
    assert [Journal.PopExit, Journal.Add([note]), Journal.Prefix(system, task)][1..] == [Journal.Add([note]), Journal.Prefix(system, task)];
  }

  lemma {:induction false} LastTwo(l: Journal.Log, a: Journal.Op, b: Journal.Op)
    ensures Journal.ApplyAll(l, [a, b]) == Journal.Apply(Journal.Apply(l, a), b)
  {
    assert [a, b][1..] == [b] && [b][1..] == [];
    assert Journal.ApplyAll(Journal.Apply(l, a), [b]) == Journal.ApplyAll(Journal.Apply(Journal.Apply(l, a), b), []);
  }
}
