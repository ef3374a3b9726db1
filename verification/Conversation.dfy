/** The run loop as it acts on the history: what holds in every state a run can reach. */
module Conversation {
  import opened Transcript
  import opened Repair
  import opened Requests
  import opened ContextView
  import opened ViewHistory
  import opened ViewPairing
  import Seqs

  /**
    `Ready`: a model query is about to be built. `Replied`: the reply was added and its actions run.
    `Gate`: the step is over and a proposed exit is judged. `Holding`: the exit was popped and the run
    waits for a follow-up. `Ended`: the run returned.
   */
  datatype Phase = Ready | Replied | Gate | Holding | Ended

  datatype State = State(messages: seq<Message>, phase: Phase, exit: Option<Message>)

  /** What the environment, the model and the user may do next. */
  datatype Event =
    | Told(note: Message)                       // control message, subagent note, skipped compaction
    | Compact(params: Params)
    | Summarized(summary: Message)              // a compaction of a history whose recorded head is none
    | ModelSwitched(note: Message)              // a fallback took over: pushed without `add_messages`
    | Halted(exit: Message)                     // a limit was reached
    | Reply(reply: Message)
    | FormatError(draft: Option<Message>, complaint: Message, last: Option<Message>)
    | Turned(note: Message)                     // nudge, or an action loop interrupted
    | Proposed(exit: Message)                   // plain-text answer, submit marker, or the loop cut
    | Observed(results: seq<Message>, last: Option<Message>)
    | Rejected(note: Message)                   // a gate sends the proposal back
    | Failed(exit: Message)                     // a gate replaces the proposal by a failure
    | TurnOver
    | FollowUp(note: Message)
    | Released
    | Interrupted

  function Opt(m: Option<Message>): seq<Message> {
    if m.Some? then [m.value] else []
  }

  function Init(ms: seq<Message>): seq<Message>
    requires ms != []
  {
    ms[..|ms| - 1]
  }

  /** A lawful `Compact` finds a well-formed history, so the first test never decides. */
  function CompactedOrSame(ms: seq<Message>, p: Params): seq<Message> {
    if WellFormed(ms) && Compacted(ms, p).Some? then Compacted(ms, p).value else ms
  }

  /** One step of the run; an event that does not belong to the phase changes nothing. */
  function Step(s: State, e: Event): State {
    var ms := s.messages;
    match (s.phase, e)
    case (Ready, Told(note)) => s.(messages := Appended(ms, [note]))
    case (Ready, ModelSwitched(note)) => s.(messages := ms + [note])
    case (Ready, Compact(p)) => s.(messages := CompactedOrSame(ms, p))
    case (Ready, Summarized(summary)) => s.(messages := Appended(ms, [summary]))
    case (Ready, Halted(exit)) => s.(messages := Appended(ms, [exit]), phase := Gate)
    case (Ready, Reply(reply)) => s.(messages := Appended(ms, [reply]), phase := Replied)
    case (Ready, FormatError(draft, complaint, exit)) =>
      s.(messages := Appended(ms, Opt(draft) + [complaint] + Opt(exit)), phase := Gate)
    case (Replied, Turned(note)) => s.(messages := Appended(ms, [note]), phase := Gate)
    case (Replied, Proposed(exit)) => s.(messages := Appended(ms, [exit]), phase := Gate)
    case (Replied, Observed(results, exit)) =>
      s.(messages := Appended(Appended(ms, results), Opt(exit)), phase := Gate)
    case (Gate, Rejected(note)) => if AtExit(ms) then s.(messages := Appended(Init(ms), [note])) else s
    case (Gate, Failed(exit)) => if AtExit(ms) then s.(messages := Appended(Init(ms), [exit])) else s
    case (Gate, TurnOver) =>
      if AtExit(ms) then State(Init(ms), Holding, Some(ms[|ms| - 1])) else s.(phase := Ready)
    case (Holding, Told(note)) => s.(messages := Appended(ms, [note]))
    case (Holding, Compact(p)) => s.(messages := CompactedOrSame(ms, p))
    case (Holding, Summarized(summary)) => s.(messages := Appended(ms, [summary]))
    case (Holding, FollowUp(note)) => State(Appended(ms, [note]), Ready, None)
    case (Holding, Released) => State(ms + Opt(s.exit), Ended, None)
    case (_, Interrupted) => s.(phase := Ended)
    case (_, _) => s
  }

  /**
    What the engine itself puts into the messages it adds, and what it relies on from the observation
    formatter. Of a compaction whose recorded head is no longer one nothing is said but that it appends a
    user message.
   */
  predicate Lawful(s: State, e: Event) {
    match e
    case Compact(_) => WellFormed(s.messages)
    case Summarized(summary) => !WellFormed(s.messages) && summary.role.User?
    case Told(note) => note.role.User? && Plain(note)
    case ModelSwitched(note) => note.role.User? && Plain(note)
    case Turned(note) => note.role.User? && Plain(note)
    case Rejected(note) => note.role.User? && Plain(note)
    case FollowUp(note) => note.role.User? && Plain(note)
    case Halted(exit) => exit.role.Exit? && Plain(exit)
    case Proposed(exit) => exit.role.Exit? && Plain(exit)
    case Failed(exit) => exit.role.Exit? && Plain(exit)
    case Reply(reply) => reply.role.Assistant? && Plain(reply)
    case FormatError(draft, complaint, exit) =>
      && complaint.role.User? && Plain(complaint)
      && (draft.Some? ==> draft.value.role.Assistant? && draft.value.calls == [] && Plain(draft.value))
      && (exit.Some? ==> exit.value.role.Exit? && Plain(exit.value))
    case Observed(results, exit) =>
      && (exit.Some? ==> exit.value.role.Exit? && Plain(exit.value))
      && (s.phase.Replied? && s.messages != [] ==> AnswersReply(s.messages[|s.messages| - 1], results))
    case _ => true
  }

  /** The formatter answers every call of the reply and nothing else; images follow as user messages. */
  predicate AnswersReply(reply: Message, results: seq<Message>) {
    && Paired([reply] + results)
    && forall m :: m in results ==> (m.role.Tool? || m.role.User?) && Plain(m)
  }

  // ---- the invariant ---------------------------------------------------------------

  /** The history without the exit that is being judged, or that ended the run. */
  function Body(s: State): seq<Message> {
    if (s.phase.Gate? || s.phase.Ended?) && AtExit(s.messages) then Init(s.messages) else s.messages
  }

  /** Every call is answered, except perhaps the calls of the very last message outside `Ready`. */
  ghost predicate Answered(s: State) {
    match s.phase
    case Ready => AllAnswered(s.messages)
    case Replied => Closable(s.messages) && s.messages != [] && s.messages[|s.messages| - 1].role.Assistant?
    case Gate => if AtExit(s.messages) then Closable(Body(s)) else AllAnswered(s.messages)
    case Holding => Closable(s.messages) && (s.exit.Some? ==> s.exit.value.role.Exit?)
    case Ended => Closable(Body(s))
  }

  ghost predicate NoExits(ms: seq<Message>) {
    forall i :: 0 <= i < |ms| ==> !ms[i].role.Exit?
  }

  /** The view is paired as far as the history is; or, after a compaction that paired badly, it carries a result without its call. */
  ghost predicate Viewed(ms: seq<Message>, well: bool) {
    && WellFormed(ms) && Grounded(ms) && UserSummaries(ms) && NoExits(ms)
    && (if well then Mirrors(View(ms), ms) else !Grounded(View(ms)))
  }

  /** Answered, and with a view that is paired. */
  ghost predicate Sound(s: State) {
    Answered(s) && Viewed(Body(s), true)
  }

  /** Answered, and with every request of the user carried. */
  ghost predicate Telling(s: State) {
    Answered(s) && NoExits(Body(s)) && Carried(Body(s))
  }

  /** This event makes a compaction append a summary. */
  predicate Compacts(s: State, e: Event) {
    e.Compact? && (s.phase.Ready? || s.phase.Holding?) && WellFormed(s.messages) && Compacted(s.messages, e.params).Some?
  }

  /** Whether the latest compaction so far paired well. */
  predicate WellAfter(s: State, well: bool, e: Event) {
    if Compacts(s, e) then PairsAfter(s.messages, e.params) else well
  }

  /** A compaction fires only where the old list survives, and skips nothing that was asked. */
  predicate TellingCompaction(s: State, e: Event) {
    Compacts(s, e) ==> KeepsList(s.messages, e.params) && Skipped(s.messages, e.params) == []
  }

  // ---- what an append keeps --------------------------------------------------------

  lemma {:induction false} MirrorExtends(view: seq<Message>, ms: seq<Message>, more: seq<Message>)
    requires Mirrors(view, ms) && Clean(ms + more) && Grounded(ms + more)
    ensures Mirrors(view + more, ms + more)
    decreases |more|
  {
    if more == [] {
      assert view + more == view && ms + more == ms;
    } else {
      assert ms + more == ms + [more[0]] + more[1..];
      assert view + more == view + [more[0]] + more[1..];
      CleanPrefix(ms + [more[0]], more[1..]);
      MirrorStep(view, ms, more[0]);
      MirrorExtends(view + [more[0]], ms + [more[0]], more[1..]);
    }
  }

  lemma {:induction false} ViewedExtends(ms: seq<Message>, more: seq<Message>, well: bool)
    requires Viewed(ms, well) && Clean(ms + more) && Grounded(ms + more)
    requires forall m :: m in more ==> Plain(m) && !m.role.Exit?
    ensures Viewed(ms + more, well)
  {
    ViewExtends(ms, more);
    SameSummaries(ms, more);
    if well {
      MirrorExtends(View(ms), ms, more);
    } else if Clean(View(ms) + more) {
      CleanPrefix(View(ms), more);
    } else {
      GroundedPrefix(View(ms), more);
    }
  }

  lemma {:induction false} GroundedPrefix(a: seq<Message>, b: seq<Message>)
    requires !Grounded(a)
    ensures !Grounded(a + b)
  {
    if b == [] {
      Seqs.Empty(a);
    } else {
      GroundedPrefix(a, b[..|b| - 1]);
      Seqs.Init(a, b);
    }
  }

  lemma {:induction false} SameSummaries(ms: seq<Message>, more: seq<Message>)
    requires UserSummaries(ms) && NoExits(ms) && forall m :: m in more ==> Plain(m) && !m.role.Exit?
    ensures UserSummaries(ms + more) && NoExits(ms + more)
  {
    forall i | 0 <= i < |ms + more| ensures !(ms + more)[i].role.Exit? && (Plain((ms + more)[i]) || (ms + more)[i].role.User?) {
      if i >= |ms| {
        assert (ms + more)[i] == more[i - |ms|];
      }
    }
  }

  /** What appending plain messages keeps, given that it leaves the history clean. */
  ghost predicate Keeps(ms: seq<Message>, next: seq<Message>) {
    && (Viewed(ms, true) ==> Viewed(next, true)) && (Viewed(ms, false) ==> Viewed(next, false))
    && (Carried(ms) ==> Carried(next)) && (NoExits(ms) ==> NoExits(next))
  }

  lemma {:induction false} PlainKeeps(ms: seq<Message>, more: seq<Message>)
    requires Clean(ms + more) && (Grounded(ms) ==> Grounded(ms + more))
    requires forall m :: m in more ==> Plain(m) && !m.role.Exit?
    ensures Keeps(ms, ms + more)
  {
    if Viewed(ms, true) {
      ViewedExtends(ms, more, true);
    }
    if Viewed(ms, false) {
      ViewedExtends(ms, more, false);
    }
    if Carried(ms) {
      AppendCarriesRequests(ms, more);
    }
  }

  /** A user message closes what is open. */
  lemma {:induction false} AddUser(ms: seq<Message>, note: Message)
    requires Closable(ms) && note.role.User? && Plain(note)
    ensures var next := Appended(ms, [note]); AllAnswered(next) && !AtExit(next) && Keeps(ms, next)
  {
    var more := Closers(ms, [note]) + [note];
    Seqs.Assoc(ms, Closers(ms, [note]), [note]);
    AppendUserCloses(ms, note);
    PlainKeeps(ms, more);
  }

  lemma {:induction false} AddExit(ms: seq<Message>, exit: Message)
    requires exit.role.Exit?
    ensures Appended(ms, [exit]) == ms + [exit] && AtExit(ms + [exit]) && Init(ms + [exit]) == ms
  {
  }

  lemma {:induction false} AddReply(ms: seq<Message>, reply: Message)
    requires AllAnswered(ms) && reply.role.Assistant? && Plain(reply)
    ensures var next := Appended(ms, [reply]); Closable(next) && next == ms + [reply] && Keeps(ms, next)
  {
    NothingOpenNothingAdded(ms, [reply]);
    Seqs.Snoc(ms, reply);
    PlainKeeps(ms, [reply]);
  }

  /** The formatter's results answer the reply they follow. */
  lemma {:induction false} AddResults(ms: seq<Message>, results: seq<Message>)
    requires Clean(ms) && ms != [] && ms[|ms| - 1].role.Assistant?
    requires AnswersReply(ms[|ms| - 1], results)
    ensures var next := Appended(ms, results); AllAnswered(next) && !AtExit(next) && Keeps(ms, next)
  {
    ResultsAnswer(ms, results);
    PlainKeeps(ms, results);
  }

  lemma {:induction false} ResultsAnswer(ms: seq<Message>, results: seq<Message>)
    requires Clean(ms) && ms != [] && ms[|ms| - 1].role.Assistant? && AnswersReply(ms[|ms| - 1], results)
    ensures Appended(ms, results) == ms + results && AllAnswered(ms + results) && !AtExit(ms + results)
    ensures Grounded(ms) ==> Grounded(ms + results)
  {
    var reply := ms[|ms| - 1];
    TurnAnswered(Init(ms), reply, results);
    Seqs.Cut(ms, |ms| - 1);
    assert ms[|ms| - 1..] == [reply];
    if results != [] {
      FirstResultFollows(reply, results);
      assert results[|results| - 1] in results;
    }
    NoClosersBefore(ms, results);
  }

  lemma {:induction false} TurnAnswered(before: seq<Message>, reply: Message, results: seq<Message>)
    requires Clean(before + [reply]) && reply.role.Assistant? && Paired([reply] + results)
    ensures AllAnswered(before + [reply] + results)
    ensures Grounded(before + [reply]) ==> Grounded(before + [reply] + results)
  {
    Seqs.Snoc(before, reply);
    PairedConcat(before, [reply] + results);
    Seqs.Assoc(before, [reply], results);
  }

  lemma {:induction false} NoClosersBefore(ms: seq<Message>, msgs: seq<Message>)
    requires ms != []
    requires msgs != [] ==> !msgs[0].role.User? || !ms[|ms| - 1].role.Assistant? || CallIds(ms[|ms| - 1]) == {}
    ensures Appended(ms, msgs) == ms + msgs
  {
    assert Closers(ms, msgs) == [];
    Seqs.Empty(ms);
  }

  /** No user message comes first while a call is open. */
  lemma {:induction false} FirstResultFollows(reply: Message, results: seq<Message>)
    requires results != [] && reply.role.Assistant? && Clean([reply] + results)
    ensures results[0].role.Tool? || CallIds(reply) == {}
  {
    Seqs.Uncons(results);
    Seqs.Assoc([reply], [results[0]], results[1..]);
    CleanPrefix([reply] + [results[0]], results[1..]);
    Seqs.Snoc([reply], results[0]);
  }

  lemma {:induction false} AddFormatError(ms: seq<Message>, draft: Option<Message>, complaint: Message)
    requires AllAnswered(ms) && complaint.role.User? && Plain(complaint)
    requires draft.Some? ==> draft.value.role.Assistant? && draft.value.calls == [] && Plain(draft.value)
    ensures var next := ms + (Opt(draft) + [complaint]); AllAnswered(next) && !AtExit(next) && Keeps(ms, next)
  {
    var mid := ms + Opt(draft);
    if draft.Some? {
      AddReply(ms, draft.value);
      assert CallIds(draft.value) == {};
      Seqs.Snoc(ms, draft.value);
    } else {
      Seqs.Empty(ms);
    }
    NothingOpenNothingAdded(mid, [complaint]);
    AddUser(mid, complaint);
    Seqs.Assoc(ms, Opt(draft), [complaint]);
  }

  /** A compaction appends a user message; the view pairs as its cut says, and what it does not skip stays told. */
  lemma {:induction false} AddSummary(ms: seq<Message>, p: Params, well: bool)
    requires WellFormed(ms) && Closable(ms) && Compacted(ms, p).Some?
    ensures AllAnswered(Compacted(ms, p).value)
    ensures NoExits(ms) ==> NoExits(Compacted(ms, p).value)
    ensures Viewed(ms, well) ==> Viewed(Compacted(ms, p).value, PairsAfter(ms, p))
    ensures Carried(ms) && KeepsList(ms, p) && Skipped(ms, p) == [] ==> Carried(Compacted(ms, p).value)
  {
    CompactedIs(ms, p);
    AppendUserCloses(ms, SummaryMessage(ms, p));
    NoExitsAdded(ms, SummaryMessage(ms, p));
    if Viewed(ms, well) {
      CompactionPairsIff(ms, p);
      SummaryMirrors(Compacted(ms, p).value, PairsAfter(ms, p));
    }
    if Carried(ms) && KeepsList(ms, p) {
      CompactionAccounts(ms, p);
    }
  }

  lemma {:induction false} NoExitsAdded(ms: seq<Message>, m: Message)
    requires !m.role.Exit?
    ensures NoExits(ms) ==> NoExits(Appended(ms, [m]))
  {
    var closers := Closers(ms, [m]);
    if NoExits(ms) {
      forall i | 0 <= i < |ms + closers + [m]| ensures !(ms + closers + [m])[i].role.Exit? {
        if |ms| <= i < |ms + closers| {
          assert (ms + closers + [m])[i] == closers[i - |ms|] && closers[i - |ms|] in closers;
        }
      }
    }
  }

  /** Paired, a view says the same as a paired history that ends on a user message. */
  lemma {:induction false} SummaryMirrors(next: seq<Message>, well: bool)
    requires PairedExactly(next, well) && WellFormed(next) && NoExits(next)
    requires next != [] && next[|next| - 1].role.User?
    ensures Viewed(next, well)
  {
  }

  // ---- every step, every run -------------------------------------------------------

  lemma {:induction false} StepKeeps(s: State, e: Event, well: bool)
    requires Answered(s) && Lawful(s, e)
    ensures Answered(Step(s, e))
    ensures Viewed(Body(s), well) ==> Viewed(Body(Step(s, e)), WellAfter(s, well, e))
    ensures Telling(s) && TellingCompaction(s, e) ==> Telling(Step(s, e))
  {
    if e.Interrupted? {
      InterruptKeeps(s);
    } else {
      match s.phase
      case Ready => ReadyKeeps(s, e, well);
      case Replied => RepliedKeeps(s, e, well);
      case Gate => GateKeeps(s, e, well);
      case Holding => HoldingKeeps(s, e, well);
      case Ended =>
    }
  }

  /** A run that is stopped ends with the history it has. */
  lemma {:induction false} InterruptKeeps(s: State)
    requires Answered(s)
    ensures Answered(Step(s, Interrupted))
    ensures NoExits(Body(s)) ==> Body(Step(s, Interrupted)) == Body(s)
  {
    if AtExit(s.messages) && !s.phase.Gate? && !s.phase.Ended? {
      BeforeExit(s.messages);
    }
  }

  /** Nothing is open before an exit. */
  lemma {:induction false} BeforeExit(ms: seq<Message>)
    requires AtExit(ms) && Clean(ms)
    ensures AllAnswered(Init(ms))
  {
  }

  lemma {:induction false} ReadyKeeps(s: State, e: Event, well: bool)
    requires s.phase.Ready? && Answered(s) && Lawful(s, e) && !e.Interrupted?
    ensures Answered(Step(s, e))
    ensures Viewed(Body(s), well) ==> Viewed(Body(Step(s, e)), WellAfter(s, well, e))
    ensures Telling(s) && TellingCompaction(s, e) ==> Telling(Step(s, e))
  {
    match e
    case Told(_) => ReadyGrows(s, e, well);
    case ModelSwitched(_) => ReadyGrows(s, e, well);
    case Compact(_) => ReadyGrows(s, e, well);
    case Summarized(_) => ReadyGrows(s, e, well);
    case FormatError(draft, complaint, last) => StepFormatError(s, draft, complaint, last, well);
    case _ => ReadyMoves(s, e, well);
  }

  /** The events after which the next query is still to be built. */
  lemma {:induction false} ReadyGrows(s: State, e: Event, well: bool)
    requires s.phase.Ready? && Answered(s) && Lawful(s, e)
    requires e.Told? || e.ModelSwitched? || e.Compact? || e.Summarized?
    ensures Answered(Step(s, e))
    ensures Viewed(Body(s), well) ==> Viewed(Body(Step(s, e)), WellAfter(s, well, e))
    ensures Telling(s) && TellingCompaction(s, e) ==> Telling(Step(s, e))
  {
    var ms := s.messages;
    match e
    case Told(note) => AddUser(ms, note);
    case ModelSwitched(note) => NothingOpenNothingAdded(ms, [note]); AddUser(ms, note);
    case Compact(p) => CompactKeeps(s, p, well);
    case Summarized(summary) => AppendUserCloses(ms, summary);
  }

  lemma {:induction false} CompactKeeps(s: State, p: Params, well: bool)
    requires (s.phase.Ready? || s.phase.Holding?) && Answered(s) && Lawful(s, Compact(p))
    ensures Answered(Step(s, Compact(p)))
    ensures Viewed(Body(s), well) ==> Viewed(Body(Step(s, Compact(p))), WellAfter(s, well, Compact(p)))
    ensures Telling(s) && TellingCompaction(s, Compact(p)) ==> Telling(Step(s, Compact(p)))
  {
    if Compacted(s.messages, p).Some? {
      var next := Compacted(s.messages, p).value;
      SummaryStep(s, p);
      AddSummary(s.messages, p, well);
      Replaced(s, next, well, PairsAfter(s.messages, p), KeepsList(s.messages, p) && Skipped(s.messages, p) == []);
    }
  }

  /** A history that takes another's place while the run waits. */
  lemma {:induction false} Replaced(s: State, next: seq<Message>, well: bool, well': bool, stable: bool)
    requires (s.phase.Ready? || s.phase.Holding?) && Answered(s) && AllAnswered(next)
    requires (Viewed(s.messages, well) ==> Viewed(next, well')) && (NoExits(s.messages) ==> NoExits(next))
    requires stable && Carried(s.messages) ==> Carried(next)
    ensures var t := s.(messages := next);
            && Answered(t) && (Viewed(Body(s), well) ==> Viewed(Body(t), well')) && (Telling(s) && stable ==> Telling(t))
  {
  }

  lemma {:induction false} SummaryStep(s: State, p: Params)
    requires (s.phase.Ready? || s.phase.Holding?) && WellFormed(s.messages) && Compacted(s.messages, p).Some?
    ensures Step(s, Compact(p)) == s.(messages := Compacted(s.messages, p).value) && Compacts(s, Compact(p))
  {
  }

  lemma {:induction false} ReadyMoves(s: State, e: Event, well: bool)
    requires s.phase.Ready? && Answered(s) && Lawful(s, e) && !e.Interrupted?
    requires !e.Told? && !e.ModelSwitched? && !e.Compact? && !e.Summarized? && !e.FormatError?
    ensures Answered(Step(s, e))
    ensures Viewed(Body(s), well) ==> Viewed(Body(Step(s, e)), WellAfter(s, well, e))
    ensures Telling(s) ==> Telling(Step(s, e))
  {
    match e
    case Halted(exit) => AddExit(s.messages, exit);
    case Reply(reply) => AddReply(s.messages, reply);
    case _ =>
  }

  lemma {:induction false} RepliedKeeps(s: State, e: Event, well: bool)
    requires s.phase.Replied? && Answered(s) && Lawful(s, e) && !e.Interrupted?
    ensures Answered(Step(s, e))
    ensures Viewed(Body(s), well) ==> Viewed(Body(Step(s, e)), WellAfter(s, well, e))
    ensures Telling(s) ==> Telling(Step(s, e))
  {
    var ms := s.messages;
    match e
    case Turned(note) => AddUser(ms, note);
    case Proposed(exit) => AddExit(ms, exit);
    case Observed(results, last) => StepObserved(s, results, last, well);
    case _ =>
  }

  lemma {:induction false} GateKeeps(s: State, e: Event, well: bool)
    requires s.phase.Gate? && Answered(s) && Lawful(s, e) && !e.Interrupted?
    ensures Answered(Step(s, e))
    ensures Viewed(Body(s), well) ==> Viewed(Body(Step(s, e)), WellAfter(s, well, e))
    ensures Telling(s) ==> Telling(Step(s, e))
  {
    var ms := s.messages;
    if AtExit(ms) {
      match e
      case Rejected(note) => AddUser(Init(ms), note);
      case Failed(exit) => AddExit(Init(ms), exit);
      case _ =>
    }
  }

  lemma {:induction false} HoldingKeeps(s: State, e: Event, well: bool)
    requires s.phase.Holding? && Answered(s) && Lawful(s, e) && !e.Interrupted?
    ensures Answered(Step(s, e))
    ensures Viewed(Body(s), well) ==> Viewed(Body(Step(s, e)), WellAfter(s, well, e))
    ensures Telling(s) && TellingCompaction(s, e) ==> Telling(Step(s, e))
  {
    var ms := s.messages;
    match e
    case Told(note) => AddUser(ms, note);
    case Compact(p) => CompactKeeps(s, p, well);
    case Summarized(summary) => AppendUserCloses(ms, summary);
    case FollowUp(note) => AddUser(ms, note);
    case Released => ReleaseKeeps(s);
    case _ =>
  }

  lemma {:induction false} ReleaseKeeps(s: State)
    requires s.phase.Holding? && Answered(s)
    ensures Answered(Step(s, Released))
    ensures NoExits(Body(s)) ==> Body(Step(s, Released)) == Body(s)
  {
    if s.exit.Some? {
      AddExit(s.messages, s.exit.value);
    } else {
      Seqs.Empty(s.messages);
      if AtExit(s.messages) {
        BeforeExit(s.messages);
      }
    }
  }

  lemma {:induction false} StepFormatError(s: State, draft: Option<Message>, complaint: Message, last: Option<Message>, well: bool)
    requires s.phase.Ready? && Answered(s) && Lawful(s, FormatError(draft, complaint, last))
    ensures Answered(Step(s, FormatError(draft, complaint, last)))
    ensures Viewed(Body(s), well) ==> Viewed(Body(Step(s, FormatError(draft, complaint, last))), well)
    ensures Telling(s) ==> Telling(Step(s, FormatError(draft, complaint, last)))
  {
    var ms := s.messages;
    var next := ms + (Opt(draft) + [complaint]);
    AddFormatError(ms, draft, complaint);
    NothingOpenNothingAdded(ms, Opt(draft) + [complaint] + Opt(last));
    Seqs.Assoc(ms, Opt(draft) + [complaint], Opt(last));
    ReachesGate(s, next, last, Step(s, FormatError(draft, complaint, last)), well);
  }

  /** A step that keeps everything and leaves the run at its gate, with an exit at the end or without one. */
  lemma {:induction false} ReachesGate(s: State, next: seq<Message>, last: Option<Message>, done: State, well: bool)
    requires s.phase.Ready? && AllAnswered(next) && !AtExit(next) && Keeps(s.messages, next)
    requires done.phase.Gate? && done.messages == next + Opt(last) && (last.Some? ==> last.value.role.Exit?)
    ensures Answered(done)
    ensures Viewed(Body(s), well) ==> Viewed(Body(done), well)
    ensures Telling(s) ==> Telling(done)
  {
    AtGate(next, last, done);
  }

  lemma {:induction false} AtGate(next: seq<Message>, last: Option<Message>, done: State)
    requires AllAnswered(next) && !AtExit(next)
    requires done.phase.Gate? && done.messages == next + Opt(last) && (last.Some? ==> last.value.role.Exit?)
    ensures Answered(done) && Body(done) == next
  {
    if last.Some? {
      AddExit(next, last.value);
    } else {
      Seqs.Empty(next);
    }
  }

  lemma {:induction false} StepObserved(s: State, results: seq<Message>, last: Option<Message>, well: bool)
    requires s.phase.Replied? && Answered(s) && Lawful(s, Observed(results, last))
    ensures Answered(Step(s, Observed(results, last)))
    ensures Viewed(Body(s), well) ==> Viewed(Body(Step(s, Observed(results, last))), well)
    ensures Telling(s) ==> Telling(Step(s, Observed(results, last)))
  {
    AddResults(s.messages, results);
    var next := Appended(s.messages, results);
    NothingOpenNothingAdded(next, Opt(last));
    AtGate(next, last, Step(s, Observed(results, last)));
  }

  function Run(s: State, tape: seq<Event>): State
    decreases |tape|
  {
    if tape == [] then s else Run(Step(s, tape[0]), tape[1..])
  }

  predicate LawfulRun(s: State, tape: seq<Event>)
    decreases |tape|
  {
    tape != [] ==> Lawful(s, tape[0]) && LawfulRun(Step(s, tape[0]), tape[1..])
  }

  /** A lawful event takes one state to the next. */
  predicate Leads(s: State, e: Event, next: State) {
    Lawful(s, e) && Step(s, e) == next
  }

  lemma {:induction false} RunFrom(s: State, tape: seq<Event>, i: nat, next: State)
    requires i < |tape| && Leads(s, tape[i], next)
    ensures Run(s, tape[i..]) == Run(next, tape[i + 1..])
    ensures LawfulRun(next, tape[i + 1..]) ==> LawfulRun(s, tape[i..])
  {
    assert tape[i..][1..] == tape[i + 1..];
  }

  /** Whether the latest compaction of a run paired well. */
  predicate WellAfterAll(s: State, well: bool, tape: seq<Event>)
    decreases |tape|
  {
    if tape == [] then well else WellAfterAll(Step(s, tape[0]), WellAfter(s, well, tape[0]), tape[1..])
  }

  predicate TellingCompactions(s: State, tape: seq<Event>)
    decreases |tape|
  {
    tape != [] ==> TellingCompaction(s, tape[0]) && TellingCompactions(Step(s, tape[0]), tape[1..])
  }

  lemma {:induction false} RunKeeps(s: State, tape: seq<Event>, well: bool)
    requires Answered(s) && LawfulRun(s, tape)
    ensures Answered(Run(s, tape))
    ensures Viewed(Body(s), well) ==> Viewed(Body(Run(s, tape)), WellAfterAll(s, well, tape))
    ensures Telling(s) && TellingCompactions(s, tape) ==> Telling(Run(s, tape))
    decreases |tape|
  {
    if tape != [] {
      StepKeeps(s, tape[0], well);
      RunKeeps(Step(s, tape[0]), tape[1..], WellAfter(s, well, tape[0]));
    }
  }

  /**
    In every run, whenever the loop is about to query the model every tool call of the history has its
    result before the next message that is not one: across submit markers, popped exits, rejections, loop
    recovery, follow-ups, fallbacks and compactions.
   */
  lemma {:induction false} EveryQueryIsAnswered(s: State, tape: seq<Event>)
    requires Answered(s) && LawfulRun(s, tape) && Run(s, tape).phase.Ready?
    ensures EveryCallAnswered(Run(s, tape).messages)
  {
    RunKeeps(s, tape, true);
    AnsweredMeans(Run(s, tape).messages);
  }

  /** In every run from a sound start, the view of every query is paired if and only if the latest compaction paired well. */
  lemma {:induction false} EveryViewIsPairedIff(s: State, tape: seq<Event>)
    requires Sound(s) && LawfulRun(s, tape) && Run(s, tape).phase.Ready?
    ensures WellFormed(Run(s, tape).messages)
    ensures Paired(View(Run(s, tape).messages)) <==> WellAfterAll(s, true, tape)
  {
    RunKeeps(s, tape, true);
  }

  // ---- the query for a summary -----------------------------------------------------

  /** The history and a prompt behind it, as far as the view goes. */
  lemma {:induction false} PromptBehind(ms: seq<Message>, prompt: Message, well: bool)
    requires Viewed(ms, well) && Closable(ms) && prompt.role.User?
    ensures Paired(View(ms) + [prompt]) <==> well && NoOpenCall(ms)
    ensures well ==> (AllAnswered(View(ms) + [prompt]) <==> NoOpenCall(ms))
  {
    var view := View(ms);
    Seqs.Snoc(view, prompt);
    OpenAtEnd(ms);
  }

  /** In a closable history a call is pending exactly when the last message is one. */
  lemma {:induction false} OpenAtEnd(ms: seq<Message>)
    requires Closable(ms)
    ensures Pending(ms) == {} <==> NoOpenCall(ms)
  {
  }

  /** The query for a summary is paired exactly when the view was and no call is open. */
  ghost predicate SummaryQueryExact(ms: seq<Message>, prompt: Message, well: bool) {
    WellFormed(ms) && (Paired(View(ms) + [prompt]) <==> well && NoOpenCall(ms))
  }

  /**
    In every run from a sound start, wherever a compaction may fire: the query it sends, the view and a
    prompt, is paired if and only if the latest compaction paired well and no call is open. While the run
    holds behind a submit marker a call is.
   */
  lemma {:induction false} EverySummaryQueryIff(s: State, tape: seq<Event>, prompt: Message)
    requires Sound(s) && LawfulRun(s, tape) && prompt.role.User?
    requires Run(s, tape).phase.Ready? || Run(s, tape).phase.Holding?
    ensures SummaryQueryExact(Run(s, tape).messages, prompt, WellAfterAll(s, true, tape))
  {
    RunKeeps(s, tape, true);
    SummaryQueryIff(Run(s, tape), prompt, WellAfterAll(s, true, tape));
  }

  lemma {:induction false} SummaryQueryIff(s: State, prompt: Message, well: bool)
    requires (s.phase.Ready? || s.phase.Holding?) && Answered(s) && Viewed(Body(s), well) && prompt.role.User?
    ensures SummaryQueryExact(s.messages, prompt, well)
  {
    PromptBehind(s.messages, prompt, well);
  }

  // ---- what every query tells ------------------------------------------------------

  /**
    In every run whose compactions pass the old list on and skip nothing that was asked, the list in the
    latest summary with the requests in the tail is everything the user asked, up to the cap.
   */
  lemma {:induction false} EveryViewTells(s: State, tape: seq<Event>)
    requires Telling(s) && LawfulRun(s, tape) && TellingCompactions(s, tape) && Run(s, tape).phase.Ready?
    ensures var ms := Run(s, tape).messages;
            && WellFormed(ms)
            && (LastSummary(ms) >= 0 ==>
                  var head := ms[LastSummary(ms)].compaction.value.head;
                  Capped(UserRequests(View(ms)[head..])) == Capped(Asked(ms, head, |ms|)))
  {
    RunKeeps(s, tape, true);
    var ms := Run(s, tape).messages;
    if LastSummary(ms) >= 0 {
      ViewTellsEveryRequest(ms);
    }
  }

  /** A fresh run starts sound and telling. */
  lemma {:induction false} FreshRunStarts(system: Message, task: Message)
    requires system.role.System? && task.role.User? && Plain(system) && Plain(task)
    ensures Sound(State([system, task], Ready, None)) && Telling(State([system, task], Ready, None))
  {
    var ms := [system, task];
    NoCallsPaired(ms);
    assert LastSummary(ms) == -1;
    assert View(ms) == ms;
  }

  /**
    A run that goes on after its fast answer was rejected starts sound and telling: system prompt and task
    were put in front of the answer and the rejection, with results for calls the answer may carry.
   */
  lemma {:induction false} RejectedFastStarts(system: Message, task: Message, answer: Message, note: Message)
    requires system.role.System? && task.role.User? && Plain(system) && Plain(task)
    requires answer.role.Assistant? && Plain(answer) && note.role.User? && Plain(note)
    ensures var start := State([system, task] + Appended([answer], [note]), Ready, None); Sound(start) && Telling(start)
  {
    var front := [system, task];
    FreshRunStarts(system, task);
    AddReply(front, answer);
    AddUser(front + [answer], note);
    SameClosers(front, answer, note);
  }

  lemma {:induction false} SameClosers(front: seq<Message>, answer: Message, note: Message)
    ensures front + Appended([answer], [note]) == Appended(front + [answer], [note])
  {
    var closers := Closers([answer], [note]);
    assert Closers(front + [answer], [note]) == closers;
    Seqs.Assoc(front, [answer] + closers, [note]);
    Seqs.Assoc(front, [answer], closers);
  }

  /** A resumed run starts with every call answered, whatever the stored history held. */
  lemma {:induction false} ResumedRunStarts(history: seq<Message>, task: Message)
    requires task.role.User?
    ensures Answered(State(Appended(Repaired(history), [task]), Ready, None))
  {
    RepairAnswersEveryCall(history);
    AppendUserCloses(Repaired(history), task);
  }
}
