/** Stretches of lawful runs, put together from single events. */
module Runs {
  import opened Transcript
  import opened Repair
  import opened ContextView
  import opened Conversation
  import opened Sessions
  import Seqs

  // ---- one turn --------------------------------------------------------------------

  lemma {:induction false} TurnAnswers(call: Message, result: Message)
    requires Turn(call, result)
    ensures AnswersReply(call, [result])
  {
    AnsweredTurn([], call, result);
    assert [] + [call, result] == [call] + [result];
  }

  /** A call and its result: three events. */
  lemma {:induction false} TurnLeads(ms: seq<Message>, call: Message, result: Message)
    requires AllAnswered(ms) && Turn(call, result)
    ensures Leads(State(ms, Ready, None), Reply(call), State(ms + [call], Replied, None))
    ensures Leads(State(ms + [call], Replied, None), Observed([result], None), State(ms + [call] + [result], Gate, None))
    ensures Leads(State(ms + [call] + [result], Gate, None), TurnOver, State(ms + [call] + [result], Ready, None))
  {
    TurnAnswers(call, result);
    NothingOpenNothingAdded(ms, [call]);
    NoClosersBefore(ms + [call], [result]);
    NoClosersBefore(ms + [call] + [result], []);
    Seqs.Empty(ms + [call] + [result]);
  }

  /** From event `i` in state `s` the run is the run from event `j` in state `next`. */
  ghost predicate Reaches(s: State, tape: seq<Event>, i: nat, next: State, j: nat) {
    && i <= j <= |tape| && Run(s, tape[i..]) == Run(next, tape[j..])
    && (LawfulRun(next, tape[j..]) ==> LawfulRun(s, tape[i..]))
  }

  lemma {:induction false} ReachesOn(a: State, tape: seq<Event>, i: nat, b: State, j: nat, c: State, k: nat)
    requires Reaches(a, tape, i, b, j) && Reaches(b, tape, j, c, k)
    ensures Reaches(a, tape, i, c, k)
  {
  }

  lemma {:induction false} RunTurn(ms: seq<Message>, call: Message, result: Message, tape: seq<Event>, i: nat)
    requires AllAnswered(ms) && Turn(call, result) && i + 3 <= |tape|
    requires tape[i] == Reply(call) && tape[i + 1] == Observed([result], None) && tape[i + 2] == TurnOver
    ensures Reaches(State(ms, Ready, None), tape, i, State(ms + [call, result], Ready, None), i + 3)
  {
    TurnLeads(ms, call, result);
    assert ms + [call] + [result] == ms + [call, result];
    RunFrom(State(ms + [call] + [result], Gate, None), tape, i + 2, State(ms + [call, result], Ready, None));
    RunFrom(State(ms + [call], Replied, None), tape, i + 1, State(ms + [call] + [result], Gate, None));
    RunFrom(State(ms, Ready, None), tape, i, State(ms + [call], Replied, None));
  }

  lemma {:induction false} RunCompaction(ms: seq<Message>, p: Params, tape: seq<Event>, i: nat)
    requires WellFormed(ms) && NoOpenCall(ms) && Compacted(ms, p).Some? && i < |tape| && tape[i] == Compact(p)
    ensures Reaches(State(ms, Ready, None), tape, i, State(ms + [SummaryMessage(ms, p)], Ready, None), i + 1)
  {
    NoClosersNeeded(ms, SummaryMessage(ms, p));
    RunFrom(State(ms, Ready, None), tape, i, State(ms + [SummaryMessage(ms, p)], Ready, None));
  }

  lemma {:induction false} TurnThenCompaction(ms: seq<Message>, call: Message, result: Message, p: Params, tape: seq<Event>, i: nat, next: seq<Message>)
    requires AllAnswered(ms) && Turn(call, result) && i + 4 <= |tape| && next == ms + [call, result]
    requires tape[i] == Reply(call) && tape[i + 1] == Observed([result], None) && tape[i + 2] == TurnOver
    requires tape[i + 3] == Compact(p) && WellFormed(next) && NoOpenCall(next) && Compacted(next, p).Some?
    ensures Reaches(State(ms, Ready, None), tape, i, State(next + [SummaryMessage(next, p)], Ready, None), i + 4)
  {
    RunTurn(ms, call, result, tape, i);
    RunCompaction(next, p, tape, i + 3);
    ReachesOn(State(ms, Ready, None), tape, i, State(next, Ready, None), i + 3,
              State(next + [SummaryMessage(next, p)], Ready, None), i + 4);
  }

  lemma {:induction false} RunAsked(ms: seq<Message>, ask: Message, tape: seq<Event>, i: nat)
    requires AllAnswered(ms) && ask.role.User? && Plain(ask) && i < |tape| && tape[i] == Told(ask)
    ensures Reaches(State(ms, Ready, None), tape, i, State(ms + [ask], Ready, None), i + 1)
  {
    NothingOpenNothingAdded(ms, [ask]);
    RunFrom(State(ms, Ready, None), tape, i, State(ms + [ask], Ready, None));
  }

  lemma {:induction false} AskTurnCompaction(
      ms: seq<Message>, ask: Message, call: Message, result: Message, p: Params, tape: seq<Event>, next: seq<Message>)
    requires AllAnswered(ms) && AllAnswered(ms + [ask]) && ask.role.User? && Plain(ask) && Turn(call, result)
    requires 5 <= |tape| && tape[0] == Told(ask) && next == ms + [ask] + [call, result]
    requires tape[1] == Reply(call) && tape[2] == Observed([result], None) && tape[3] == TurnOver && tape[4] == Compact(p)
    requires WellFormed(next) && NoOpenCall(next) && Compacted(next, p).Some?
    ensures Reaches(State(ms, Ready, None), tape, 0, State(next + [SummaryMessage(next, p)], Ready, None), 5)
  {
    RunAsked(ms, ask, tape, 0);
    TurnThenCompaction(ms + [ask], call, result, p, tape, 1, next);
    ReachesOn(State(ms, Ready, None), tape, 0, State(ms + [ask], Ready, None), 1,
              State(next + [SummaryMessage(next, p)], Ready, None), 5);
  }

  lemma {:induction false} ReachesEnd(s: State, tape: seq<Event>, next: State)
    requires Reaches(s, tape, 0, next, |tape|)
    ensures Run(s, tape) == next && LawfulRun(s, tape)
  {
    assert tape[0..] == tape && tape[|tape|..] == [];
  }

  // ---- a run that holds ------------------------------------------------------------

  /** A command that submits: its call stays open, and its exit is popped. */
  lemma {:induction false} RunToHold(ms: seq<Message>, call: Message, exit: Message, tape: seq<Event>, i: nat)
    requires AllAnswered(ms) && call.role.Assistant? && Plain(call) && exit.role.Exit? && Plain(exit) && i + 3 <= |tape|
    requires tape[i] == Reply(call) && tape[i + 1] == Proposed(exit) && tape[i + 2] == TurnOver
    ensures Reaches(State(ms, Ready, None), tape, i, State(ms + [call], Holding, Some(exit)), i + 3)
  {
    var held := ms + [call];
    NothingOpenNothingAdded(ms, [call]);
    AddExit(held, exit);
    RunFrom(State(held + [exit], Gate, None), tape, i + 2, State(held, Holding, Some(exit)));
    RunFrom(State(held, Replied, None), tape, i + 1, State(held + [exit], Gate, None));
    RunFrom(State(ms, Ready, None), tape, i, State(held, Replied, None));
  }

  lemma {:induction false} CompactWhileHolding(ms: seq<Message>, p: Params, exit: Message, tape: seq<Event>, i: nat)
    requires WellFormed(ms) && Compacted(ms, p).Some? && i < |tape| && tape[i] == Compact(p)
    ensures Reaches(State(ms, Holding, Some(exit)), tape, i, State(Compacted(ms, p).value, Holding, Some(exit)), i + 1)
  {
    RunFrom(State(ms, Holding, Some(exit)), tape, i, State(Compacted(ms, p).value, Holding, Some(exit)));
  }

  lemma {:induction false} FollowedUp(ms: seq<Message>, note: Message, exit: Message, tape: seq<Event>, i: nat)
    requires AllAnswered(ms) && note.role.User? && Plain(note) && i < |tape| && tape[i] == FollowUp(note)
    ensures Reaches(State(ms, Holding, Some(exit)), tape, i, State(ms + [note], Ready, None), i + 1)
  {
    NothingOpenNothingAdded(ms, [note]);
    RunFrom(State(ms, Holding, Some(exit)), tape, i, State(ms + [note], Ready, None));
  }

  /** A compaction while the run holds, and a follow-up: the end of a run. */
  lemma {:induction false} HeldEnds(start: State, ms: seq<Message>, p: Params, exit: Message, note: Message, tape: seq<Event>)
    requires |tape| >= 2 && tape[|tape| - 2] == Compact(p) && tape[|tape| - 1] == FollowUp(note)
    requires Reaches(start, tape, 0, State(ms, Holding, Some(exit)), |tape| - 2)
    requires WellFormed(ms) && Compacted(ms, p).Some? && AllAnswered(Compacted(ms, p).value) && note.role.User? && Plain(note)
    ensures Run(start, tape) == State(Compacted(ms, p).value + [note], Ready, None) && LawfulRun(start, tape)
  {
    CompactWhileHolding(ms, p, exit, tape, |tape| - 2);
    ReachesOn(start, tape, 0, State(ms, Holding, Some(exit)), |tape| - 2, State(Compacted(ms, p).value, Holding, Some(exit)), |tape| - 1);
    HeldFollowedUp(start, Compacted(ms, p).value, exit, note, tape);
  }

  lemma {:induction false} HeldFollowedUp(start: State, ms: seq<Message>, exit: Message, note: Message, tape: seq<Event>)
    requires |tape| >= 1 && tape[|tape| - 1] == FollowUp(note) && AllAnswered(ms) && note.role.User? && Plain(note)
    requires Reaches(start, tape, 0, State(ms, Holding, Some(exit)), |tape| - 1)
    ensures Run(start, tape) == State(ms + [note], Ready, None) && LawfulRun(start, tape)
  {
    FollowedUp(ms, note, exit, tape, |tape| - 1);
    ReachesOn(start, tape, 0, State(ms, Holding, Some(exit)), |tape| - 1, State(ms + [note], Ready, None), |tape|);
    ReachesEnd(start, tape, State(ms + [note], Ready, None));
  }
}
