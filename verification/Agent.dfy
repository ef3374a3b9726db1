/** The agent's own fields, and the methods that change them in place. */
module AgentState {
  import opened Transcript
  import opened Repair
  import opened Requests
  import opened ContextView
  import opened Journal
  import opened Numbers
  import Compaction
  import G = Gates
  import Seqs

  /** What becomes of the history when a gate has judged the exit at its end. */
  function Judged(ms: seq<Message>, verdict: G.Verdict, note: Message, failure: Message): seq<Message>
    requires AtExit(ms)
  {
    var body := ms[..|ms| - 1];
    match verdict
    case Accepted => ms
    case SentBack => Appended(body, [note])
    case Failed => Appended(body, [failure])
  }

  /** The step that ends the judging of a popped exit. */
  function ClosingOp(verdict: G.Verdict, exit: Message, note: Message, failure: Message): Op {
    match verdict
    case Accepted => Push(exit)
    case SentBack => Add([note])
    case Failed => Add([failure])
  }

  /** What a save meets: how the journal's write goes, whether the last export is too old, whether an export succeeds. */
  datatype Saving = Saving(write: Write, tooOld: bool, exports: bool)

  /** The export cursor after a save. */
  function CursorAfter(ms: seq<Message>, exported: nat, force: bool, x: Saving): nat {
    if (force || AtExit(ms) || CountDue(|ms|, exported) || x.tooOld) && x.exports then |ms| else exported
  }

  /** A full export is made by force, at an exit, when the last one is too old, or once 20 messages and a tenth of all are new; else none. */
  lemma {:induction false} ExportIsDue(ms: seq<Message>, exported: nat, force: bool, x: Saving)
    ensures x.exports && (force || x.tooOld || (ms != [] && ms[|ms| - 1].role.Exit?)) ==> CursorAfter(ms, exported, force, x) == |ms|
    ensures x.exports && |ms| >= exported + 20 && 10 * (|ms| - exported) >= |ms| ==> CursorAfter(ms, exported, force, x) == |ms|
    ensures !x.exports ==> CursorAfter(ms, exported, force, x) == exported
    ensures !force && !x.tooOld && !AtExit(ms) && (|ms| < exported + 20 || 10 * (|ms| - exported + 1) <= |ms|) ==>
              CursorAfter(ms, exported, force, x) == exported
  {
  }

  /** The log and the export cursor after a save, an append and another save. */
  function CompactedLog(l: Log, exported: nat, msgs: seq<Message>, before: Saving, after: Saving): (Log, nat) {
    var next := Apply(Saved(l, before.write), Add(msgs));
    (Saved(next, after.write), CursorAfter(next.messages, CursorAfter(l.messages, exported, false, before), false, after))
  }

  /** How often the judge cannot be asked before it answers, gives up or is stopped. */
  function Outages(errors: nat, reply: nat -> G.Reply, attempt: nat): nat
    decreases if errors < 3 then 3 - errors else 0
  {
    if !reply(attempt).Unavailable? then 0
    else if errors + 1 >= 3 then 1
    else 1 + Outages(errors + 1, reply, attempt + 1)
  }

  /** The log after `n` saves, the first of them at `attempt`. */
  function SavedTimes(l: Log, saving: nat -> Saving, attempt: nat, n: nat): Log
    decreases n
  {
    if n == 0 then l else SavedTimes(Saved(l, saving(attempt).write), saving, attempt + 1, n - 1)
  }

  function CursorTimes(ms: seq<Message>, exported: nat, saving: nat -> Saving, attempt: nat, n: nat): nat
    decreases n
  {
    if n == 0 then exported else CursorTimes(ms, CursorAfter(ms, exported, true, saving(attempt)), saving, attempt + 1, n - 1)
  }

  /** The judge's loop as it acts on the log, the export cursor and the gate. */
  function JudgeRun(l: Log, exported: nat, g: G.Gate, ask: Ask, attempt: nat): (Log, nat, G.Gate)
    decreases if g.errors < 3 then 3 - g.errors else 0
  {
    match ask.reply(attempt)
    case Halt => (Apply(l, Push(ask.exit)), exported, g)
    case Complete => (Apply(l, Push(ask.exit)), exported, g.(errors := 0))
    case Incomplete(gap) =>
      var (next, verdict) := G.OnIncomplete(g, ask.cap, gap);
      (Apply(l, ClosingOp(verdict, ask.exit, ask.note, ask.failure)), exported, next)
    case Unavailable =>
      var next := g.(errors := g.errors + 1);
      var saved := Saved(l, ask.saving(attempt).write);
      var cursor := CursorAfter(l.messages, exported, true, ask.saving(attempt));
      if next.errors >= 3 then (Apply(saved, Add([ask.failure])), cursor, next)
      else JudgeRun(saved, cursor, next, ask, attempt + 1)
  }

  /** What one judging is given: the popped exit, the cap, the replies, the saves, and the two messages it may add. */
  datatype Ask = Ask(exit: Message, cap: nat, reply: nat -> G.Reply, saving: nat -> Saving, note: Message, failure: Message)

  /** The gate's verdict decides how the loop ends; before that it saves once per outage. */
  lemma {:induction false} JudgeRunMeans(l: Log, exported: nat, g: G.Gate, ask: Ask, attempt: nat)
    ensures var n := Outages(g.errors, ask.reply, attempt);
            && JudgeRun(l, exported, g, ask, attempt).0 == JudgedLog(l, g, ask, attempt, n)
            && JudgeRun(l, exported, g, ask, attempt).1 == CursorTimes(l.messages, exported, ask.saving, attempt, n)
            && JudgeRun(l, exported, g, ask, attempt).2 == G.Judge(g, ask.cap, ask.reply, attempt).0
    decreases if g.errors < 3 then 3 - g.errors else 0
  {
    var n := Outages(g.errors, ask.reply, attempt);
    if ask.reply(attempt).Unavailable? {
      var next := g.(errors := g.errors + 1);
      JudgeUnavailable(l, exported, g, ask, attempt);
      OneMoreSave(l, exported, ask.saving, attempt, n);
      if next.errors < 3 {
        JudgeRunMeans(Saved(l, ask.saving(attempt).write), CursorAfter(l.messages, exported, true, ask.saving(attempt)), next, ask, attempt + 1);
      }
    } else {
      JudgeAnswers(l, exported, g, ask, attempt);
    }
  }

  /** One outage: a save, and then the end or the next attempt. */
  lemma {:induction false} JudgeUnavailable(l: Log, exported: nat, g: G.Gate, ask: Ask, attempt: nat)
    requires ask.reply(attempt).Unavailable?
    ensures var next, saved := g.(errors := g.errors + 1), Saved(l, ask.saving(attempt).write);
            var cursor := CursorAfter(l.messages, exported, true, ask.saving(attempt));
            && (next.errors >= 3 ==>
                  && JudgeRun(l, exported, g, ask, attempt) == (Apply(saved, Add([ask.failure])), cursor, next)
                  && G.Judge(g, ask.cap, ask.reply, attempt) == (next, G.Failed) && Outages(g.errors, ask.reply, attempt) == 1)
            && (next.errors < 3 ==>
                  && JudgeRun(l, exported, g, ask, attempt) == JudgeRun(saved, cursor, next, ask, attempt + 1)
                  && G.Judge(g, ask.cap, ask.reply, attempt) == G.Judge(next, ask.cap, ask.reply, attempt + 1)
                  && Outages(g.errors, ask.reply, attempt) == 1 + Outages(next.errors, ask.reply, attempt + 1))
  {
  }

  lemma {:induction false} JudgeAnswers(l: Log, exported: nat, g: G.Gate, ask: Ask, attempt: nat)
    requires !ask.reply(attempt).Unavailable?
    ensures Outages(g.errors, ask.reply, attempt) == 0
    ensures var judged := G.Judge(g, ask.cap, ask.reply, attempt);
            JudgeRun(l, exported, g, ask, attempt) ==
              (Apply(l, ClosingOp(judged.1, ask.exit, ask.note, ask.failure)), exported, judged.0)
  {
  }

  /** The log when the judging is over: the saves of the outages, then what the verdict adds. */
  function JudgedLog(l: Log, g: G.Gate, ask: Ask, attempt: nat, n: nat): Log {
    Apply(SavedTimes(l, ask.saving, attempt, n),
          ClosingOp(G.Judge(g, ask.cap, ask.reply, attempt).1, ask.exit, ask.note, ask.failure))
  }

  lemma {:induction false} OneMoreSave(l: Log, exported: nat, saving: nat -> Saving, attempt: nat, n: nat)
    requires n > 0
    ensures SavedTimes(l, saving, attempt, n) == SavedTimes(Saved(l, saving(attempt).write), saving, attempt + 1, n - 1)
    ensures CursorTimes(l.messages, exported, saving, attempt, n)
         == CursorTimes(l.messages, CursorAfter(l.messages, exported, true, saving(attempt)), saving, attempt + 1, n - 1)
    ensures SavedTimes(l, saving, attempt, 0) == l && CursorTimes(l.messages, exported, saving, attempt, 0) == exported
  {
  }

  lemma {:induction false} SavesKeepMessages(l: Log, saving: nat -> Saving, attempt: nat, n: nat)
    ensures SavedTimes(l, saving, attempt, n).messages == l.messages
    decreases n
  {
    if n > 0 {
      SavesKeepMessages(Saved(l, saving(attempt).write), saving, attempt + 1, n - 1);
    }
  }

  /** The history when the judging of its exit is over. */
  lemma {:induction false} JudgedMessages(l: Log, ms: seq<Message>, g: G.Gate, ask: Ask, n: nat)
    requires ms == l.messages + [ask.exit] && ask.exit.role.Exit?
    ensures JudgedLog(l, g, ask, 0, n).messages == Judged(ms, G.Judge(g, ask.cap, ask.reply, 0).1, ask.note, ask.failure)
  {
    SavesKeepMessages(l, ask.saving, 0, n);
    Seqs.Snoc(l.messages, ask.exit);
  }

  /** Where to cut, and the summary message that goes with it; nothing when there is too little to summarize. */
  method Summarize(ms: seq<Message>, p: Params) returns (summary: Option<Message>)
    requires WellFormed(ms)
    ensures summary.Some? <==> Compacted(ms, p).Some?
    ensures summary.Some? ==> summary.value == SummaryMessage(ms, p) && Compacted(ms, p).value == Appended(ms, [summary.value])
  {
    var indices := ContextIndices(ms);
    var view := Pick(ms, indices);
    var head := Compaction.ComputeHeadLength(ms, p.headChars);
    var lower := head;
    if head < |indices| && ms[indices[head]].compaction.Some? {
      lower := lower + 1;
    }
    var tailPos := Compaction.ComputeTailStart(view, lower, p.keepChars);
    CutIs(ms, p, head, lower, tailPos);
    if tailPos <= lower && !p.overflow {
      return None;
    }
    var tailStart := if tailPos < |indices| then indices[tailPos] else |ms|;
    assert CutOf(ms, p) == Cut(head, lower, tailPos, tailStart);
    var message := SummaryFor(ms, Cut(head, lower, tailPos, tailStart), p.summary);
    summary := Some(message);
  }

  method SummaryFor(ms: seq<Message>, c: Cut, text: string) returns (summary: Message)
    requires WellFormed(ms) && c.head <= c.tailPos <= |ContextIndices(ms)| && c.tailStart <= |ms|
    ensures summary == SummaryAt(ms, c, text)
  {
    var all := ComputeUserRequests(View(ms)[c.head..c.tailPos]);
    var requests := CapRequests(all);
    summary := Message(User, text, interrupt := OtherInterrupt,
                       compaction := Some(Record(c.head, |ms| - c.tailStart, requests)));
  }

  lemma {:induction false} CutIs(ms: seq<Message>, p: Params, head: nat, lower: nat, tailPos: nat)
    requires WellFormed(ms) && head == Compaction.HeadLength(ms, p.headChars)
    requires lower == head + if head < |ContextIndices(ms)| && ms[ContextIndices(ms)[head]].compaction.Some? then 1 else 0
    requires tailPos == Compaction.TailStart(Pick(ms, ContextIndices(ms)), lower, p.keepChars)
    ensures CutOf(ms, p).head == head && CutOf(ms, p).lower == lower && CutOf(ms, p).tailPos == tailPos
    ensures head <= tailPos <= |Pick(ms, ContextIndices(ms))|
    ensures Compacted(ms, p).Some? <==> tailPos > lower || p.overflow
  {
  }

  /** The results owed to the last message when a user message follows it. */
  method ClosersFor(history: seq<Message>, msgs: seq<Message>) returns (closers: seq<Message>)
    ensures closers == Closers(history, msgs)
  {
    closers := [];
    if history != [] && msgs != [] {
      var last := history[|history| - 1];
      if msgs[0].role.User? && last.role.Assistant? {
        var pending := CallIds(last);
        if pending != {} {
          closers := SyntheticResults(pending);
        }
      }
    }
  }

  /** The lines one save writes. */
  method JournalLines(anew: bool, ms: seq<Message>, cursor: nat) returns (lines: seq<Line>)
    ensures lines == if anew then Rebuilt(ms) else Addition(ms[Min(cursor, |ms|)..])
  {
    var from := if anew then 0 else Min(cursor, |ms|);
    var front: seq<Line> := if anew then [Meta] else [];
    lines := front;
    NoLinesYet(front, ms, from);
    for i := from to |ms|
      invariant lines == front + Lines(ms[from..i])
    {
      GrowLines(front, ms, from, i);
      lines := lines + [Msg(ms[i])];
    }
    AllLines(front, ms, from, anew);
    lines := lines + [Info];
  }

  lemma {:induction false} NoLinesYet(front: seq<Line>, ms: seq<Message>, from: nat)
    requires from <= |ms|
    ensures front + Lines(ms[from..from]) == front
  {
  }

  lemma {:induction false} AllLines(front: seq<Line>, ms: seq<Message>, from: nat, anew: bool)
    requires from <= |ms| && (anew ==> from == 0 && front == [Meta]) && (!anew ==> front == [])
    ensures front + Lines(ms[from..|ms|]) + [Info] == if anew then Rebuilt(ms) else Addition(ms[from..])
  {
    assert ms[from..|ms|] == ms[from..];
    assert anew ==> ms[from..] == ms;
  }

  lemma {:induction false} GrowLines(front: seq<Line>, ms: seq<Message>, from: nat, i: nat)
    requires from <= i < |ms|
    ensures front + Lines(ms[from..i]) + [Msg(ms[i])] == front + Lines(ms[from..i + 1])
  {
    assert Lines(ms[from..i]) + [Msg(ms[i])] == Lines(ms[from..i + 1]);
  }

  class Agent {
    var messages: seq<Message>
    /** How many messages the journal holds, and whether this run has written it. */
    var journaled: nat
    var begun: bool
    /** The journal file. */
    var file: seq<Line>
    /** How many messages the last full export held. */
    var exportMessages: nat
    /** The closure gates' counters. */
    var gate: G.Gate
    /** How many messages torn notes have cost the file since it was started over. */
    ghost var lost: nat

    constructor ()
      ensures LogValue() == NEW_LOG && exportMessages == 0 && lost == 0 && Valid()
      ensures gate == G.Gate(None, false, 0, 0, 0, {})
    {
      messages, journaled, begun, file, exportMessages := [], 0, false, [], 0;
      gate := G.Gate(None, false, 0, 0, 0, {});
      lost := 0;
    }

    function LogValue(): Log
      reads this
    {
      Log(messages, journaled, begun, file)
    }

    /** Up to the cursor the journal holds the history but for what was lost. */
    ghost predicate Valid()
      reads this
    {
      Tracks(LogValue(), lost)
    }

    /** `add_messages`: close the last message's calls if a user message follows it, then append. */
    method AddMessages(msgs: seq<Message>)
      requires Valid()
      modifies this`messages
      ensures Valid() && LogValue() == Apply(old(LogValue()), Add(msgs))
    {
      ghost var before := LogValue();
      var closers := ClosersFor(messages, msgs);
      messages := messages + closers;
      messages := messages + msgs;
      OpTracks(before, lost, Add(msgs));
    }

    /** Take the exit off the end; the cursor follows. */
    method PopExit() returns (exit: Message)
      requires Valid() && AtExit(messages)
      modifies this`messages, this`journaled
      ensures Valid() && LogValue() == Popped(old(LogValue())) && exit == old(messages)[|old(messages)| - 1]
    {
      ghost var before := LogValue();
      exit := messages[|messages| - 1];
      messages := messages[..|messages| - 1];
      journaled := Min(journaled, |messages|);
      OpTracks(before, lost, Op.PopExit);
    }

    method PushBack(exit: Message)
      requires Valid()
      modifies this`messages
      ensures Valid() && LogValue() == Apply(old(LogValue()), Push(exit))
    {
      ghost var before := LogValue();
      messages := messages + [exit];
      OpTracks(before, lost, Push(exit));
    }

    /** A rejected fast answer: the system prompt and the task go in front, and the journal starts over. */
    method InsertFront(system: Message, task: Message)
      requires Valid()
      modifies this`messages, this`journaled, this`lost
      ensures Valid() && lost == 0 && LogValue() == Apply(old(LogValue()), Prefix(system, task))
    {
      messages := [system, task] + messages;
      journaled, lost := 0, 0;
    }

    /** A line that is no message goes straight into the file; a write that stops halfway leaves it torn. */
    method JournalNote(whole: bool)
      requires Valid()
      modifies this`file
      ensures Valid() && LogValue() == Noted(old(LogValue()), whole)
    {
      ghost var before := LogValue();
      if whole {
        file := Written(file, [Note]);
      } else if !EndsTorn(file) {
        file := file + [Torn];
      }
      OpTracks(before, lost, Remark(whole));
    }

    /** Write the messages past the cursor, or everything when the journal has to be rebuilt. */
    method AppendJournal(write: Write)
      requires Valid()
      modifies this`journaled, this`begun, this`file, this`lost
      ensures Valid() && LogValue() == Saved(old(LogValue()), write)
      ensures lost == LostAfter(old(LogValue()), old(lost), Op.Save(write))
      ensures write.Succeeds? ==> (Holds(file, messages) <==> lost == 0)
    {
      ghost var before := LogValue();
      SaveTracks(before, lost, write);
      lost := LostAfter(before, lost, Op.Save(write));
      var anew := !begun || journaled == 0;
      begun := true;
      var lines := JournalLines(anew, messages, journaled);
      if write.Succeeds? {
        file := if anew then lines else Written(file, lines);
        journaled := |messages|;
        assert messages[..journaled] == messages;
        if messages == [] {
          ReadNothing(before);
        }
      } else {
        file := write.left;
        journaled := 0;
      }
    }

    /** The journal is written by every save, the export only when something calls for it. */
    method Save(force: bool, x: Saving)
      requires Valid()
      modifies this`journaled, this`begun, this`file, this`lost, this`exportMessages
      ensures Valid() && LogValue() == Saved(old(LogValue()), x.write)
      ensures lost == LostAfter(old(LogValue()), old(lost), Op.Save(x.write))
      ensures x.write.Succeeds? ==> (Holds(file, messages) <==> lost == 0)
      ensures exportMessages == CursorAfter(messages, old(exportMessages), force, x)
    {
      var isExit := messages != [] && messages[|messages| - 1].role.Exit?;
      var due := force || isExit || CountDue(|messages|, exportMessages) || x.tooOld;
      AppendJournal(x.write);
      if due && x.exports {
        exportMessages := |messages|;
      }
    }

    /** Append the next summary, with a save before the model is asked and one after; false when there is too little. */
    method Compact(p: Params, before: Saving, after: Saving) returns (done: bool)
      requires Valid() && WellFormed(messages)
      modifies this`messages, this`journaled, this`begun, this`file, this`lost, this`exportMessages
      ensures Valid() && done == Compacted(old(messages), p).Some?
      ensures messages == if done then Compacted(old(messages), p).value else old(messages)
      ensures done ==> CompactedLog(old(LogValue()), old(exportMessages), [SummaryMessage(old(messages), p)], before, after) == (LogValue(), exportMessages)
      ensures done && after.write.Succeeds? ==> (Holds(file, messages) <==> lost == 0)
      ensures !done ==> LogValue() == old(LogValue()) && exportMessages == old(exportMessages)
    {
      var summary := Summarize(messages, p);
      if summary.None? {
        return false;
      }
      SaveAround([summary.value], before, after);
      done := true;
    }

    method SaveAround(msgs: seq<Message>, before: Saving, after: Saving)
      requires Valid()
      modifies this`messages, this`journaled, this`begun, this`file, this`lost, this`exportMessages
      ensures Valid() && (LogValue(), exportMessages) == CompactedLog(old(LogValue()), old(exportMessages), msgs, before, after)
      ensures messages == Appended(old(messages), msgs)
      ensures after.write.Succeeds? ==> (Holds(file, messages) <==> lost == 0)
    {
      Save(false, before);
      AddMessages(msgs);
      Save(false, after);
    }

    /** The task's own checker judges the exit at the end of the history. */
    method CheckTaskVerifier(cap: nat, hashNow: string, ran: G.Ran, note: Message, failure: Message)
      requires Valid() && AtExit(messages)
      modifies this`messages, this`journaled, this`gate
      ensures Valid()
      ensures gate == G.CheckTask(old(gate), cap, hashNow, ran).0
      ensures messages == Judged(old(messages), G.CheckTask(old(gate), cap, hashNow, ran).1, note, failure)
    {
      if gate.closed || gate.checker.None? {
        return;
      }
      ghost var start := messages;
      var c := gate.checker.value;
      var exit := PopExit();
      assert messages + [exit] == start;
      if c.hash == "" || hashNow != c.hash {
        RejectTask(cap, note, failure);
        return;
      }
      match ran {
        case Ran(o) =>
          if G.CheckerPassed(c.path, o) {
            PushBack(exit);
          } else {
            RejectTask(cap, note, failure);
          }
        case SubmitMarker =>
          RejectTask(cap, note, failure);
        case RunStopped =>
          PushBack(exit);
      }
    }

    method RejectTask(cap: nat, note: Message, failure: Message)
      requires Valid()
      modifies this`messages, this`gate
      ensures Valid() && gate == G.RejectTask(old(gate), cap).0
      ensures messages == Appended(old(messages), [if G.RejectTask(old(gate), cap).1.Failed? then failure else note])
    {
      gate := gate.(failures := gate.failures + 1);
      if cap > 0 && gate.failures >= cap {
        AddMessages([failure]);
      } else {
        AddMessages([note]);
      }
    }

    /** A rejection goes back to the model unless the judge repeats itself or has rejected often enough. */
    method OnRejection(cap: nat, gap: set<string>, exit: Message, note: Message)
      requires Valid()
      modifies this`messages, this`gate
      ensures Valid() && gate == G.OnIncomplete(old(gate), cap, gap).0
      ensures LogValue() == Apply(old(LogValue()), ClosingOp(G.OnIncomplete(old(gate), cap, gap).1, exit, note, note))
      ensures messages == if G.OnIncomplete(old(gate), cap, gap).1.Accepted? then old(messages) + [exit]
                          else Appended(old(messages), [note])
    {
      var rejections := gate.rejections + 1;
      var repeated := rejections >= 2 && G.SameComplaint(gap, gate.lastGap);
      gate := gate.(errors := 0, rejections := rejections, lastGap := gap);
      if repeated || (cap > 0 && rejections >= cap) {
        PushBack(exit);
      } else {
        AddMessages([note]);
      }
    }

    /** The judge is asked until it answers; while it cannot be asked each failure is saved. */
    method AskJudge(ask: Ask)
      requires Valid()
      modifies this`messages, this`journaled, this`begun, this`file, this`lost, this`exportMessages, this`gate
      ensures Valid() && (LogValue(), exportMessages, gate) == JudgeRun(old(LogValue()), old(exportMessages), old(gate), ask, 0)
    {
      var attempt := 0;
      while true
        invariant Valid()
        invariant JudgeRun(LogValue(), exportMessages, gate, ask, attempt)
               == JudgeRun(old(LogValue()), old(exportMessages), old(gate), ask, 0)
        decreases if gate.errors < 3 then 3 - gate.errors else 0
      {
        match ask.reply(attempt) {
          case Halt =>
            PushBack(ask.exit);
            return;
          case Complete =>
            gate := gate.(errors := 0);
            PushBack(ask.exit);
            return;
          case Incomplete(gap) =>
            OnRejection(ask.cap, gap, ask.exit, ask.note);
            return;
          case Unavailable =>
            gate := gate.(errors := gate.errors + 1);
            Save(true, ask.saving(attempt));
            if gate.errors >= 3 {
              AddMessages([ask.failure]);
              return;
            }
        }
        attempt := attempt + 1;
      }
    }

    /**
      The judge reviews the exit at the end of the history, unless the workspace brings its own verifier:
      the gate's verdict decides what becomes of it, and each outage costs one save.
     */
    method CheckGoalClosure(verified: bool, ask: Ask)
      requires Valid() && AtExit(messages) && ask.exit == messages[|messages| - 1]
      modifies this`messages, this`journaled, this`begun, this`file, this`lost, this`exportMessages, this`gate
      ensures Valid()
      ensures verified ==> gate == old(gate) && messages == old(messages) && exportMessages == old(exportMessages)
      ensures !verified ==>
                && gate == G.Judge(old(gate), ask.cap, ask.reply, 0).0
                && messages == Judged(old(messages), G.Judge(old(gate), ask.cap, ask.reply, 0).1, ask.note, ask.failure)
      ensures var popped, n := Popped(old(LogValue())), if verified then 0 else Outages(old(gate).errors, ask.reply, 0);
              && LogValue() == (if verified then Apply(popped, Push(ask.exit)) else JudgedLog(popped, old(gate), ask, 0, n))
              && exportMessages == CursorTimes(popped.messages, old(exportMessages), ask.saving, 0, n)
    {
      ghost var start := messages;
      var exit := PopExit();
      assert messages + [exit] == start;
      if verified {
        PushBack(exit);
        return;
      }
      JudgeRunMeans(LogValue(), exportMessages, gate, ask, 0);
      JudgedMessages(LogValue(), start, gate, ask, Outages(gate.errors, ask.reply, 0));
      AskJudge(ask);
    }
  }
}
