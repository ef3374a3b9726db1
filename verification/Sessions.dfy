/** Small sessions with all their messages arbitrary, and what a compaction of one records. */
module Sessions {
  import opened Transcript
  import opened Compaction
  import opened Requests
  import opened ContextView
  import opened Resume
  import Seqs

  // ---- what a compaction records ---------------------------------------------------

  /** A history without summaries is its own view, and a compaction cuts it where the tail begins. */
  lemma {:induction false} CutOfPlain(ms: seq<Message>, p: Params)
    requires forall m :: m in ms ==> Plain(m)
    ensures WellFormed(ms)
    ensures var c := CutOf(ms, p);
            && c.head == c.lower == HeadLength(ms, p.headChars)
            && c.tailPos == c.tailStart == TailStart(ms, c.lower, p.keepChars)
  {
    ViewOfPlain(ms);
    PlainCutHead(ms, HeadLength(ms, p.headChars));
  }

  lemma {:induction false} PlainCutHead(ms: seq<Message>, head: nat)
    requires (forall m :: m in ms ==> Plain(m)) && LastSummary(ms) < 0 && head <= |ms|
    ensures |ContextIndices(ms)| == |ms| && forall i :: 0 <= i < |ms| ==> ContextIndices(ms)[i] == i && Plain(ms[i])
  {
  }

  /** The cut of a history without summaries, from where its head ends and its tail begins. */
  lemma {:induction false} PlainCutIs(ms: seq<Message>, p: Params, head: nat, at: nat)
    requires forall m :: m in ms ==> Plain(m)
    requires HeadLength(ms, p.headChars) == head < at <= |ms| && TailStart(ms, head, p.keepChars) == at
    ensures WellFormed(ms) && View(ms) == ms && CutOf(ms, p) == Cut(head, head, at, at) && Compacted(ms, p).Some?
    ensures IsSummary(SummaryMessage(ms, p), head, |ms| - at)
  {
    ViewOfPlain(ms);
    CutOfPlain(ms, p);
  }

  lemma {:induction false} SystemAndTask(ms: seq<Message>, p: Params)
    requires |ms| >= 2 && ms[0].role.System? && ms[1].role.User? && MessageChars(ms[1]) <= p.headChars
    ensures HeadLength(ms, p.headChars) == 2
  {
    assert ms[1..][0] == ms[1];
  }

  /** The tail begins at `at`: the latest place from which everything fits, or the last turn when nothing does. */
  lemma {:induction false} TailBeginsAt(ms: seq<Message>, lower: nat, keep: int, at: nat)
    requires lower < at < |ms| && !ms[at].role.Tool?
    requires forall i :: lower <= i < at ==> !Fits(ms, i, keep)
    requires Fits(ms, at, keep) || forall i :: at < i < |ms| ==> ms[i].role.Tool?
    ensures TailStart(ms, lower, keep) == at
  {
    TailIsLongestFit(ms, lower, keep);
  }

  /** A compaction of a history that ends on a result, with what it records. */
  lemma {:induction false} CompactsTo(ms: seq<Message>, p: Params, head: nat, at: nat)
    requires ms != [] && ms[|ms| - 1].role.Tool? && (forall m :: m in ms ==> Plain(m))
    requires HeadLength(ms, p.headChars) == head < at <= |ms| && TailStart(ms, head, p.keepChars) == at
    ensures WellFormed(ms) && Compacted(ms, p) == Some(ms + [SummaryMessage(ms, p)])
    ensures IsSummary(SummaryMessage(ms, p), head, |ms| - at) && SummaryMessage(ms, p).text == p.summary
  {
    CutOfPlain(ms, p);
    NoClosersNeeded(ms, SummaryMessage(ms, p));
  }

  // ---- sessions of two turns -------------------------------------------------------

  predicate Says(m: Message) {
    Plain(m) && !m.role.Tool? && !m.role.Exit? && CallIds(m) == {} && !IsSubmission(m)
  }

  predicate Turn(call: Message, result: Message) {
    && call.role.Assistant? && result.role.Tool? && CallIds(call) == {result.answers} && !IsSubmission(call)
    && Plain(call) && Plain(result)
  }

  lemma {:induction false} QuietMessage(ms: seq<Message>, m: Message)
    requires Paired(ms) && Says(m)
    ensures Paired(ms + [m])
  {
    Seqs.Snoc(ms, m);
  }

  lemma {:induction false} AnsweredTurn(ms: seq<Message>, call: Message, result: Message)
    requires Paired(ms) && Turn(call, result)
    ensures Paired(ms + [call, result])
  {
    Seqs.Snoc(ms, call);
    Seqs.Snoc(ms + [call], result);
    assert ms + [call] + [result] == ms + [call, result];
  }

  /** A session that has worked two turns on its task. */
  datatype Session = Session(system: Message, task: Message, call1: Message, result1: Message, call2: Message, result2: Message) {

    predicate Ok() {
      system.role.System? && Says(system) && task.role.User? && Says(task) && Turn(call1, result1) && Turn(call2, result2)
    }

    function Turns(): seq<Message> {
      [call1, result1, call2, result2]
    }

    function History(): seq<Message> {
      [system] + [task] + Turns()
    }

    /** Another task came first, and this one was added before the second turn. */
    function Late(other: Message): seq<Message> {
      [system, other, call1, result1] + [task] + [call2, result2]
    }
  }

  lemma {:induction false} HistoryPaired(x: Session)
    requires x.Ok()
    ensures Paired(x.History()) && forall m :: m in x.History() ==> Plain(m)
  {
    QuietMessage([], x.system);
    Seqs.Empty([x.system]);
    QuietMessage([x.system], x.task);
    AnsweredTurn([x.system] + [x.task], x.call1, x.result1);
    AnsweredTurn([x.system] + [x.task] + [x.call1, x.result1], x.call2, x.result2);
    assert [x.system] + [x.task] + [x.call1, x.result1] + [x.call2, x.result2] == x.History();
  }

  lemma {:induction false} LatePaired(x: Session, other: Message)
    requires x.Ok() && Says(other)
    ensures Paired(x.Late(other)) && forall m :: m in x.Late(other) ==> Plain(m)
  {
    QuietMessage([], x.system);
    Seqs.Empty([x.system]);
    QuietMessage([x.system], other);
    AnsweredTurn([x.system] + [other], x.call1, x.result1);
    assert [x.system] + [other] + [x.call1, x.result1] == [x.system, other, x.call1, x.result1];
    QuietMessage([x.system, other, x.call1, x.result1], x.task);
    AnsweredTurn([x.system, other, x.call1, x.result1] + [x.task], x.call2, x.result2);
  }

  lemma {:induction false} NoRequests(call: Message, result: Message)
    requires Turn(call, result)
    ensures Capped(UserRequests([call, result])) == []
  {
    assert [call, result][..1] == [call] && [call][..0] == [];
    assert UserRequests([call]) == [] + RequestsOf(call) == [];
    assert UserRequests([call, result]) == [] + RequestsOf(result) == [];
  }
}
