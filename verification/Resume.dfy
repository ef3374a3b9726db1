/** Resuming a stored session: of the task's unanswered copies one is left. */
module Resume {
  import opened Transcript
  import opened Requests
  import opened Repair
  import Seqs
  import PlanParser

  function Trimmed(s: string): string {
    PlanParser.Trim(s, PlanParser.IsSpace)
  }

  /** The encodings to look for: trimmed, the empty ones dropped. */
  function Wanted(candidates: seq<string>): set<string> {
    set c | c in candidates && Trimmed(c) != "" :: Trimmed(c)
  }

  predicate IsCopy(m: Message, wanted: set<string>) {
    m.role.User? && Trimmed(m.text) in wanted
  }

  predicate IsSubmission(m: Message) {
    m.role.Assistant? && Trimmed(m.submission) != ""
  }

  /** Something in `later` closed the turn: an exit, or an assistant message with a final answer. */
  predicate Answers(later: seq<Message>) {
    exists i :: 0 <= i < |later| && (later[i].role.Exit? || IsSubmission(later[i]))
  }

  predicate Submits(later: seq<Message>) {
    exists i :: 0 <= i < |later| && IsSubmission(later[i])
  }

  /** The history without the copies that nothing after them answered. */
  function Collapsed(ms: seq<Message>, wanted: set<string>): seq<Message> {
    if ms == [] then []
    else (if IsCopy(ms[0], wanted) && !Answers(ms[1..]) then [] else [ms[0]]) + Collapsed(ms[1..], wanted)
  }

  predicate Doomed(ms: seq<Message>, wanted: set<string>, i: nat)
    requires i < |ms|
  {
    IsCopy(ms[i], wanted) && !Answers(ms[i + 1..])
  }

  function DoomedAt(ms: seq<Message>, wanted: set<string>): nat -> bool {
    (i: nat) => i < |ms| && Doomed(ms, wanted, i)
  }

  /** The indices below `n` that `bad` marks, in ascending order. */
  ghost predicate Lists(doomed: seq<nat>, bad: nat -> bool, n: nat) {
    && (forall k :: 0 <= k < |doomed| ==> doomed[k] < n && bad(doomed[k]))
    && (forall j, k :: 0 <= j < k < |doomed| ==> doomed[j] < doomed[k])
    && (forall j :: 0 <= j < n && bad(j) ==> j in doomed)
  }

  method Marked(n: nat, bad: nat -> bool) returns (doomed: seq<nat>)
    ensures Lists(doomed, bad, n)
  {
    doomed := [];
    for i := 0 to n
      invariant Lists(doomed, bad, i)
    {
      if bad(i) {
        doomed := doomed + [i];
      }
    }
  }

  /** Collect the doomed indices, then remove them from the last to the first. */
  method DropPendingTaskCopies(ms: seq<Message>, candidates: seq<string>) returns (out: seq<Message>, dropped: nat)
    ensures out == Collapsed(ms, Wanted(candidates))
    ensures dropped == |ms| - |out|
  {
    var wanted := Wanted(candidates);
    out, dropped := ms, 0;
    if wanted == {} {
      NothingWanted(ms);
      return;
    }
    var bad := DoomedAt(ms, wanted);
    var doomed := Marked(|ms|, bad);
    out := RemoveAll(ms, wanted, bad, doomed);
    dropped := |doomed|;
  }

  method RemoveAll(ms: seq<Message>, ghost wanted: set<string>, ghost bad: nat -> bool, doomed: seq<nat>)
    returns (out: seq<Message>)
    requires bad == DoomedAt(ms, wanted) && Lists(doomed, bad, |ms|)
    ensures out == Collapsed(ms, wanted) && |out| + |doomed| == |ms|
  {
    out := ms;
    var k := |doomed|;
    ghost var at := |ms|;
    assert Partly(ms, wanted, at) == ms;
    while k > 0
      invariant 0 <= k <= |doomed| && at == if k < |doomed| then doomed[k] else |ms|
      invariant out == Partly(ms, wanted, at)
      invariant |out| + (|doomed| - k) == |ms|
    {
      k := k - 1;
      var i := doomed[k];
      NoneBetween(doomed, bad, |ms|, k);
      KeptRange(ms, wanted, bad, i + 1, at);
      RemoveDoomed(ms, wanted, bad, i);
      out := out[..i] + out[i + 1..];
      at := i;
    }
    NoneBetween(doomed, bad, |ms|, -1);
    KeptRange(ms, wanted, bad, 0, at);
    assert ms[0..] == ms;
  }

  /** The history collapsed from `at` on. */
  ghost function Partly(ms: seq<Message>, wanted: set<string>, at: nat): seq<Message>
    requires at <= |ms|
  {
    ms[..at] + Collapsed(ms[at..], wanted)
  }

  lemma {:induction false} RemoveDoomed(ms: seq<Message>, wanted: set<string>, bad: nat -> bool, i: nat)
    requires bad == DoomedAt(ms, wanted) && i < |ms| && bad(i)
    ensures var p := Partly(ms, wanted, i + 1); |p| > i && p[..i] + p[i + 1..] == Partly(ms, wanted, i)
  {
    assert ms[i..][1..] == ms[i + 1..];
    assert Collapsed(ms[i..], wanted) == [] + Collapsed(ms[i + 1..], wanted);
  }

  lemma {:induction false} NoneBetween(doomed: seq<nat>, bad: nat -> bool, n: nat, k: int)
    requires Lists(doomed, bad, n) && -1 <= k < |doomed|
    ensures forall j :: (if k < 0 then 0 else doomed[k] + 1) <= j < (if k + 1 < |doomed| then doomed[k + 1] else n) ==> !bad(j)
  {
    var a, b := if k < 0 then 0 else doomed[k] + 1, if k + 1 < |doomed| then doomed[k + 1] else n;
    forall j | a <= j < b ensures j !in doomed {
      assert forall i :: 0 <= i < |doomed| ==> if i <= k then doomed[i] < a else doomed[i] >= b;
    }
  }

  /** Where nothing is doomed nothing is dropped. */
  lemma {:induction false} KeptRange(ms: seq<Message>, wanted: set<string>, bad: nat -> bool, a: nat, b: nat)
    requires bad == DoomedAt(ms, wanted) && a <= b <= |ms| && forall j :: a <= j < b ==> !bad(j)
    ensures Partly(ms, wanted, a) == Partly(ms, wanted, b)
    decreases b - a
  {
    if a < b {
      KeptRange(ms, wanted, bad, a + 1, b);
      KeepOne(ms, wanted, bad, a);
    }
  }

  lemma {:induction false} KeepOne(ms: seq<Message>, wanted: set<string>, bad: nat -> bool, a: nat)
    requires bad == DoomedAt(ms, wanted) && a < |ms| && !bad(a)
    ensures Partly(ms, wanted, a) == Partly(ms, wanted, a + 1)
  {
    assert ms[a..][0] == ms[a] && ms[a..][1..] == ms[a + 1..];
    assert ms[..a] + [ms[a]] == ms[..a + 1];
  }

  lemma {:induction false} NothingWanted(ms: seq<Message>)
    ensures Collapsed(ms, {}) == ms
  {
    if ms != [] {
      NothingWanted(ms[1..]);
    }
  }

  // ---- what the collapse leaves ----------------------------------------------------

  /** How many unanswered copies a history holds. */
  function PendingCopies(ms: seq<Message>, wanted: set<string>): nat {
    if ms == [] then 0
    else (if IsCopy(ms[0], wanted) && !Answers(ms[1..]) then 1 else 0) + PendingCopies(ms[1..], wanted)
  }

  lemma {:induction false} AnswersCons(m: Message, later: seq<Message>)
    ensures Answers([m] + later) <==> m.role.Exit? || IsSubmission(m) || Answers(later)
    ensures Submits([m] + later) <==> IsSubmission(m) || Submits(later)
  {
    var all := [m] + later;
    assert all[0] == m && forall i :: 0 <= i < |later| ==> all[i + 1] == later[i];
  }

  /** Only copies go, so what was answered stays answered. */
  lemma {:induction false} CollapseKeepsAnswers(ms: seq<Message>, wanted: set<string>)
    ensures Answers(Collapsed(ms, wanted)) <==> Answers(ms)
  {
    if ms != [] {
      CollapseKeepsAnswers(ms[1..], wanted);
      AnswersCons(ms[0], ms[1..]);
      assert [ms[0]] + ms[1..] == ms;
      AnswersCons(ms[0], Collapsed(ms[1..], wanted));
      assert [] + Collapsed(ms[1..], wanted) == Collapsed(ms[1..], wanted);
    }
  }

  /** No unanswered copy is left, and a second collapse changes nothing. */
  lemma {:induction false} CollapseIsComplete(ms: seq<Message>, wanted: set<string>)
    ensures PendingCopies(Collapsed(ms, wanted), wanted) == 0
    ensures Collapsed(Collapsed(ms, wanted), wanted) == Collapsed(ms, wanted)
  {
    if ms != [] {
      var rest := Collapsed(ms[1..], wanted);
      CollapseIsComplete(ms[1..], wanted);
      CollapseKeepsAnswers(ms[1..], wanted);
      if IsCopy(ms[0], wanted) && !Answers(ms[1..]) {
        assert [] + rest == rest;
      } else {
        KeptFirst(ms[0], rest, wanted);
      }
    }
  }

  lemma {:induction false} KeptFirst(m: Message, rest: seq<Message>, wanted: set<string>)
    requires !IsCopy(m, wanted) || Answers(rest)
    ensures PendingCopies([m] + rest, wanted) == PendingCopies(rest, wanted)
    ensures Collapsed([m] + rest, wanted) == [m] + Collapsed(rest, wanted)
  {
    assert ([m] + rest)[1..] == rest;
  }

  function TaskMessage(task: string): Message {
    Message(User, TASK_PREFIX + task, interrupt := UserNewTask)
  }

  /** The encodings a resumed run looks for: the bare task, the added-task note, the rendered template. */
  function Encodings(task: string, instance: seq<string>): seq<string> {
    [Trimmed(task), TASK_PREFIX + task] + instance
  }

  lemma {:induction false} TrimKeepsT(s: string)
    ensures Trimmed(['T'] + s) != ""
  {
    var t := ['T'] + s;
    assert PlanParser.TrimStart(t, PlanParser.IsSpace) == t;
    TrimEndKeepsFirst(t);
  }

  lemma {:induction false} TrimEndKeepsFirst(s: string)
    requires s != [] && !PlanParser.IsSpace(s[0])
    ensures PlanParser.TrimEnd(s, PlanParser.IsSpace) != []
  {
    if PlanParser.IsSpace(s[|s| - 1]) {
      TrimEndKeepsFirst(s[..|s| - 1]);
    }
  }

  lemma {:induction false} PendingAppend(ms: seq<Message>, m: Message, wanted: set<string>)
    requires m.role.User?
    ensures PendingCopies(ms + [m], wanted) == PendingCopies(ms, wanted) + (if IsCopy(m, wanted) then 1 else 0)
    ensures Answers(ms + [m]) <==> Answers(ms)
  {
    if ms == [] {
      assert ms + [m] == [m] && [m][1..] == [];
    } else {
      PendingAppend(ms[1..], m, wanted);
      assert (ms + [m])[1..] == ms[1..] + [m];
      AnswersCons(ms[0], ms[1..] + [m]);
      AnswersCons(ms[0], ms[1..]);
      assert [ms[0]] + (ms[1..] + [m]) == ms + [m] && [ms[0]] + ms[1..] == ms;
    }
  }

  // ---- a resumed run, which drops the exits first ----------------------------------

  /** What a resumed run starts from: exits are filtered out before the copies are looked at. */
  function Resumed(ms: seq<Message>, wanted: set<string>): seq<Message> {
    Collapsed(WithoutExits(ms), wanted)
  }

  /** The history a resumed run starts from: exits filtered, copies dropped, calls closed, the task added. */
  function StartOf(stored: seq<Message>, wanted: set<string>, task: Message): seq<Message> {
    Appended(Repaired(Resumed(stored, wanted)), [task])
  }

  /** Synthetic results neither answer a task nor repeat it. */
  lemma {:induction false} ClosersAreNoCopies(closers: seq<Message>, ms: seq<Message>, wanted: set<string>)
    requires forall m :: m in closers ==> m.role.Tool?
    ensures PendingCopies(closers + ms, wanted) == PendingCopies(ms, wanted)
    ensures Answers(closers + ms) <==> Answers(ms)
  {
    if closers == [] {
      Seqs.Empty(ms);
    } else {
      assert closers[0] in closers;
      ClosersAreNoCopies(closers[1..], ms, wanted);
      Seqs.Tail(closers, ms);
      Seqs.Uncons(closers + ms);
      AnswersCons(closers[0], closers[1..] + ms);
    }
  }

  lemma {:induction false} RepairKeepsCopies(ms: seq<Message>, pending: set<string>, wanted: set<string>)
    ensures PendingCopies(RepairFrom(ms, pending), wanted) == PendingCopies(ms, wanted)
    ensures Answers(RepairFrom(ms, pending)) <==> Answers(ms)
    decreases |ms|
  {
    if ms == [] {
      Seqs.Empty(SyntheticResults(pending));
      ClosersAreNoCopies(SyntheticResults(pending), [], wanted);
    } else {
      var owed, rest := Owed(ms[0], pending), RepairFrom(ms[1..], OpenAfter(ms[0], pending));
      RepairKeepsCopies(ms[1..], OpenAfter(ms[0], pending), wanted);
      Seqs.Assoc(owed, [ms[0]], rest);
      ClosersAreNoCopies(owed, [ms[0]] + rest, wanted);
      assert ([ms[0]] + rest)[1..] == rest;
      AnswersCons(ms[0], rest);
      AnswersCons(ms[0], ms[1..]);
      Seqs.Uncons(ms);
    }
  }

  lemma {:induction false} TaskIsCopy(task: string, instance: seq<string>)
    ensures IsCopy(TaskMessage(task), Wanted(Encodings(task, instance)))
  {
    assert TASK_PREFIX + task == ['T'] + (TASK_PREFIX + task)[1..];
    TrimKeepsT((TASK_PREFIX + task)[1..]);
    assert Encodings(task, instance)[1] == TASK_PREFIX + task;
  }

  /** Exactly these are taken for copies of the task: the bare task, the note that adds it, or the rendered template, spaces around them aside. */
  lemma {:induction false} CopiesAre(m: Message, task: string, instance: seq<string>)
    ensures IsCopy(m, Wanted(Encodings(task, instance))) <==>
              && m.role.User? && Trimmed(m.text) != ""
              && (|| Trimmed(m.text) == Trimmed(task)
                  || Trimmed(m.text) == Trimmed("The user added a new task: " + task)
                  || exists i :: 0 <= i < |instance| && Trimmed(m.text) == Trimmed(instance[i]))
  {
    var all := Encodings(task, instance);
    TrimTwice(task);
    assert all[0] == Trimmed(task) && all[1] == TASK_PREFIX + task && forall i :: 0 <= i < |instance| ==> all[i + 2] == instance[i];
    if IsCopy(m, Wanted(all)) {
      var c :| c in all && Trimmed(c) != "" && Trimmed(c) == Trimmed(m.text);
      var i :| 0 <= i < |all| && all[i] == c;
    }
  }

  /** Exactly these answer what came before them: an exit, and an assistant message whose submission is not blank. */
  lemma {:induction false} AnswersAre(later: seq<Message>)
    ensures Answers(later) <==>
              exists i :: 0 <= i < |later| &&
                (later[i].role.Exit? || (later[i].role.Assistant? && exists j :: 0 <= j < |later[i].submission| && !PlanParser.IsSpace(later[i].submission[j])))
  {
    forall i | 0 <= i < |later|
      ensures Trimmed(later[i].submission) != "" <==> exists j :: 0 <= j < |later[i].submission| && !PlanParser.IsSpace(later[i].submission[j])
    {
      BlankIff(later[i].submission);
    }
  }

  lemma {:induction false} BlankIff(s: string)
    ensures Trimmed(s) == "" <==> forall j :: 0 <= j < |s| ==> PlanParser.IsSpace(s[j])
  {
    if s != [] {
      if PlanParser.IsSpace(s[0]) {
        BlankIff(s[1..]);
        assert forall j :: 1 <= j < |s| ==> s[j] == s[1..][j - 1];
      } else {
        TrimEndKeepsFirst(s);
      }
    }
  }

  lemma {:induction false} TrimTwice(s: string)
    ensures Trimmed(Trimmed(s)) == Trimmed(s)
  {
    var t := PlanParser.TrimStart(s, PlanParser.IsSpace);
    TrimStartStops(s);
    TrimEndStops(t);
    var r := PlanParser.TrimEnd(t, PlanParser.IsSpace);
    assert r != [] ==> r[0] == t[0];
  }

  lemma {:induction false} TrimStartStops(s: string)
    ensures var r := PlanParser.TrimStart(s, PlanParser.IsSpace); r != [] ==> !PlanParser.IsSpace(r[0])
  {
    if s != [] && PlanParser.IsSpace(s[0]) {
      TrimStartStops(s[1..]);
    }
  }

  lemma {:induction false} TrimEndStops(s: string)
    ensures var r := PlanParser.TrimEnd(s, PlanParser.IsSpace); r <= s && (r != [] ==> !PlanParser.IsSpace(r[|r| - 1]))
  {
    if s != [] && PlanParser.IsSpace(s[|s| - 1]) {
      TrimEndStops(s[..|s| - 1]);
    }
  }

  /** Whatever was stored, a resumed run starts with exactly one unanswered copy of its task, in any encoding. */
  lemma {:induction false} ExactlyOneCopy(stored: seq<Message>, task: string, instance: seq<string>)
    ensures var wanted := Wanted(Encodings(task, instance));
            PendingCopies(StartOf(stored, wanted, TaskMessage(task)), wanted) == 1
  {
    var wanted := Wanted(Encodings(task, instance));
    var c := Resumed(stored, wanted);
    CollapseIsComplete(WithoutExits(stored), wanted);
    RepairKeepsCopies(c, {}, wanted);
    RepairAnswersEveryCall(c);
    NothingOpenNothingAdded(Repaired(c), [TaskMessage(task)]);
    PendingAppend(Repaired(c), TaskMessage(task), wanted);
    TaskIsCopy(task, instance);
  }

  /** What the collapse is documented to keep: every copy that an exit or a submission answered. */
  function Promised(ms: seq<Message>, wanted: set<string>): seq<Message> {
    WithoutExits(Collapsed(ms, wanted))
  }

  /** Every answered copy was answered by a submission, not by an exit alone. */
  predicate AnswersAreSubmitted(ms: seq<Message>, wanted: set<string>) {
    ms != [] ==>
      && (IsCopy(ms[0], wanted) && Answers(ms[1..]) ==> Submits(ms[1..]))
      && AnswersAreSubmitted(ms[1..], wanted)
  }

  lemma {:induction false} WithoutExitsAnswers(ms: seq<Message>)
    ensures Answers(WithoutExits(ms)) <==> Submits(ms)
  {
    if ms != [] {
      var rest := WithoutExits(ms[1..]);
      WithoutFirst(ms);
      WithoutExitsAnswers(ms[1..]);
      AnswersCons(ms[0], ms[1..]);
      AnswersCons(ms[0], rest);
      assert [ms[0]] + ms[1..] == ms && [] + rest == rest;
    }
  }

  /** A resumed run keeps every answered copy exactly when none was answered by an exit alone. */
  lemma {:induction false} ResumeKeepsAnsweredIff(ms: seq<Message>, wanted: set<string>)
    ensures Resumed(ms, wanted) == Promised(ms, wanted) <==> AnswersAreSubmitted(ms, wanted)
    ensures |Resumed(ms, wanted)| <= |Promised(ms, wanted)|
    ensures |Resumed(ms, wanted)| == |Promised(ms, wanted)| ==> AnswersAreSubmitted(ms, wanted)
  {
    if ms != [] {
      var rest := ms[1..];
      ResumeKeepsAnsweredIff(rest, wanted);
      ResumedStep(ms, wanted);
      PromisedStep(ms, wanted);
      SubmitsAnswers(rest);
    }
  }

  lemma {:induction false} SubmitsAnswers(later: seq<Message>)
    ensures Submits(later) ==> Answers(later)
  {
  }

  lemma {:induction false} ResumedStep(ms: seq<Message>, wanted: set<string>)
    requires ms != []
    ensures Resumed(ms, wanted) ==
              (if ms[0].role.Exit? || (IsCopy(ms[0], wanted) && !Submits(ms[1..])) then [] else [ms[0]]) + Resumed(ms[1..], wanted)
  {
    WithoutExitsAnswers(ms[1..]);
    WithoutFirst(ms);
    var rest := WithoutExits(ms[1..]);
    if ms[0].role.Exit? {
      assert WithoutExits(ms) == rest;
    } else {
      assert WithoutExits(ms)[0] == ms[0] && WithoutExits(ms)[1..] == rest;
    }
  }

  lemma {:induction false} PromisedStep(ms: seq<Message>, wanted: set<string>)
    requires ms != []
    ensures Promised(ms, wanted) ==
              (if ms[0].role.Exit? || (IsCopy(ms[0], wanted) && !Answers(ms[1..])) then [] else [ms[0]]) + Promised(ms[1..], wanted)
  {
    var kept := if IsCopy(ms[0], wanted) && !Answers(ms[1..]) then [] else [ms[0]];
    WithoutExitsConcat(kept, Collapsed(ms[1..], wanted));
    OneMessage(ms[0]);
  }

  lemma {:induction false} OneMessage(m: Message)
    ensures WithoutExits([m]) == if m.role.Exit? then [] else [m]
  {
    assert [m][..0] == [];
  }

  /** A turn closed by a submit marker: the exit alone answered the task, and the resumed run drops the task. */
  lemma {:induction false} SubmitMarkerTurnLosesTask()
    ensures var ms := [Message(User, "hola"), Message(Assistant, "", calls := ["a"]), Message(Exit, "done", exitStatus := "Submitted")];
            !AnswersAreSubmitted(ms, {"hola"}) && |Resumed(ms, {"hola"})| < |Promised(ms, {"hola"})|
  {
    var ms := [Message(User, "hola"), Message(Assistant, "", calls := ["a"]), Message(Exit, "done", exitStatus := "Submitted")];
    HolaTrimmed();
    assert ms[1..] == [ms[1], ms[2]];
    assert Answers(ms[1..]) by { assert ms[1..][1].role.Exit?; }
    assert !Submits(ms[1..]);
    ResumeKeepsAnsweredIff(ms, {"hola"});
  }

  lemma {:induction false} HolaTrimmed()
    ensures Trimmed("hola") == "hola" && Trimmed("") == ""
  {
  }
}
