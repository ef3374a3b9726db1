/** The message history of a conversation and what it means for its tool calls to be paired. */
module Transcript {
  import opened StringOrder
  import Seqs

  datatype Option<+T> = None | Some(value: T)

  datatype Role = System | User | Assistant | Tool | Exit | OtherRole

  /** `extra.interrupt_type`, as far as the engine reads it. */
  datatype Interrupt = NoInterrupt | UserNewTask | UserInterruption | OtherInterrupt

  /** `extra.compaction`: what a summary message says about the part it replaces. */
  datatype Record = Record(head: nat, tailMessages: nat, userMessages: seq<string>)

  /**
    One message. `text` is the flattened content and `plain` says that the content is a JSON string
    (not a list of parts). `calls` holds the ids of the tool calls, "" for a call without an id, and
    `callChars` their serialized length; `answers` is the `tool_call_id` of a result, "" when absent.
   */
  datatype Message = Message(
    role: Role,
    text: string,
    plain: bool := true,
    calls: seq<string> := [],
    callChars: nat := 0,
    answers: string := "",
    interrupt: Interrupt := NoInterrupt,
    submission: string := "",
    exitStatus: string := "",
    compaction: Option<Record> := None)

  function CallIds(m: Message): set<string> {
    set id | id in m.calls && id != ""
  }

  const INTERRUPTED := "Tool call was interrupted before execution; no result was available."

  function Synthetic(id: string): Message {
    Message(Tool, INTERRUPTED, answers := id)
  }

  /** One synthetic result per id, in ascending id order. */
  function SyntheticResults(pending: set<string>): (r: seq<Message>)
    ensures |r| == |pending|
    ensures forall m :: m in r ==> m.role.Tool? && m.compaction.None? && m == Synthetic(m.answers)
  {
    var ids := Ascending(pending);
    seq(|ids|, i requires 0 <= i < |ids| => Synthetic(ids[i]))
  }

  // ---- exits -----------------------------------------------------------------------

  predicate AtExit(ms: seq<Message>) {
    ms != [] && ms[|ms| - 1].role.Exit?
  }

  /** The messages that are not exits. */
  function WithoutExits(ms: seq<Message>): seq<Message> {
    if ms == [] then []
    else WithoutExits(ms[..|ms| - 1]) + if ms[|ms| - 1].role.Exit? then [] else [ms[|ms| - 1]]
  }

  lemma {:induction false} WithoutExitsConcat(a: seq<Message>, b: seq<Message>)
    ensures WithoutExits(a + b) == WithoutExits(a) + WithoutExits(b)
  {
    if b == [] {
      Seqs.Empty(a);
      Seqs.Empty(WithoutExits(a));
    } else {
      Seqs.Init(a, b);
      WithoutExitsConcat(a, b[..|b| - 1]);
    }
  }

  lemma {:induction false} WithoutFirst(ms: seq<Message>)
    requires ms != []
    ensures WithoutExits(ms) == (if ms[0].role.Exit? then [] else [ms[0]]) + WithoutExits(ms[1..])
  {
    Seqs.Uncons(ms);
    WithoutExitsConcat([ms[0]], ms[1..]);
    assert [ms[0]][..0] == [];
  }

  // ---- pairing ---------------------------------------------------------------------

  /** The calls of the last assistant message that nothing has answered yet. */
  function Pending(ms: seq<Message>): set<string> {
    if ms == [] then {}
    else
      var m := ms[|ms| - 1];
      if m.role.Assistant? then CallIds(m)
      else if m.role.Tool? then Pending(ms[..|ms| - 1]) - {m.answers}
      else {}
  }

  /** No message other than a tool result arrives while a call is pending. */
  predicate Clean(ms: seq<Message>) {
    ms == [] ||
    var init := ms[..|ms| - 1];
    Clean(init) && (ms[|ms| - 1].role.Tool? || Pending(init) == {})
  }

  /** Every tool call of the history has its result before the next message that is not one. */
  predicate AllAnswered(ms: seq<Message>) {
    Clean(ms) && Pending(ms) == {}
  }

  /** The calls a tool result may answer at this point. */
  function OpenCalls(ms: seq<Message>): set<string> {
    if ms == [] then {}
    else
      var m := ms[|ms| - 1];
      if m.role.Assistant? then CallIds(m)
      else if m.role.Tool? then OpenCalls(ms[..|ms| - 1])
      else {}
  }

  /** Every tool result answers a call of the assistant message it follows. */
  predicate Grounded(ms: seq<Message>) {
    ms == [] ||
    var init := ms[..|ms| - 1];
    var m := ms[|ms| - 1];
    Grounded(init) && (m.role.Tool? ==> m.answers in OpenCalls(init))
  }

  predicate Paired(ms: seq<Message>) {
    AllAnswered(ms) && Grounded(ms)
  }

  /** A result for call `id` of message `i` that only other results separate from it. */
  ghost predicate AnsweredAt(ms: seq<Message>, i: nat, id: string, j: nat) {
    && i < j < |ms| && ms[j].role.Tool? && ms[j].answers == id
    && forall k :: i < k < j ==> ms[k].role.Tool?
  }

  /** Every call of an assistant message that has an id has its result. */
  ghost predicate EveryCallAnswered(ms: seq<Message>) {
    forall i, id :: 0 <= i < |ms| && ms[i].role.Assistant? && id in ms[i].calls && id != "" ==>
      exists j :: AnsweredAt(ms, i, id, j)
  }

  /** The scan agrees with the direct reading: each call has a result that nothing but results precedes. */
  lemma {:induction false} AnsweredMeans(ms: seq<Message>)
    ensures AllAnswered(ms) <==> EveryCallAnswered(ms)
  {
    forall i, id | 0 <= i < |ms| && ms[i].role.Assistant? && id in ms[i].calls && id != ""
      ensures AllAnswered(ms) ==> exists j :: AnsweredAt(ms, i, id, j)
    {
      if AllAnswered(ms) {
        CallAnswered(ms, i, id);
      }
    }
    if EveryCallAnswered(ms) {
      AnsweredScan(ms, |ms|);
      assert ms[..|ms|] == ms;
      if id :| id in Pending(ms) {
        var i := PendingOwner(ms, id);
      }
    }
  }

  lemma {:induction false} CallAnswered(ms: seq<Message>, i: nat, id: string)
    requires Clean(ms) && i < |ms| && ms[i].role.Assistant? && id in CallIds(ms[i])
    requires id !in Pending(ms) || exists k :: i < k < |ms| && !ms[k].role.Tool?
    ensures exists j :: AnsweredAt(ms, i, id, j)
  {
    var n := |ms| - 1;
    var init := ms[..n];
    if i < n {
      if id !in Pending(init) || exists k :: i < k < n && !ms[k].role.Tool? {
        if k :| i < k < n && !ms[k].role.Tool? {
          assert init[k] == ms[k];
        }
        CallAnswered(init, i, id);
        var j :| AnsweredAt(init, i, id, j);
        assert AnsweredAt(ms, i, id, j);
      } else {
        assert AnsweredAt(ms, i, id, n);
      }
    }
  }

  /** Whose call a pending id is, and that nothing has answered it. */
  lemma {:induction false} PendingOwner(ms: seq<Message>, id: string) returns (i: nat)
    requires id in Pending(ms)
    ensures i < |ms| && ms[i].role.Assistant? && id in CallIds(ms[i])
    ensures forall k :: i < k < |ms| ==> ms[k].role.Tool? && ms[k].answers != id
  {
    var n := |ms| - 1;
    if ms[n].role.Assistant? {
      i := n;
    } else {
      i := PendingOwner(ms[..n], id);
      assert forall k :: i < k < n ==> ms[k] == ms[..n][k];
    }
  }

  lemma {:induction false} AnsweredScan(ms: seq<Message>, n: nat)
    requires EveryCallAnswered(ms) && n <= |ms|
    ensures Clean(ms[..n])
  {
    if n > 0 {
      AnsweredScan(ms, n - 1);
      assert ms[..n][..n - 1] == ms[..n - 1];
      if !ms[n - 1].role.Tool? {
        var before := ms[..n - 1];
        if Pending(before) != {} {
          var id :| id in Pending(before);
          var i := PendingOwner(before, id);
        }
      }
    }
  }

  // ---- concatenation ---------------------------------------------------------------

  lemma {:induction false} PairedConcat(a: seq<Message>, b: seq<Message>)
    requires Pending(a) == {}
    ensures Pending(a + b) == Pending(b)
    ensures Clean(a + b) <==> Clean(a) && Clean(b)
    ensures Grounded(a) && Grounded(b) ==> Grounded(a + b)
    ensures OpenCalls(b) <= OpenCalls(a + b)
    ensures b != [] && !b[0].role.Tool? ==> OpenCalls(b) == OpenCalls(a + b)
    ensures b != [] && !b[0].role.Tool? ==> (Grounded(a + b) <==> Grounded(a) && Grounded(b))
  {
    if b == [] {
      Seqs.Empty(a);
    } else {
      var c := b[..|b| - 1];
      PairedConcat(a, c);
      Seqs.Init(a, b);
      Seqs.Empty(a);
    }
  }

  lemma {:induction false} PairedPrefix(a: seq<Message>, b: seq<Message>)
    requires AllAnswered(a + b) && (b == [] || !b[0].role.Tool?)
    ensures AllAnswered(a) && AllAnswered(b)
  {
    CleanPrefix(a, b);
    if b != [] {
      Seqs.Uncons(b);
      Seqs.Assoc(a, [b[0]], b[1..]);
      CleanPrefix(a + [b[0]], b[1..]);
      Seqs.Snoc(a, b[0]);
    } else {
      Seqs.Empty(a);
    }
    PairedConcat(a, b);
  }

  lemma {:induction false} CleanPrefix(a: seq<Message>, b: seq<Message>)
    requires Clean(a + b)
    ensures Clean(a)
    ensures Grounded(a + b) ==> Grounded(a)
  {
    if b == [] {
      Seqs.Empty(a);
    } else {
      Seqs.Init(a, b);
      CleanPrefix(a, b[..|b| - 1]);
    }
  }

  /** Appending the synthetic results of whatever is pending closes the history. */
  lemma {:induction false} ClosersAnswer(ms: seq<Message>)
    requires Clean(ms)
    ensures AllAnswered(ms + SyntheticResults(Pending(ms)))
    ensures Grounded(ms) ==> Grounded(ms + SyntheticResults(Pending(ms)))
  {
    var closers := SyntheticResults(Pending(ms));
    EveryPendingHasCloser(Pending(ms));
    PendingIsOpen(ms);
    ClosersScan(ms, closers);
    ClosersGrounded(ms, closers);
  }

  /** `closers` answer exactly the ids of `pending`. */
  ghost predicate AnswerAll(closers: seq<Message>, pending: set<string>) {
    && (forall i :: 0 <= i < |closers| ==> closers[i].role.Tool? && closers[i].answers in pending)
    && (forall id :: id in pending ==> exists i :: 0 <= i < |closers| && closers[i].answers == id)
  }

  lemma {:induction false} EveryPendingHasCloser(pending: set<string>)
    ensures AnswerAll(SyntheticResults(pending), pending)
  {
    var ids, closers := Ascending(pending), SyntheticResults(pending);
    forall id | id in pending ensures exists i :: 0 <= i < |closers| && closers[i].answers == id {
      var i :| 0 <= i < |ids| && ids[i] == id;
      assert closers[i].answers == id;
    }
  }

  lemma {:induction false} ClosersScan(ms: seq<Message>, closers: seq<Message>)
    requires Clean(ms) && forall i :: 0 <= i < |closers| ==> closers[i].role.Tool?
    ensures Clean(ms + closers)
    ensures forall id :: id in Pending(ms + closers) <==>
              id in Pending(ms) && forall i :: 0 <= i < |closers| ==> closers[i].answers != id
  {
    if closers == [] {
      Seqs.Empty(ms);
    } else {
      ClosersScan(ms, closers[..|closers| - 1]);
      Seqs.Init(ms, closers);
    }
  }

  lemma {:induction false} ClosersGrounded(ms: seq<Message>, closers: seq<Message>)
    requires forall i :: 0 <= i < |closers| ==> closers[i].role.Tool? && closers[i].answers in OpenCalls(ms)
    ensures OpenCalls(ms + closers) == OpenCalls(ms)
    ensures Grounded(ms) ==> Grounded(ms + closers)
  {
    if closers == [] {
      Seqs.Empty(ms);
    } else {
      ClosersGrounded(ms, closers[..|closers| - 1]);
      Seqs.Init(ms, closers);
    }
  }

  lemma {:induction false} PendingIsOpen(ms: seq<Message>)
    ensures Pending(ms) <= OpenCalls(ms)
  {
    if ms != [] {
      PendingIsOpen(ms[..|ms| - 1]);
    }
  }
}
