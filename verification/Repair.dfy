/** Closing the tool calls of a history: `repair_tool_call_history` and `add_messages`. */
module Repair {
  import opened Transcript
  import Seqs

  /** The entries of a stored history that are JSON objects. */
  function Objects(entries: seq<Option<Message>>): seq<Message> {
    if entries == [] then []
    else (if entries[0].Some? then [entries[0].value] else []) + Objects(entries[1..])
  }

  /** The results owed before `m`, when `pending` calls are open. */
  function Owed(m: Message, pending: set<string>): seq<Message> {
    if m.role.Tool? then [] else SyntheticResults(pending)
  }

  /** The calls that are open after `m`. */
  function OpenAfter(m: Message, pending: set<string>): set<string> {
    if m.role.Assistant? then CallIds(m) else if m.role.Tool? then pending - {m.answers} else {}
  }

  /** What the scan still has to write, given the calls that are pending. */
  function RepairFrom(ms: seq<Message>, pending: set<string>): seq<Message> {
    if ms == [] then SyntheticResults(pending)
    else Owed(ms[0], pending) + [ms[0]] + RepairFrom(ms[1..], OpenAfter(ms[0], pending))
  }

  function Repaired(ms: seq<Message>): seq<Message> {
    RepairFrom(ms, {})
  }

  method RepairToolCallHistory(entries: seq<Option<Message>>) returns (out: seq<Message>)
    ensures out == Repaired(Objects(entries))
  {
    out := [];
    var pending: set<string> := {};
    var i := 0;
    ghost var rest := Objects(entries);
    Seqs.Empty(RepairFrom(rest, {}));
    assert entries[0..] == entries;
    while i < |entries|
      invariant 0 <= i <= |entries|
      invariant rest == Objects(entries[i..])
      invariant out + RepairFrom(rest, pending) == Repaired(Objects(entries))
    {
      ObjectsStep(entries[i..]);
      assert entries[i..][1..] == entries[i + 1..];
      if entries[i].Some? {
        var m := entries[i].value;
        ScanStep(out, rest, pending);
        out, pending := Scan(out, pending, m);
        rest := rest[1..];
      }
      i := i + 1;
    }
    Seqs.Empty(out);
    if pending != {} {
      out := out + SyntheticResults(pending);
    }
  }

  /** The body of the loop: one message. */
  method Scan(before: seq<Message>, open: set<string>, m: Message) returns (out: seq<Message>, pending: set<string>)
    ensures out == before + Owed(m, open) + [m] && pending == OpenAfter(m, open)
  {
    out, pending := before, open;
    Seqs.Empty(before);
    if m.role.Assistant? {
      if pending != {} {
        out := out + SyntheticResults(pending);
      }
      pending := CallIds(m);
    } else if m.role.Tool? {
      pending := pending - {m.answers};
    } else if pending != {} {
      out := out + SyntheticResults(pending);
      pending := {};
    }
    out := out + [m];
  }

  lemma {:induction false} ObjectsStep(entries: seq<Option<Message>>)
    requires entries != []
    ensures entries[0].None? ==> Objects(entries) == Objects(entries[1..])
    ensures entries[0].Some? ==> Objects(entries) != [] && Objects(entries)[0] == entries[0].value
    ensures entries[0].Some? ==> Objects(entries)[1..] == Objects(entries[1..])
  {
  }

  lemma {:induction false} ScanStep(out: seq<Message>, ms: seq<Message>, pending: set<string>)
    requires ms != []
    ensures out + RepairFrom(ms, pending)
         == (out + Owed(ms[0], pending) + [ms[0]]) + RepairFrom(ms[1..], OpenAfter(ms[0], pending))
    ensures Owed(ms[0], pending) == [] ==> out + Owed(ms[0], pending) == out
  {
    Regroup(out, Owed(ms[0], pending), ms[0], RepairFrom(ms[1..], OpenAfter(ms[0], pending)));
  }

  lemma {:induction false} Regroup(out: seq<Message>, owed: seq<Message>, m: Message, rest: seq<Message>)
    ensures out + (owed + [m] + rest) == (out + owed + [m]) + rest
    ensures owed == [] ==> out + owed == out
  {
  }

  // ---- what a repaired history is --------------------------------------------------

  /** `out` is `ms` in order, with synthetic results put in between and nothing else. */
  ghost predicate OnlyClosersAdded(ms: seq<Message>, out: seq<Message>)
    decreases |out|
  {
    if out == [] then ms == []
    else
      || (ms != [] && out[0] == ms[0] && OnlyClosersAdded(ms[1..], out[1..]))
      || (out[0] == Synthetic(out[0].answers) && OnlyClosersAdded(ms, out[1..]))
  }

  /** Repairing answers every call, whatever the history held. */
  lemma {:induction false} RepairAnswersEveryCall(ms: seq<Message>)
    ensures AllAnswered(Repaired(ms))
  {
    RepairAnswers([], ms);
    assert [] + Repaired(ms) == Repaired(ms);
  }

  lemma {:induction false} RepairAnswers(done: seq<Message>, ms: seq<Message>)
    requires Clean(done)
    ensures AllAnswered(done + RepairFrom(ms, Pending(done)))
    decreases |ms|
  {
    var pending := Pending(done);
    ClosersAnswer(done);
    if ms != [] {
      var m := ms[0];
      var closed := done + Owed(m, pending);
      var next := closed + [m];
      if m.role.Tool? {
        assert closed == done;
      }
      assert next[..|closed|] == closed;
      RepairAnswers(next, ms[1..]);
      Regroup(done, Owed(m, pending), m, RepairFrom(ms[1..], Pending(next)));
    }
  }

  /** Nothing is dropped or reordered, and whatever is added is a synthetic result. */
  lemma {:induction false} RepairOnlyAddsClosers(ms: seq<Message>, pending: set<string>)
    ensures OnlyClosersAdded(ms, RepairFrom(ms, pending))
    decreases |ms|
  {
    var closers := SyntheticResults(pending);
    if ms == [] {
      ClosersFirst([], closers, []);
      Seqs.Empty(closers);
    } else {
      var m := ms[0];
      var rest := RepairFrom(ms[1..], OpenAfter(m, pending));
      RepairOnlyAddsClosers(ms[1..], OpenAfter(m, pending));
      MessageFirst(ms, rest);
      ClosersFirst(ms, Owed(m, pending), [m] + rest);
      Seqs.Assoc(Owed(m, pending), [m], rest);
    }
  }

  lemma {:induction false} MessageFirst(ms: seq<Message>, rest: seq<Message>)
    requires ms != [] && OnlyClosersAdded(ms[1..], rest)
    ensures OnlyClosersAdded(ms, [ms[0]] + rest)
  {
    assert ([ms[0]] + rest)[1..] == rest;
  }

  lemma {:induction false} ClosersFirst(ms: seq<Message>, closers: seq<Message>, out: seq<Message>)
    requires forall c :: c in closers ==> c == Synthetic(c.answers)
    requires OnlyClosersAdded(ms, out)
    ensures OnlyClosersAdded(ms, closers + out)
  {
    if closers == [] {
      Seqs.Empty(out);
    } else {
      ClosersFirst(ms, closers[1..], out);
      Seqs.Tail(closers, out);
    }
  }

  /** Repair changes a history exactly when some call of it is unanswered. */
  lemma {:induction false} RepairUnchangedIffAnswered(ms: seq<Message>)
    ensures Repaired(ms) == ms <==> AllAnswered(ms)
    ensures Repaired(Repaired(ms)) == Repaired(ms)
  {
    RepairAnswersEveryCall(ms);
    assert [] + ms == ms;
    if AllAnswered(ms) {
      RepairFixpoint([], ms);
    }
    assert [] + Repaired(ms) == Repaired(ms);
    RepairFixpoint([], Repaired(ms));
  }

  lemma {:induction false} RepairFixpoint(done: seq<Message>, ms: seq<Message>)
    requires AllAnswered(done + ms)
    ensures RepairFrom(ms, Pending(done)) == ms
    decreases |ms|
  {
    if ms == [] {
      assert done + ms == done;
    } else {
      var next := done + [ms[0]];
      assert next + ms[1..] == done + ms;
      assert next[..|done|] == done;
      CleanPrefix(next, ms[1..]);
      RepairFixpoint(next, ms[1..]);
    }
  }

  // ---- appending -------------------------------------------------------------------

  /** The results that must be put in before a user message follows an assistant message. */
  function Closers(history: seq<Message>, msgs: seq<Message>): seq<Message> {
    if history != [] && msgs != [] && msgs[0].role.User? && history[|history| - 1].role.Assistant?
    then SyntheticResults(CallIds(history[|history| - 1]))
    else []
  }

  /** The history after `add_messages`. */
  function Appended(history: seq<Message>, msgs: seq<Message>): seq<Message> {
    history + Closers(history, msgs) + msgs
  }

  lemma {:induction false} NothingOpenNothingAdded(ms: seq<Message>, msgs: seq<Message>)
    requires AllAnswered(ms)
    ensures Appended(ms, msgs) == ms + msgs
  {
    assert Closers(ms, msgs) == [];
    Seqs.Empty(ms);
  }

  /**
    All that an append can repair: a call is pending only because its assistant message came last.
    A history whose results were cut short in the middle is not closable this way.
   */
  predicate Closable(ms: seq<Message>) {
    Clean(ms) && (Pending(ms) == {} || ms[|ms| - 1].role.Assistant?)
  }

  /** A user message after a closable history leaves every call answered. */
  lemma {:induction false} AppendUserCloses(history: seq<Message>, msg: Message)
    requires Closable(history) && msg.role.User?
    ensures AllAnswered(Appended(history, [msg]))
    ensures Grounded(history) ==> Grounded(Appended(history, [msg]))
  {
    ClosersAnswer(history);
    var closed := history + Closers(history, [msg]);
    assert AllAnswered(closed) && (Grounded(history) ==> Grounded(closed)) by {
      Seqs.Empty(history);
    }
    Seqs.Snoc(closed, msg);
  }

  /** Closability is also needed: otherwise the user message leaves a call unanswered. */
  lemma {:induction false} AppendUserClosesOnlyIfClosable(history: seq<Message>, msg: Message)
    requires msg.role.User? && AllAnswered(Appended(history, [msg]))
    ensures Closable(history)
  {
    var closers := Closers(history, [msg]);
    var closed := history + closers;
    Seqs.Snoc(closed, msg);
    CleanPrefix(history, closers);
    Seqs.Empty(history);
  }
}
