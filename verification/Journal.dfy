/** The journal written beside a run, and the export cursor that throttles full snapshots. */
module Journal {
  import opened Transcript
  import opened Repair
  import opened Numbers
  import Seqs

  /**
    A line of the journal file. `Torn` is text without its newline at the end of the file, left by a
    write that stopped halfway; `Garbled` is a line that does not parse.
   */
  datatype Line = Meta | Msg(m: Message) | Info | Note | Torn | Garbled

  /** A write succeeds, or fails and leaves whatever it leaves in the file. */
  datatype Write = Succeeds | Fails(left: seq<Line>)

  /** The history, the cursor into it, whether this run has opened its journal, and the file. */
  datatype Log = Log(messages: seq<Message>, journaled: nat, begun: bool, file: seq<Line>)

  function Lines(ms: seq<Message>): (r: seq<Line>)
    ensures |r| == |ms| && forall i :: 0 <= i < |r| ==> r[i] == Msg(ms[i])
  {
    seq(|ms|, i requires 0 <= i < |ms| => Msg(ms[i]))
  }

  // ---- the file --------------------------------------------------------------------

  predicate EndsTorn(file: seq<Line>) {
    file != [] && file[|file| - 1].Torn?
  }

  /** Appending to the file: behind torn text the first line is glued to it, and neither parses. */
  function Written(file: seq<Line>, lines: seq<Line>): seq<Line>
    requires lines != []
  {
    if EndsTorn(file) then file[..|file| - 1] + [Garbled] + lines[1..] else file + lines
  }

  /** A journal written from nothing, and what a save appends to one. */
  function Rebuilt(ms: seq<Message>): seq<Line> {
    [Meta] + Addition(ms)
  }

  function Addition(ms: seq<Message>): (r: seq<Line>)
    ensures r != []
  {
    Lines(ms) + [Info]
  }

  /** What a reader makes of the file: a meta line starts over, and a line that does not parse is skipped. */
  function Read(file: seq<Line>): seq<Message> {
    if file == [] then []
    else
      match file[|file| - 1]
      case Meta => []
      case Msg(m) => Read(file[..|file| - 1]) + [m]
      case _ => Read(file[..|file| - 1])
  }

  // ---- what the run does to the log ------------------------------------------------

  /** The next save starts the file over. */
  predicate Restarts(l: Log) {
    !l.begun || l.journaled == 0
  }

  function Saved(l: Log, write: Write): Log {
    if write.Fails? then l.(journaled := 0, begun := true, file := write.left)
    else
      l.(journaled := |l.messages|, begun := true,
         file := if Restarts(l) then Rebuilt(l.messages)
                 else Written(l.file, Addition(l.messages[Min(l.journaled, |l.messages|)..])))
  }

  /** Take the proposed exit off the end; the cursor never points past the history. */
  function Popped(l: Log): Log {
    if !AtExit(l.messages) then l
    else l.(messages := l.messages[..|l.messages| - 1], journaled := Min(l.journaled, |l.messages| - 1))
  }

  /** A note or a streamed delta goes straight into the file; if its write stops halfway nobody is told. */
  function Noted(l: Log, whole: bool): Log {
    l.(file := if whole then Written(l.file, [Note]) else if EndsTorn(l.file) then l.file else l.file + [Torn])
  }

  datatype Op =
    | Add(msgs: seq<Message>)               // `add_messages`
    | Push(m: Message)                      // a message pushed back or pushed directly
    | PopExit                               // an exit taken off to be judged or to hold
    | Prefix(first: Message, second: Message) // system and task put in front after a rejected fast answer
    | Remark(whole: bool)                   // a note or a streamed delta
    | Save(write: Write)

  function Apply(l: Log, op: Op): Log {
    match op
    case Add(msgs) => l.(messages := Appended(l.messages, msgs))
    case Push(m) => l.(messages := l.messages + [m])
    case PopExit => Popped(l)
    case Prefix(first, second) => l.(messages := [first, second] + l.messages, journaled := 0)
    case Remark(whole) => Noted(l, whole)
    case Save(write) => Saved(l, write)
  }

  function ApplyAll(l: Log, ops: seq<Op>): Log
    decreases |ops|
  {
    if ops == [] then l else ApplyAll(Apply(l, ops[0]), ops[1..])
  }

  // ---- what gets lost --------------------------------------------------------------

  /** The next save glues its first message to torn text. */
  predicate Swallows(l: Log) {
    !Restarts(l) && EndsTorn(l.file) && l.journaled < |l.messages| && !l.messages[l.journaled].role.Exit?
  }

  /** How many messages the file has swallowed since it was last started over. */
  function LostAfter(l: Log, lost: nat, op: Op): nat {
    match op
    case Save(write) => if write.Fails? || Restarts(l) then 0 else if Swallows(l) then lost + 1 else lost
    case Prefix(_, _) => 0
    case _ => lost
  }

  function LostAll(l: Log, lost: nat, ops: seq<Op>): nat
    decreases |ops|
  {
    if ops == [] then lost else LostAll(Apply(l, ops[0]), LostAfter(l, lost, ops[0]), ops[1..])
  }

  // ---- agreement -------------------------------------------------------------------

  /** A reader finds these messages, exits aside. */
  predicate Holds(file: seq<Line>, ms: seq<Message>) {
    WithoutExits(Read(file)) == WithoutExits(ms)
  }

  /** The file holds `ms` but for `lost` messages. */
  predicate HoldsBut(file: seq<Line>, ms: seq<Message>, lost: nat) {
    |WithoutExits(Read(file))| + lost == |WithoutExits(ms)| && (lost == 0 ==> Holds(file, ms))
  }

  /** The file holds the part of the history up to the cursor, but for what was lost. */
  predicate Tracks(l: Log, lost: nat) {
    l.journaled <= |l.messages| && (!Restarts(l) ==> HoldsBut(l.file, l.messages[..l.journaled], lost))
  }

  lemma {:induction false} ReadConcat(file: seq<Line>, lines: seq<Line>)
    requires Meta !in lines
    ensures Read(file + lines) == Read(file) + Read(lines)
  {
    if lines == [] {
      Seqs.Empty(file);
      Seqs.Empty(Read(file));
    } else {
      Seqs.Init(file, lines);
      assert lines[|lines| - 1] in lines;
      ReadConcat(file, lines[..|lines| - 1]);
    }
  }

  lemma {:induction false} ReadLines(ms: seq<Message>)
    ensures Read(Lines(ms)) == ms && Meta !in Lines(ms)
  {
    if ms != [] {
      assert Lines(ms)[..|ms| - 1] == Lines(ms[..|ms| - 1]);
      ReadLines(ms[..|ms| - 1]);
    }
  }

  lemma {:induction false} ReadAddition(ms: seq<Message>)
    ensures Read(Addition(ms)) == ms && Meta !in Addition(ms) && Read(Rebuilt(ms)) == ms
  {
    ReadLines(ms);
    Seqs.Snoc(Lines(ms), Info);
    ReadConcat([Meta], Addition(ms));
    Seqs.Empty(ms);
    assert Read([Meta]) == [];
  }

  /** Behind torn text the first message of an addition is lost, and that is all. */
  lemma {:induction false} ReadWritten(file: seq<Line>, ms: seq<Message>)
    ensures Read(Written(file, Addition(ms))) == Read(file) + if EndsTorn(file) && ms != [] then ms[1..] else ms
  {
    ReadAddition(ms);
    if EndsTorn(file) {
      var front, rest := file[..|file| - 1] + [Garbled], Addition(ms)[1..];
      Seqs.Snoc(file[..|file| - 1], Garbled);
      AdditionRest(ms);
      ReadConcat(front, rest);
    } else {
      ReadConcat(file, Addition(ms));
    }
  }

  lemma {:induction false} AdditionRest(ms: seq<Message>)
    ensures var rest := Addition(ms)[1..]; Meta !in rest && Read(rest) == if ms != [] then ms[1..] else ms
  {
    if ms == [] {
      assert Addition(ms)[1..] == [];
    } else {
      assert Addition(ms)[1..] == Addition(ms[1..]);
      ReadAddition(ms[1..]);
    }
  }

  /** A successful save leaves the file holding the history but for what was lost; a failed one leaves it to be started over. */
  lemma {:induction false} SaveTracks(l: Log, lost: nat, write: Write)
    requires Tracks(l, lost)
    ensures Tracks(Saved(l, write), LostAfter(l, lost, Save(write)))
  {
    assert l.messages[..|l.messages|] == l.messages;
    if write.Succeeds? {
      if Restarts(l) {
        ReadAddition(l.messages);
      } else {
        AppendTracks(l.file, l.messages[..l.journaled], l.messages[l.journaled..], lost);
        Seqs.Cut(l.messages, l.journaled);
      }
    }
  }

  lemma {:induction false} AppendTracks(file: seq<Line>, held: seq<Message>, more: seq<Message>, lost: nat)
    requires HoldsBut(file, held, lost)
    ensures HoldsBut(Written(file, Addition(more)), held + more,
                     if EndsTorn(file) && more != [] && !more[0].role.Exit? then lost + 1 else lost)
  {
    ReadWritten(file, more);
    WithoutExitsConcat(held, more);
    if EndsTorn(file) && more != [] {
      WithoutExitsConcat(Read(file), more[1..]);
      WithoutFirst(more);
    } else {
      WithoutExitsConcat(Read(file), more);
    }
  }

  /** Whatever is put behind the cursor leaves the file alone. */
  lemma {:induction false} GrowthTracks(l: Log, lost: nat, more: seq<Message>)
    requires Tracks(l, lost)
    ensures Tracks(l.(messages := l.messages + more), lost)
  {
    assert (l.messages + more)[..l.journaled] == l.messages[..l.journaled];
  }

  /** An exit that is taken off was never counted. */
  lemma {:induction false} PopTracks(l: Log, lost: nat)
    requires Tracks(l, lost)
    ensures Tracks(Popped(l), lost)
  {
    if AtExit(l.messages) {
      var rest := l.messages[..|l.messages| - 1];
      if l.journaled == |l.messages| {
        assert l.messages[..l.journaled] == l.messages && rest[..|rest|] == rest;
        Seqs.Empty(WithoutExits(rest));
      } else {
        assert rest[..l.journaled] == l.messages[..l.journaled];
      }
    }
  }

  lemma {:induction false} ReadNoted(l: Log, whole: bool)
    ensures Read(Noted(l, whole).file) == Read(l.file)
  {
    if EndsTorn(l.file) {
      Seqs.Snoc(l.file[..|l.file| - 1], Garbled);
      assert [Note][1..] == [];
      Seqs.Empty(l.file[..|l.file| - 1] + [Garbled]);
    } else {
      Seqs.Snoc(l.file, if whole then Note else Torn);
    }
  }

  lemma {:induction false} OpTracks(l: Log, lost: nat, op: Op)
    requires Tracks(l, lost)
    ensures Tracks(Apply(l, op), LostAfter(l, lost, op))
  {
    match op
    case Save(write) => SaveTracks(l, lost, write);
    case Remark(whole) => ReadNoted(l, whole);
    case PopExit => PopTracks(l, lost);
    case Push(m) => GrowthTracks(l, lost, [m]);
    case Add(msgs) =>
      Seqs.Assoc(l.messages, Closers(l.messages, msgs), msgs);
      GrowthTracks(l, lost, Closers(l.messages, msgs) + msgs);
    case Prefix(_, _) =>
  }

  lemma {:induction false} OpsTrack(l: Log, lost: nat, ops: seq<Op>)
    requires Tracks(l, lost)
    ensures Tracks(ApplyAll(l, ops), LostAll(l, lost, ops))
    decreases |ops|
  {
    if ops != [] {
      OpTracks(l, lost, ops[0]);
      OpsTrack(Apply(l, ops[0]), LostAfter(l, lost, ops[0]), ops[1..]);
    }
  }

  const NEW_LOG := Log([], 0, false, [])

  /**
    Through any appends, exits journaled and then popped or pushed back, rejections, front insertions,
    notes and failed writes: after a successful save a reader finds the history, exits aside, if and only
    if no save since the file was last started over swallowed a message behind a torn note.
   */
  lemma {:induction false} EverySaveAgreesIff(ops: seq<Op>)
    ensures var l, lost := ApplyAll(NEW_LOG, ops), LostAll(NEW_LOG, 0, ops);
            Holds(Saved(l, Succeeds).file, l.messages) <==> LostAfter(l, lost, Save(Succeeds)) == 0
  {
    var l, lost := ApplyAll(NEW_LOG, ops), LostAll(NEW_LOG, 0, ops);
    OpsTrack(NEW_LOG, 0, ops);
    SaveTracks(l, lost, Succeeds);
    assert l.messages[..|l.messages|] == l.messages;
    if l.messages == [] {
      ReadNothing(l);
    }
  }

  /** A cursor at 0 says nothing of the file, but the history is then empty and the file was just started over. */
  lemma {:induction false} ReadNothing(l: Log)
    requires l.messages == [] && l.journaled == 0
    ensures Holds(Saved(l, Succeeds).file, l.messages)
  {
    ReadAddition(l.messages);
  }

  predicate NoTornNotes(ops: seq<Op>) {
    forall i :: 0 <= i < |ops| ==> ops[i] != Remark(false)
  }

  /** Without torn notes every save agrees. */
  lemma {:induction false} EverySaveAgrees(ops: seq<Op>)
    requires NoTornNotes(ops)
    ensures var l := ApplyAll(NEW_LOG, ops); Holds(Saved(l, Succeeds).file, l.messages)
  {
    NothingTorn(NEW_LOG, ops);
    EverySaveAgreesIff(ops);
  }

  lemma {:induction false} NothingTorn(l: Log, ops: seq<Op>)
    requires NoTornNotes(ops) && (!Restarts(l) ==> !EndsTorn(l.file))
    ensures var r := ApplyAll(l, ops); LostAll(l, 0, ops) == 0 && (!Restarts(r) ==> !EndsTorn(r.file))
    decreases |ops|
  {
    if ops != [] {
      StaysWhole(l, ops[0]);
      NothingTorn(Apply(l, ops[0]), ops[1..]);
    }
  }

  lemma {:induction false} StaysWhole(l: Log, op: Op)
    requires op != Remark(false) && (!Restarts(l) ==> !EndsTorn(l.file))
    ensures LostAfter(l, 0, op) == 0 && (!Restarts(Apply(l, op)) ==> !EndsTorn(Apply(l, op).file))
  {
  }

  /** A note torn between two saves: the next message never reaches a reader. */
  lemma {:induction false} TornNoteSwallows(first: Message, second: Message)
    requires first.role.User? && second.role.User?
    ensures var ops := [Push(first), Save(Succeeds), Remark(false), Push(second)];
            var l := ApplyAll(NEW_LOG, ops);
            l.messages == [first, second] && !Holds(Saved(l, Succeeds).file, l.messages)
  {
    var one := Log([first], 0, false, []);
    var two := Saved(one, Succeeds);
    var three := Noted(two, false);
    var four := three.(messages := [first] + [second]);
    assert Apply(NEW_LOG, Push(first)) == one;
    RunFour(one, two, three, four, first, second);
    EverySaveAgreesIff([Push(first), Save(Succeeds), Remark(false), Push(second)]);
  }

  lemma {:induction false} RunFour(one: Log, two: Log, three: Log, four: Log, first: Message, second: Message)
    requires second.role.User?
    requires one == Log([first], 0, false, []) && two == Saved(one, Succeeds) && three == Noted(two, false)
    requires four == three.(messages := [first] + [second])
    ensures var ops := [Push(first), Save(Succeeds), Remark(false), Push(second)];
            ApplyAll(NEW_LOG, ops) == four && LostAll(NEW_LOG, 0, ops) == 0 && LostAfter(four, 0, Save(Succeeds)) == 1
  {
    var ops := [Push(first), Save(Succeeds), Remark(false), Push(second)];
    var rest := [Save(Succeeds), Remark(false), Push(second)];
    Seqs.Empty([first]);
    Unroll(NEW_LOG, Push(first), rest, ops);
    Unroll(one, Save(Succeeds), [Remark(false), Push(second)], rest);
    Unroll(two, Remark(false), [Push(second)], [Remark(false), Push(second)]);
    Unroll(three, Push(second), [], [Push(second)]);
    assert EndsTorn(four.file);
  }

  lemma {:induction false} Unroll(l: Log, op: Op, rest: seq<Op>, ops: seq<Op>)
    requires ops == [op] + rest
    ensures ApplyAll(l, ops) == ApplyAll(Apply(l, op), rest)
    ensures forall lost :: LostAll(l, lost, ops) == LostAll(Apply(l, op), LostAfter(l, lost, op), rest)
  {
    assert ops[1..] == rest;
  }

  // ---- the export cursor -----------------------------------------------------------

  function Every(len: nat): nat {
    Max(20, len / 10)
  }

  /** Enough messages since the last export (the subtraction saturates, like the source's). */
  predicate CountDue(len: nat, exported: nat) {
    Max(len - exported, 0) >= Every(len)
  }

  /** The history length, how much of it the last export held, and the messages serialized so far. */
  datatype Export = Export(len: nat, exported: nat, serialized: nat)

  /** Some messages are added and the run saves; an export fires by the count rule alone and succeeds. */
  function Exported(e: Export, added: nat): Export {
    var len := e.len + added;
    if CountDue(len, e.exported) then Export(len, len, e.serialized + len) else e.(len := len)
  }

  function ExportRun(e: Export, adds: seq<nat>): Export
    decreases |adds|
  {
    if adds == [] then e else ExportRun(Exported(e, adds[0]), adds[1..])
  }

  ghost predicate Amortized(e: Export) {
    e.exported <= e.len && e.serialized <= 11 * e.exported
  }

  lemma {:induction false} ExportKeepsAmortized(e: Export, added: nat)
    requires Amortized(e)
    ensures Amortized(Exported(e, added))
    ensures Exported(e, added).len - Exported(e, added).exported < Every(Exported(e, added).len)
  {
    var len := e.len + added;
    var d := len - e.exported;
    if CountDue(len, e.exported) {
      assert d >= 20 && d >= len / 10;
      assert len <= 10 * (len / 10) + 9 <= 11 * d;
    }
  }

  /** All exports together serialize at most eleven messages per message of the history. */
  lemma {:induction false} ExportCostIsLinear(e: Export, adds: seq<nat>)
    requires Amortized(e)
    ensures var r := ExportRun(e, adds);
            && Amortized(r) && r.serialized <= 11 * r.len
            && (adds != [] ==> r.len - r.exported < Every(r.len))
    decreases |adds|
  {
    if adds != [] {
      ExportKeepsAmortized(e, adds[0]);
      ExportCostIsLinear(Exported(e, adds[0]), adds[1..]);
    }
  }
}
