/** Up to three parent streams race to write a plan; the first that orders anything owns it. */
module HedgedParents {
  import opened Transcript
  import PlanParser
  import opened PlanStream
  import Seqs

  const STREAMS: nat := 3

  /** How a stream's call ends: with a plan whose blocks order these paths, or with an error. */
  datatype Outcome = Finished(paths: seq<string>) | Broken

  /** What one stream sends: its orders as they close, then how it ended. */
  datatype Script = Script(orders: seq<string>, outcome: Outcome)

  /** What the streaming parser guarantees of a stream (`StreamAgreesWithBatch`). */
  predicate FromOnePlan(s: Script) {
    Distinct(s.orders) && (s.outcome.Finished? ==> s.orders <= s.outcome.paths && Distinct(s.outcome.paths))
  }

  predicate AllFromOnePlan(scripts: seq<Script>) {
    |scripts| == STREAMS && forall id :: 0 <= id < STREAMS ==> FromOnePlan(scripts[id])
  }

  /** The next event of stream `id` arrives, or the wait for one times out. */
  datatype Event = Arrives(id: nat) | Timeout

  /** The loop's variables; `pos` counts the events received from each stream and `sources` says whose each clone is. */
  datatype Loop = Loop(
    started: nat, live: int, owner: Option<nat>,
    dispatched: seq<string>, sources: seq<nat>, pos: seq<nat>, running: bool)

  function Begin(): Loop {
    Loop(1, 1, None, [], [], [0, 0, 0], true)
  }

  /** The loop waits with a timeout only while nobody owns the plan and another stream may start. */
  predicate Hedging(l: Loop) {
    l.owner.None? && l.started < STREAMS
  }

  predicate Enabled(l: Loop, scripts: seq<Script>, e: Event)
    requires |scripts| == STREAMS == |l.pos|
  {
    l.running &&
    match e
    case Timeout => Hedging(l)
    case Arrives(id) => id < l.started && id < STREAMS && l.pos[id] <= |scripts[id].orders|
  }

  function Spawned(l: Loop): Loop {
    l.(started := l.started + 1, live := l.live + 1)
  }

  /** Clones for the paths that are not out yet. */
  function Dispatched(l: Loop, id: nat, paths: seq<string>): (r: Loop)
    ensures r == l.(dispatched := r.dispatched, sources := r.sources)
    ensures |r.sources| - |l.sources| == |r.dispatched| - |l.dispatched|
    decreases |paths|
  {
    if paths == [] then l
    else if paths[0] in l.dispatched then Dispatched(l, id, paths[1..])
    else Dispatched(l.(dispatched := l.dispatched + [paths[0]], sources := l.sources + [id]), id, paths[1..])
  }

  function OnOrder(l: Loop, id: nat, path: string): Loop {
    var owned := if l.owner.None? then l.(owner := Some(id)) else l;
    if owned.owner != Some(id) || path in l.dispatched then owned
    else owned.(dispatched := l.dispatched + [path], sources := l.sources + [id])
  }

  function OnDone(l: Loop, id: nat, outcome: Outcome): Loop {
    var down := l.(live := l.live - 1);
    var mine := outcome.Finished? && (l.owner.None? || l.owner == Some(id));
    var out := if mine then Dispatched(down, id, outcome.paths) else down;
    if mine && out.dispatched != [] then out.(running := false)
    else if l.owner == Some(id) || (out.live == 0 && out.started >= STREAMS) then out.(running := false)
    else if Hedging(out) && out.live < 2 then Spawned(out)
    else out
  }

  function Step(l: Loop, scripts: seq<Script>, e: Event): (r: Loop)
    requires |scripts| == STREAMS == |l.pos|
    ensures |r.pos| == STREAMS
  {
    if !Enabled(l, scripts, e) then l
    else
      match e
      case Timeout => Spawned(l)
      case Arrives(id) =>
        var at := l.pos[id];
        var next := l.(pos := l.pos[id := at + 1]);
        if at < |scripts[id].orders| then OnOrder(next, id, scripts[id].orders[at])
        else OnDone(next, id, scripts[id].outcome)
  }

  function Run(l: Loop, scripts: seq<Script>, schedule: seq<Event>): (r: Loop)
    requires |scripts| == STREAMS == |l.pos|
    ensures |r.pos| == STREAMS
    decreases |schedule|
  {
    if schedule == [] then l else Run(Step(l, scripts, schedule[0]), scripts, schedule[1..])
  }

  /** An order arrives: the first one makes its stream the owner, and the owner's new paths get clones. */
  method TakeOrder(l: Loop, id: nat, path: string) returns (r: Loop)
    ensures r.owner.Some? && (l.owner.Some? ==> r.owner == l.owner) && (l.owner.None? ==> r.owner == Some(id))
    ensures path in r.dispatched <==> path in l.dispatched || r.owner == Some(id)
    ensures l.dispatched <= r.dispatched <= l.dispatched + [path] && l.sources <= r.sources <= l.sources + [id]
    ensures |r.sources| - |l.sources| == |r.dispatched| - |l.dispatched|
    ensures Distinct(l.dispatched) ==> Distinct(r.dispatched)
    ensures AllFrom(l.sources, r.owner.value) ==> AllFrom(r.sources, r.owner.value)
    ensures r == l.(owner := r.owner, dispatched := r.dispatched, sources := r.sources)
    ensures path in l.dispatched ==> r.dispatched == l.dispatched
  {
    r := l;
    if r.owner.None? {
      r := r.(owner := Some(id));
    }
    if r.owner == Some(id) && path !in r.dispatched {
      r := r.(dispatched := r.dispatched + [path], sources := r.sources + [id]);
    }
  }

  /** Those promises leave one loop: the one the transition function gives. */
  lemma {:induction false} TakenIs(l: Loop, id: nat, path: string, r: Loop)
    requires r.owner.Some? && (l.owner.Some? ==> r.owner == l.owner) && (l.owner.None? ==> r.owner == Some(id))
    requires path in r.dispatched <==> path in l.dispatched || r.owner == Some(id)
    requires l.dispatched <= r.dispatched <= l.dispatched + [path] && l.sources <= r.sources <= l.sources + [id]
    requires |r.sources| - |l.sources| == |r.dispatched| - |l.dispatched|
    requires r == l.(owner := r.owner, dispatched := r.dispatched, sources := r.sources)
    requires path in l.dispatched ==> r.dispatched == l.dispatched
    ensures r == OnOrder(l, id, path)
  {
    PrefixOfSnoc(l.dispatched, path, r.dispatched);
    PrefixOfSnoc(l.sources, id, r.sources);
  }

  lemma {:induction false} PrefixOfSnoc<T>(a: seq<T>, x: T, r: seq<T>)
    requires a <= r <= a + [x]
    ensures r == a || r == a + [x]
  {
    assert |r| == |a| ==> r == a;
    assert |r| == |a| + 1 ==> r == a + [x];
  }

  /** The end of a stream ends the loop: its own plan is out, or it owned one, or it was the last of all. */
  predicate Stops(l: Loop, id: nat, outcome: Outcome, out: seq<string>) {
    || (outcome.Finished? && (l.owner.None? || l.owner == Some(id)) && out != [])
    || l.owner == Some(id)
    || (l.live == 1 && l.started >= STREAMS)
  }

  /** Otherwise a twin starts when nobody owns the plan, a stream is left, and fewer than two are still live. */
  function Twins(l: Loop, id: nat, outcome: Outcome, out: seq<string>): nat {
    if !Stops(l, id, outcome, out) && l.owner.None? && l.started < STREAMS && l.live <= 2 then 1 else 0
  }

  /** Exactly the paths that are not out yet go out, each once. */
  lemma {:induction false} Leftovers(l: Loop, id: nat, paths: seq<string>)
    ensures var r := Dispatched(l, id, paths);
            && (forall p :: p in r.dispatched <==> p in l.dispatched || p in paths)
            && l.dispatched <= r.dispatched && (Distinct(l.dispatched) ==> Distinct(r.dispatched))
            && (AllFrom(l.sources, id) ==> AllFrom(r.sources, id))
    decreases |paths|
  {
    if paths != [] {
      Seqs.Uncons(paths);
      if paths[0] in l.dispatched {
        Leftovers(l, id, paths[1..]);
      } else {
        Leftovers(l.(dispatched := l.dispatched + [paths[0]], sources := l.sources + [id]), id, paths[1..]);
      }
    }
  }

  /** What the end of a stream does: whose files go out, whether the loop goes on, and whether a twin starts. */
  lemma {:induction false} DoneMeans(l: Loop, id: nat, outcome: Outcome, r: Loop)
    requires r == OnDone(l, id, outcome)
    ensures var mine := outcome.Finished? && (l.owner.None? || l.owner == Some(id));
            && (forall p :: p in r.dispatched <==> p in l.dispatched || (mine && p in outcome.paths))
            && l.dispatched <= r.dispatched && (Distinct(l.dispatched) ==> Distinct(r.dispatched))
            && (AllFrom(l.sources, id) ==> AllFrom(r.sources, id)) && (!mine ==> r.sources == l.sources)
    ensures r.owner == l.owner && r.pos == l.pos && r.running == (l.running && !Stops(l, id, outcome, r.dispatched))
    ensures r.started == l.started + Twins(l, id, outcome, r.dispatched) && r.live == l.live - 1 + Twins(l, id, outcome, r.dispatched)
  {
    if outcome.Finished? {
      Leftovers(l.(live := l.live - 1), id, outcome.paths);
    }
  }

  /** A stream ends: what its plan left out goes out, and the loop stops, goes on, or starts a twin. */
  method TakeDone(l: Loop, id: nat, outcome: Outcome) returns (r: Loop)
    ensures r == OnDone(l, id, outcome)
  {
    r := l.(live := l.live - 1);
    if outcome.Finished? && (r.owner.None? || r.owner == Some(id)) {
      var before := r;
      var i := 0;
      while i < |outcome.paths|
        invariant 0 <= i <= |outcome.paths|
        invariant Dispatched(r, id, outcome.paths[i..]) == Dispatched(before, id, outcome.paths)
      {
        assert outcome.paths[i..][1..] == outcome.paths[i + 1..];
        if outcome.paths[i] !in r.dispatched {
          r := r.(dispatched := r.dispatched + [outcome.paths[i]], sources := r.sources + [id]);
        }
        i := i + 1;
      }
      if r.dispatched != [] {
        r := r.(running := false);
        return;
      }
    }
    if r.owner == Some(id) || (r.live == 0 && r.started >= STREAMS) {
      r := r.(running := false);
    } else if r.owner.None? && r.started < STREAMS && r.live < 2 {
      r := r.(started := r.started + 1, live := r.live + 1);
    }
  }

  /** The event loop, with what the streams send and when the wait times out as inputs. */
  method Dispatch(scripts: seq<Script>, schedule: seq<Event>) returns (l: Loop)
    requires |scripts| == STREAMS
    ensures l == Run(Begin(), scripts, schedule)
  {
    l := Begin();
    var n := 0;
    while n < |schedule|
      invariant 0 <= n <= |schedule| && |l.pos| == STREAMS
      invariant Run(l, scripts, schedule[n..]) == Run(Begin(), scripts, schedule)
    {
      assert schedule[n..][0] == schedule[n] && schedule[n..][1..] == schedule[n + 1..];
      var e := schedule[n];
      if Enabled(l, scripts, e) {
        if e.Timeout? {
          l := l.(started := l.started + 1, live := l.live + 1);
        } else {
          var at := l.pos[e.id];
          l := l.(pos := l.pos[e.id := at + 1]);
          if at < |scripts[e.id].orders| {
            ghost var before := l;
            l := TakeOrder(l, e.id, scripts[e.id].orders[at]);
            TakenIs(before, e.id, scripts[e.id].orders[at], l);
          } else {
            l := TakeDone(l, e.id, scripts[e.id].outcome);
          }
        }
      }
      n := n + 1;
    }
    assert schedule[n..] == [];
  }

  // ---- what every interleaving keeps -----------------------------------------------

  function LiveAt(l: Loop, scripts: seq<Script>, id: nat): nat
    requires |scripts| == STREAMS == |l.pos| && id < STREAMS
  {
    if id < l.started && l.pos[id] <= |scripts[id].orders| then 1 else 0
  }

  predicate AllFrom(sources: seq<nat>, id: nat) {
    forall i :: 0 <= i < |sources| ==> sources[i] == id
  }

  /** `live` counts the started streams that have not ended, and what has not started has sent nothing. */
  ghost predicate Counted(l: Loop, scripts: seq<Script>)
    requires |scripts| == STREAMS
  {
    && 1 <= l.started <= STREAMS && |l.pos| == STREAMS && |l.sources| == |l.dispatched|
    && (forall id :: 0 <= id < STREAMS ==> l.pos[id] <= if id < l.started then |scripts[id].orders| + 1 else 0)
    && l.live == LiveAt(l, scripts, 0) + LiveAt(l, scripts, 1) + LiveAt(l, scripts, 2)
  }

  /** A stream that orders nothing and whose plan, if it finishes one, has no file in it. */
  predicate Empty(s: Script) {
    s.orders == [] && (s.outcome.Finished? ==> s.outcome.paths == [])
  }

  /** While the loop runs the owner is still streaming and exactly its orders so far are out. */
  ghost predicate Owned(l: Loop, scripts: seq<Script>)
    requires |scripts| == STREAMS == |l.pos|
  {
    match l.owner
    case None => l.dispatched == [] && forall id :: 0 <= id < STREAMS && l.pos[id] > 0 ==> Empty(scripts[id])
    case Some(o) =>
      && o < l.started && o < STREAMS && AllFrom(l.sources, o)
      && 0 < l.pos[o] <= |scripts[o].orders| && l.dispatched == scripts[o].orders[..l.pos[o]]
  }

  ghost predicate Invariant(l: Loop, scripts: seq<Script>)
    requires |scripts| == STREAMS
  {
    && Counted(l, scripts)
    && (l.running ==> Owned(l, scripts) && l.live >= 1)
    && (!l.running ==> Ended(l, scripts))
  }

  /** How the loop ends: one stream's plan is out, each path once, or nothing is and every stream was tried. */
  ghost predicate Ended(l: Loop, scripts: seq<Script>)
    requires |scripts| == STREAMS == |l.pos|
  {
    if l.dispatched == [] then Exhausted(l, scripts)
    else exists id :: 0 <= id < l.started <= STREAMS && PlanOut(l, scripts, id)
  }

  /** All streams were started and have ended, and none of them had anything to order. */
  ghost predicate Exhausted(l: Loop, scripts: seq<Script>)
    requires |scripts| == STREAMS == |l.pos|
  {
    && l.started == STREAMS && l.live == 0
    && forall id :: 0 <= id < STREAMS ==> l.pos[id] == |scripts[id].orders| + 1 && Empty(scripts[id])
  }

  ghost predicate PlanOut(l: Loop, scripts: seq<Script>, id: nat)
    requires |scripts| == STREAMS && id < STREAMS
  {
    && AllFrom(l.sources, id)
    && l.dispatched == (if scripts[id].outcome.Finished? then scripts[id].outcome.paths else scripts[id].orders)
  }

  /** What is not out yet goes out, in order. */
  lemma {:induction false} DispatchRest(l: Loop, id: nat, paths: seq<string>, out: nat)
    requires out <= |paths| && l.dispatched == paths[..out] && Distinct(paths)
    requires |l.sources| == |l.dispatched| && AllFrom(l.sources, id)
    ensures var r := Dispatched(l, id, paths[out..]);
            r.dispatched == paths && |r.sources| == |paths| && AllFrom(r.sources, id)
    decreases |paths| - out
  {
    if out == |paths| {
      assert paths[..out] == paths;
    } else {
      var next := l.(dispatched := l.dispatched + [paths[out]], sources := l.sources + [id]);
      assert paths[out..][1..] == paths[out + 1..];
      assert paths[..out] + [paths[out]] == paths[..out + 1];
      DispatchRest(next, id, paths, out + 1);
    }
  }

  lemma {:induction false} SkipsWhatIsOut(l: Loop, id: nat, paths: seq<string>, n: nat)
    requires n <= |paths| && forall i :: 0 <= i < n ==> paths[i] in l.dispatched
    ensures Dispatched(l, id, paths) == Dispatched(l, id, paths[n..])
    decreases n
  {
    if n > 0 {
      SkipsWhatIsOut(l, id, paths[1..], n - 1);
      assert paths[1..][n - 1..] == paths[n..];
    }
  }

  lemma {:induction false} LeftoversComplete(l: Loop, id: nat, paths: seq<string>, out: nat)
    requires out <= |paths| && l.dispatched == paths[..out] && Distinct(paths)
    requires |l.sources| == |l.dispatched| && AllFrom(l.sources, id)
    ensures var r := Dispatched(l, id, paths);
            r.dispatched == paths && |r.sources| == |paths| && AllFrom(r.sources, id)
  {
    assert forall i :: 0 <= i < out ==> paths[i] == l.dispatched[i];
    SkipsWhatIsOut(l, id, paths, out);
    DispatchRest(l, id, paths, out);
  }

  lemma {:induction false} OrderKeeps(l: Loop, scripts: seq<Script>, id: nat)
    requires AllFromOnePlan(scripts) && Invariant(l, scripts)
    requires Enabled(l, scripts, Arrives(id)) && l.pos[id] < |scripts[id].orders|
    ensures Invariant(Step(l, scripts, Arrives(id)), scripts)
  {
    var at := l.pos[id];
    var next := l.(pos := l.pos[id := at + 1]);
    var r := OnOrder(next, id, scripts[id].orders[at]);
    OrderCounted(l, scripts, id);
    assert Owned(r, scripts) by {
      assert FromOnePlan(scripts[id]);
      OrderOwned(l, scripts, id);
    }
  }

  lemma {:induction false} OrderCounted(l: Loop, scripts: seq<Script>, id: nat)
    requires |scripts| == STREAMS && Counted(l, scripts) && id < l.started && l.pos[id] < |scripts[id].orders|
    ensures Counted(OnOrder(l.(pos := l.pos[id := l.pos[id] + 1]), id, scripts[id].orders[l.pos[id]]), scripts)
  {
    var next := l.(pos := l.pos[id := l.pos[id] + 1]);
    assert Counted(next, scripts) by {
      assert forall j :: 0 <= j < STREAMS ==> LiveAt(next, scripts, j) == LiveAt(l, scripts, j);
    }
    OnOrderCounted(next, scripts, id, scripts[id].orders[l.pos[id]]);
  }

  lemma {:induction false} OnOrderCounted(l: Loop, scripts: seq<Script>, id: nat, path: string)
    requires |scripts| == STREAMS && Counted(l, scripts)
    ensures Counted(OnOrder(l, id, path), scripts)
  {
  }

  lemma {:induction false} OrderOwned(l: Loop, scripts: seq<Script>, id: nat)
    requires |scripts| == STREAMS == |l.pos| && Owned(l, scripts) && |l.sources| == |l.dispatched|
    requires id < l.started && id < STREAMS
    requires l.pos[id] < |scripts[id].orders| && Distinct(scripts[id].orders)
    ensures Owned(OnOrder(l.(pos := l.pos[id := l.pos[id] + 1]), id, scripts[id].orders[l.pos[id]]), scripts)
  {
    var at := l.pos[id];
    var orders := scripts[id].orders;
    assert orders[..at + 1] == orders[..at] + [orders[at]];
    assert orders[at] !in orders[..at];
    if l.owner.None? {
      assert at == 0;
    }
  }

  lemma {:induction false} DoneKeeps(l: Loop, scripts: seq<Script>, id: nat)
    requires AllFromOnePlan(scripts) && Invariant(l, scripts)
    requires Enabled(l, scripts, Arrives(id)) && l.pos[id] == |scripts[id].orders|
    ensures Invariant(Step(l, scripts, Arrives(id)), scripts)
  {
    DoneCounted(l, scripts, id);
    if l.owner.None? || l.owner == Some(id) {
      OwnDoneKeeps(l, scripts, id);
    } else {
      var next := l.(pos := l.pos[id := |scripts[id].orders| + 1]);
      OwnerStillLive(next.(live := l.live - 1), scripts, l.owner.value);
      assert Owned(next.(live := l.live - 1), scripts);
    }
  }

  lemma {:induction false} OwnDoneKeeps(l: Loop, scripts: seq<Script>, id: nat)
    requires AllFromOnePlan(scripts) && Invariant(l, scripts) && l.running && (l.owner.None? || l.owner == Some(id))
    requires id < l.started && l.pos[id] == |scripts[id].orders|
    requires var next := l.(pos := l.pos[id := |scripts[id].orders| + 1]); Counted(OnDone(next, id, scripts[id].outcome), scripts)
    ensures var next := l.(pos := l.pos[id := |scripts[id].orders| + 1]); Invariant(OnDone(next, id, scripts[id].outcome), scripts)
  {
    var orders := scripts[id].orders;
    var next := l.(pos := l.pos[id := |orders| + 1]);
    var r := OnDone(next, id, scripts[id].outcome);
    assert FromOnePlan(scripts[id]);
    assert orders[..|orders|] == orders;
    DoneDispatches(next, scripts, id);
    assert forall j :: 0 <= j < STREAMS && r.pos[j] > 0 ==> j == id || l.pos[j] > 0;
    if r.running {
      assert Owned(r, scripts);
    } else if r.dispatched == [] {
      AllEnded(r, scripts);
    }
  }

  lemma {:induction false} AllEnded(l: Loop, scripts: seq<Script>)
    requires |scripts| == STREAMS && Counted(l, scripts) && l.started == STREAMS && l.live == 0
    ensures forall id :: 0 <= id < STREAMS ==> l.pos[id] == |scripts[id].orders| + 1
  {
    forall id | 0 <= id < STREAMS ensures l.pos[id] == |scripts[id].orders| + 1 {
      assert LiveAt(l, scripts, id) == 0;
    }
  }

  lemma {:induction false} DoneCounted(l: Loop, scripts: seq<Script>, id: nat)
    requires |scripts| == STREAMS && Counted(l, scripts) && id < l.started && l.pos[id] == |scripts[id].orders|
    ensures var next := l.(pos := l.pos[id := |scripts[id].orders| + 1]);
            && Counted(next.(live := l.live - 1), scripts)
            && Counted(OnDone(next, id, scripts[id].outcome), scripts)
  {
    var next := l.(pos := l.pos[id := |scripts[id].orders| + 1]);
    var down := next.(live := l.live - 1);
    assert Counted(down, scripts) by {
      assert forall j :: 0 <= j < STREAMS ==> LiveAt(down, scripts, j) == if j == id then 0 else LiveAt(l, scripts, j);
    }
    DoneFrom(down, next, scripts, id);
  }

  lemma {:induction false} DoneFrom(down: Loop, next: Loop, scripts: seq<Script>, id: nat)
    requires |scripts| == STREAMS && Counted(down, scripts) && id < STREAMS && next == down.(live := down.live + 1)
    ensures Counted(OnDone(next, id, scripts[id].outcome), scripts)
  {
    var outcome := scripts[id].outcome;
    var out := if outcome.Finished? then Dispatched(down, id, outcome.paths) else down;
    assert Counted(out, scripts) && Counted(out.(running := false), scripts) && Counted(down.(running := false), scripts);
    if out.started < STREAMS {
      SpawnCounted(out, scripts);
    }
    if down.started < STREAMS {
      SpawnCounted(down, scripts);
    }
    assert next.(live := next.live - 1) == down;
  }

  lemma {:induction false} SpawnCounted(l: Loop, scripts: seq<Script>)
    requires |scripts| == STREAMS && Counted(l, scripts) && l.started < STREAMS
    ensures Counted(Spawned(l), scripts)
  {
  }

  lemma {:induction false} OwnerStillLive(l: Loop, scripts: seq<Script>, o: nat)
    requires |scripts| == STREAMS && Counted(l, scripts) && o < l.started && l.pos[o] <= |scripts[o].orders|
    ensures l.live >= 1
  {
    assert LiveAt(l, scripts, o) == 1;
  }

  /** The end of the owner, or of any stream while there is none: what it left out goes out. */
  lemma {:induction false} DoneDispatches(next: Loop, scripts: seq<Script>, id: nat)
    requires |scripts| == STREAMS == |next.pos| && id < next.started <= STREAMS && FromOnePlan(scripts[id])
    requires next.owner.None? || next.owner == Some(id)
    requires next.owner.None? <==> scripts[id].orders == []
    requires next.running && next.dispatched == scripts[id].orders && |next.sources| == |next.dispatched| && AllFrom(next.sources, id)
    ensures var r := OnDone(next, id, scripts[id].outcome);
            && r.owner == next.owner && r.pos == next.pos
            && (r.running ==> next.owner.None? && r.dispatched == [] && |r.sources| == 0)
            && (r.dispatched == [] ==> next.owner.None? && Empty(scripts[id]))
            && (!r.running ==> if r.dispatched == [] then r.started >= STREAMS && r.live == 0 else PlanOut(r, scripts, id))
  {
    var outcome := scripts[id].outcome;
    var down := next.(live := next.live - 1);
    var r := OnDone(next, id, outcome);
    if outcome.Finished? {
      assert down.dispatched == outcome.paths[..|scripts[id].orders|];
      LeftoversComplete(down, id, outcome.paths, |scripts[id].orders|);
    }
  }

  lemma {:induction false} StepKeeps(l: Loop, scripts: seq<Script>, e: Event)
    requires AllFromOnePlan(scripts) && Invariant(l, scripts)
    ensures Invariant(Step(l, scripts, e), scripts)
    ensures Enabled(l, scripts, e) ==> Remaining(Step(l, scripts, e), scripts) < Remaining(l, scripts)
  {
    if Enabled(l, scripts, e) {
      StepShrinks(l, scripts, e);
      if e.Timeout? {
        SpawnCounted(l, scripts);
      } else if l.pos[e.id] < |scripts[e.id].orders| {
        OrderKeeps(l, scripts, e.id);
      } else {
        DoneKeeps(l, scripts, e.id);
      }
    }
  }

  predicate Twin(l: Loop, scripts: seq<Script>, e: Event)
    requires |scripts| == STREAMS == |l.pos|
  {
    && Enabled(l, scripts, e) && l.owner.None? && l.started < STREAMS
    && (e.Arrives? ==> l.pos[e.id] == |scripts[e.id].orders| && Empty(scripts[e.id]) && l.live <= 2)
  }

  /**
    Exactly when another stream starts: a wait timed out, or a stream ended that had nothing to order and
    fewer than two are live; and only while nobody owns the plan and a stream is left.
   */
  lemma {:induction false} TwinStartsIff(l: Loop, scripts: seq<Script>, e: Event)
    requires AllFromOnePlan(scripts) && Invariant(l, scripts)
    ensures Step(l, scripts, e).started == l.started + if Twin(l, scripts, e) then 1 else 0
  {
    if Enabled(l, scripts, e) && e.Arrives? && l.pos[e.id] == |scripts[e.id].orders| {
      TwinAtEnd(l.(pos := l.pos[e.id := l.pos[e.id] + 1]), e.id, scripts[e.id].outcome);
    }
  }

  lemma {:induction false} TwinAtEnd(l: Loop, id: nat, outcome: Outcome)
    requires l.owner.None? ==> l.dispatched == []
    ensures OnDone(l, id, outcome).started == l.started +
              if l.owner.None? && l.started < STREAMS && l.live <= 2 && (outcome.Finished? ==> outcome.paths == []) then 1 else 0
  {
    DoneMeans(l, id, outcome, OnDone(l, id, outcome));
    assert outcome.Finished? && outcome.paths != [] ==> outcome.paths[0] in outcome.paths;
  }

  lemma {:induction false} StepShrinks(l: Loop, scripts: seq<Script>, e: Event)
    requires |scripts| == STREAMS == |l.pos| && Enabled(l, scripts, e)
    ensures Remaining(Step(l, scripts, e), scripts) < Remaining(l, scripts)
  {
  }

  /** The events that can still arrive and the streams that can still start. */
  function Remaining(l: Loop, scripts: seq<Script>): int
    requires |scripts| == STREAMS == |l.pos|
  {
    (|scripts[0].orders| + 1 - l.pos[0]) + (|scripts[1].orders| + 1 - l.pos[1]) + (|scripts[2].orders| + 1 - l.pos[2])
    + STREAMS - l.started
  }

  /** The number of events of a schedule that the loop took. */
  function Taken(l: Loop, scripts: seq<Script>, schedule: seq<Event>): nat
    requires |scripts| == STREAMS == |l.pos|
    decreases |schedule|
  {
    if schedule == [] then 0
    else (if Enabled(l, scripts, schedule[0]) then 1 else 0) + Taken(Step(l, scripts, schedule[0]), scripts, schedule[1..])
  }

  lemma {:induction false} RunKeeps(l: Loop, scripts: seq<Script>, schedule: seq<Event>)
    requires AllFromOnePlan(scripts) && Invariant(l, scripts)
    ensures Invariant(Run(l, scripts, schedule), scripts)
    ensures Taken(l, scripts, schedule) + Remaining(Run(l, scripts, schedule), scripts) <= Remaining(l, scripts)
    decreases |schedule|
  {
    if schedule != [] {
      StepKeeps(l, scripts, schedule[0]);
      RunKeeps(Step(l, scripts, schedule[0]), scripts, schedule[1..]);
    }
  }

  /**
    In every interleaving of orders, ends and timeouts: at most three streams start, all clones come from
    one stream, no path goes out twice, the loop takes no more events than the streams send plus two
    timeouts, and while it runs some started stream has still to end, so it never waits for nothing; and it
    ends with nothing out only when all streams were tried and none had anything to order.
   */
  lemma {:induction false} EveryInterleaving(scripts: seq<Script>, schedule: seq<Event>)
    requires AllFromOnePlan(scripts)
    ensures var l := Run(Begin(), scripts, schedule);
            && l.started <= STREAMS
            && (exists id :: 0 <= id < STREAMS && AllFrom(l.sources, id))
            && Distinct(l.dispatched)
            && Taken(Begin(), scripts, schedule) <= |scripts[0].orders| + |scripts[1].orders| + |scripts[2].orders| + STREAMS + 2
            && (l.running ==> exists id :: 0 <= id < STREAMS && Enabled(l, scripts, Arrives(id)))
            && (!l.running ==> Ended(l, scripts))
  {
    BeginHolds(scripts);
    RunKeeps(Begin(), scripts, schedule);
    var l := Run(Begin(), scripts, schedule);
    assert FromOnePlan(scripts[0]) && FromOnePlan(scripts[1]) && FromOnePlan(scripts[2]);
    SomeSource(l, scripts);
    if l.running {
      StillLive(l, scripts);
    }
  }

  lemma {:induction false} BeginHolds(scripts: seq<Script>)
    requires |scripts| == STREAMS
    ensures Invariant(Begin(), scripts)
  {
    assert Owned(Begin(), scripts);
  }

  lemma {:induction false} SomeSource(l: Loop, scripts: seq<Script>)
    requires AllFromOnePlan(scripts) && Invariant(l, scripts)
    ensures (exists id :: 0 <= id < STREAMS && AllFrom(l.sources, id)) && Distinct(l.dispatched)
  {
    if l.running && l.owner.Some? {
      assert FromOnePlan(scripts[l.owner.value]);
      assert AllFrom(l.sources, l.owner.value);
    } else if l.dispatched == [] {
      assert AllFrom(l.sources, 0);
    } else {
      var id :| 0 <= id < l.started <= STREAMS && PlanOut(l, scripts, id);
      assert FromOnePlan(scripts[id]);
    }
  }

  lemma {:induction false} StillLive(l: Loop, scripts: seq<Script>)
    requires |scripts| == STREAMS && Invariant(l, scripts) && l.running
    ensures exists id :: 0 <= id < STREAMS && Enabled(l, scripts, Arrives(id))
  {
    var id := if LiveAt(l, scripts, 0) == 1 then 0 else if LiveAt(l, scripts, 1) == 1 then 1 else 2;
    assert Enabled(l, scripts, Arrives(id));
  }

  /** A stream's text as it arrives in pieces, and whether the call breaks off after them. */
  datatype Source = Source(pieces: seq<string>, breaks: bool)

  function Streamed(pieces: seq<string>, ctx: PlanParser.Context): seq<string> {
    PlanParser.Paths(FedAll(Stream("", 0, []), pieces, ctx).emitted)
  }

  function Planned(text: string, ctx: PlanParser.Context): seq<string> {
    PlanParser.Paths(PlanParser.Orders(text, ctx, true))
  }

  function ScriptOf(src: Source, ctx: PlanParser.Context): Script {
    Script(Streamed(src.pieces, ctx), if src.breaks then Broken else Finished(Planned(Joined(src.pieces), ctx)))
  }

  /** `out` is the finished plan's files; or, of a plan that broke off, all it had streamed, the first files of every plan it could have become. */
  ghost predicate OutOf(src: Source, ctx: PlanParser.Context, out: seq<string>) {
    if src.breaks then out == Streamed(src.pieces, ctx) && forall rest :: out <= Planned(Joined(src.pieces) + rest, ctx)
    else out == Planned(Joined(src.pieces), ctx)
  }

  lemma {:induction false} BrokenIsPrefix(pieces: seq<string>, rest: string, ctx: PlanParser.Context)
    ensures Streamed(pieces, ctx) <= Planned(Joined(pieces) + rest, ctx)
  {
    assert "" + Joined(pieces) == Joined(pieces);
    SentArePrefix(Stream("", 0, []), pieces, Joined(pieces) + rest, ctx);
  }

  /**
    Parser and dispatcher together: however the texts of three streams are cut into pieces, whichever of
    them break off and whichever way their events interleave, when the loop ends the clones that are out
    are, in order and each once, the files of one finished plan, or those a broken one had ordered so far;
    none are out only when all three streams ended without an order.
   */
  lemma {:induction false} EveryOrderedFileOnce(srcs: seq<Source>, ctx: PlanParser.Context, schedule: seq<Event>)
    requires |srcs| == STREAMS
    ensures var scripts := seq(STREAMS, i requires 0 <= i < STREAMS => ScriptOf(srcs[i], ctx));
            var l := Run(Begin(), scripts, schedule);
            !l.running ==>
              Distinct(l.dispatched) &&
              if l.dispatched == [] then l.started == STREAMS && forall id :: 0 <= id < STREAMS ==> OutOf(srcs[id], ctx, [])
              else exists id :: 0 <= id < STREAMS && OutOf(srcs[id], ctx, l.dispatched)
  {
    var scripts := seq(STREAMS, i requires 0 <= i < STREAMS => ScriptOf(srcs[i], ctx));
    forall id | 0 <= id < STREAMS ensures FromOnePlan(scripts[id]) {
      StreamAgreesWithBatch(srcs[id].pieces, ctx);
    }
    EveryInterleaving(scripts, schedule);
    var l := Run(Begin(), scripts, schedule);
    if !l.running && l.dispatched == [] {
      forall id | 0 <= id < STREAMS ensures OutOf(srcs[id], ctx, []) {
        assert scripts[id] == ScriptOf(srcs[id], ctx) && Empty(scripts[id]);
      }
    }
    if !l.running && l.dispatched != [] {
      var id :| 0 <= id < l.started <= STREAMS && PlanOut(l, scripts, id);
      assert scripts[id] == ScriptOf(srcs[id], ctx);
      if srcs[id].breaks {
        forall rest ensures l.dispatched <= Planned(Joined(srcs[id].pieces) + rest, ctx) {
          BrokenIsPrefix(srcs[id].pieces, rest, ctx);
        }
      }
    }
  }
}
