/** A plan read while it streams in agrees with the plan read at the end. */
module PlanStream {
  import opened Transcript
  import opened PlanParser

  // ---- reading a prefix ------------------------------------------------------------

  lemma {:induction false} NoRoomToOpen(text: string, i: nat)
    requires i + |OPEN| > |text|
    ensures StartsFrom(text, i) == []
    decreases |text| - i
  {
    if i < |text| {
      NoRoomToOpen(text, i + 1);
    }
  }

  lemma {:induction false} StartsOfPrefix(p: string, f: string, i: nat)
    requires p <= f
    ensures StartsFrom(p, i) <= StartsFrom(f, i)
    ensures forall k :: |StartsFrom(p, i)| <= k < |StartsFrom(f, i)| ==> StartsFrom(f, i)[k] + |OPEN| > |p|
    decreases |p| - i
  {
    if i + |OPEN| > |p| {
      NoRoomToOpen(p, i);
    } else {
      assert p[i..i + |OPEN|] == f[i..i + |OPEN|];
      StartsOfPrefix(p, f, if OpensAt(p, i) then i + |OPEN| else i + 1);
    }
  }

  lemma {:induction false} NewlineOfPrefix(p: string, f: string, i: nat)
    requires p <= f && i <= |p|
    ensures NewlineFrom(p, i) < |p| ==> NewlineFrom(f, i) == NewlineFrom(p, i)
    ensures NewlineFrom(f, i) < |p| ==> NewlineFrom(f, i) == NewlineFrom(p, i)
    decreases |p| - i
  {
    if i < |p| && p[i] != '\n' {
      NewlineOfPrefix(p, f, i + 1);
    }
  }

  /** A block that is finished in a prefix has the same header in the whole text, and is finished there at the end. */
  lemma {:induction false} BlockOfPrefix(p: string, f: string, o: nat, next: Option<nat>, next': Option<nat>)
    requires p <= f && BlockAt(p, o, next, false).Some? && (next'.Some? ==> next'.value <= |f|)
    ensures BlockAt(f, o, next', true).Some?
    ensures BlockAt(f, o, next', true).value.pieces == BlockAt(p, o, next, false).value.pieces
  {
    assert p[o..o + |OPEN|] == f[o..o + |OPEN|];
    NewlineOfPrefix(p, f, o + |OPEN|);
    var nl := HeaderEnd(p, o);
    assert p[o + |OPEN|..nl] == f[o + |OPEN|..nl];
  }

  /** `a` and then more, with the same headers. */
  ghost predicate HeadersPrefix(a: seq<Block>, b: seq<Block>) {
    |a| <= |b| && forall k :: 0 <= k < |a| ==> a[k].pieces == b[k].pieces
  }

  /** Whatever the first reader finishes, the second finishes with the same header. */
  ghost predicate Follows(starts: seq<nat>, at: Reader, starts': seq<nat>, at': Reader) {
    starts <= starts' &&
    forall k :: 0 <= k < |starts| && at(starts[k], NextOf(starts, k)).Some? ==>
      && at'(starts'[k], NextOf(starts', k)).Some?
      && at'(starts'[k], NextOf(starts', k)).value.pieces == at(starts[k], NextOf(starts, k)).value.pieces
  }

  lemma {:induction false} BlocksFollow(starts: seq<nat>, at: Reader, starts': seq<nat>, at': Reader, k: nat)
    requires Follows(starts, at, starts', at') && k <= |starts|
    ensures HeadersPrefix(BlocksFrom(starts, k, at), BlocksFrom(starts', k, at'))
    decreases |starts| - k
  {
    if k < |starts| && at(starts[k], NextOf(starts, k)).Some? {
      BlocksFollow(starts, at, starts', at', k + 1);
    }
  }

  lemma {:induction false} BlocksOfPrefix(p: string, f: string)
    requires p <= f
    ensures HeadersPrefix(Blocks(p, false), Blocks(f, true))
  {
    StartsOfPrefix(p, f, 0);
    var starts, starts' := Starts(p), Starts(f);
    var at, at' := ReaderOf(p, false), ReaderOf(f, true);
    forall k | 0 <= k < |starts| && at(starts[k], NextOf(starts, k)).Some?
      ensures at'(starts'[k], NextOf(starts', k)).Some?
      ensures at'(starts'[k], NextOf(starts', k)).value.pieces == at(starts[k], NextOf(starts, k)).value.pieces
    {
      NextIsInText(f, k);
      BlockOfPrefix(p, f, starts[k], NextOf(starts, k), NextOf(starts', k));
    }
    BlocksFollow(starts, at, starts', at', 0);
  }

  lemma {:induction false} NextIsInText(text: string, k: nat)
    ensures var next := NextOf(Starts(text), k); next.Some? ==> OpensAt(text, next.value)
  {
  }

  // ---- the paths a plan orders -----------------------------------------------------

  function AddPaths(out: seq<string>, pieces: seq<string>, ctx: Context): seq<string>
    decreases |pieces|
  {
    if pieces == [] then out
    else
      var p := PathOf(pieces[0], ctx);
      AddPaths(if p.Some? && p.value !in out then out + [p.value] else out, pieces[1..], ctx)
  }

  function PathsOf(blocks: seq<Block>, ctx: Context, out: seq<string>): seq<string>
    decreases |blocks|
  {
    if blocks == [] then out else PathsOf(blocks[1..], ctx, AddPaths(out, blocks[0].pieces, ctx))
  }

  predicate Distinct(s: seq<string>) {
    forall i, j :: 0 <= i < j < |s| ==> s[i] != s[j]
  }

  lemma {:induction false} AddOrdersPaths(out: seq<Order>, pieces: seq<string>, ctx: Context, body: string, plan: string)
    ensures Paths(AddOrders(out, pieces, ctx, body, plan)) == AddPaths(Paths(out), pieces, ctx)
    decreases |pieces|
  {
    if pieces != [] {
      var p := PathOf(pieces[0], ctx);
      var next := if p.Some? && p.value !in Paths(out) then out + [Order(p.value, body, plan)] else out;
      assert p.Some? && p.value !in Paths(out) ==> Paths(next) == Paths(out) + [p.value];
      AddOrdersPaths(next, pieces[1..], ctx, body, plan);
    }
  }

  lemma {:induction false} AddPathsExtends(out: seq<string>, pieces: seq<string>, ctx: Context)
    ensures out <= AddPaths(out, pieces, ctx)
    ensures Distinct(out) ==> Distinct(AddPaths(out, pieces, ctx))
    decreases |pieces|
  {
    if pieces != [] {
      var p := PathOf(pieces[0], ctx);
      AddPathsExtends(if p.Some? && p.value !in out then out + [p.value] else out, pieces[1..], ctx);
    }
  }

  lemma {:induction false} OrdersOfPaths(blocks: seq<Block>, ctx: Context, out: seq<Order>)
    ensures Paths(OrdersOf(blocks, ctx, out)) == PathsOf(blocks, ctx, Paths(out))
    decreases |blocks|
  {
    if blocks != [] {
      var b := blocks[0];
      AddOrdersPaths(out, b.pieces, ctx, b.body, b.plan);
      OrdersOfPaths(blocks[1..], ctx, AddOrders(out, b.pieces, ctx, b.body, b.plan));
    }
  }

  /** More blocks with the same headers first order the same paths first. */
  lemma {:induction false} PathsOfPrefix(a: seq<Block>, b: seq<Block>, ctx: Context, out: seq<string>)
    requires HeadersPrefix(a, b) && Distinct(out)
    ensures PathsOf(a, ctx, out) <= PathsOf(b, ctx, out)
    ensures out <= PathsOf(b, ctx, out) && Distinct(PathsOf(b, ctx, out))
    decreases |b|
  {
    if b != [] {
      AddPathsExtends(out, b[0].pieces, ctx);
      if a == [] {
        PathsOfPrefix(a, b[1..], ctx, AddPaths(out, b[0].pieces, ctx));
      } else {
        assert a[0].pieces == b[0].pieces;
        assert HeadersPrefix(a[1..], b[1..]);
        PathsOfPrefix(a[1..], b[1..], ctx, AddPaths(out, b[0].pieces, ctx));
      }
    }
  }

  /**
    What has streamed in orders a prefix of what the whole text orders, each path once, even where a
    partial line only looks like a close marker.
   */
  lemma {:induction false} PrefixOrdersPrefix(p: string, f: string, ctx: Context)
    requires p <= f
    ensures Paths(Orders(p, ctx, false)) <= Paths(Orders(f, ctx, true))
    ensures Distinct(Paths(Orders(f, ctx, true)))
  {
    BlocksOfPrefix(p, f);
    OrdersOfPaths(Blocks(p, false), ctx, []);
    OrdersOfPaths(Blocks(f, true), ctx, []);
    PathsOfPrefix(Blocks(p, false), Blocks(f, true), ctx, []);
  }

  // ---- the sent cursor -------------------------------------------------------------

  /** What a streaming parent holds: the text so far, its cursor, and the orders it has sent. */
  datatype Stream = Stream(raw: string, sent: nat, emitted: seq<Order>)

  function Fed(s: Stream, piece: string, ctx: Context): Stream {
    var os := Orders(s.raw + piece, ctx, false);
    if s.sent < |os| then Stream(s.raw + piece, |os|, s.emitted + os[s.sent..]) else s.(raw := s.raw + piece)
  }

  function FedAll(s: Stream, pieces: seq<string>, ctx: Context): Stream
    decreases |pieces|
  {
    if pieces == [] then s else FedAll(Fed(s, pieces[0], ctx), pieces[1..], ctx)
  }

  function Joined(pieces: seq<string>): string {
    if pieces == [] then "" else pieces[0] + Joined(pieces[1..])
  }

  class PlanSender {
    const ctx: Context
    var raw: string
    var sent: nat
    /** The `Order` events on the channel, in order. */
    var emitted: seq<Order>

    constructor (ctx: Context)
      ensures this.ctx == ctx && Value() == Stream("", 0, [])
    {
      this.ctx := ctx;
      raw, sent, emitted := "", 0, [];
    }

    function Value(): Stream
      reads this
    {
      Stream(raw, sent, emitted)
    }

    /** One streamed piece of text: every block that is now complete is sent, from the cursor on. */
    method Sink(piece: string)
      modifies this
      ensures Value() == Fed(old(Value()), piece, ctx)
    {
      raw := raw + piece;
      var text, cursor, log := raw, sent, emitted;
      var os := ComputeOrders(text, ctx, false);
      var from := if cursor < |os| then cursor else |os|;
      for i := from to |os|
        invariant raw == text && sent == cursor + i - from && emitted == log + os[from..i]
      {
        GrowSlice(log, os, from, i);
        emitted := emitted + [os[i]];
        sent := sent + 1;
      }
    }
  }

  lemma {:induction false} GrowSlice<T>(log: seq<T>, os: seq<T>, from: nat, i: nat)
    requires from <= i < |os|
    ensures log + os[from..i] + [os[i]] == log + os[from..i + 1]
  {
  }

  lemma {:induction false} SentArePrefix(s: Stream, pieces: seq<string>, f: string, ctx: Context)
    requires s.raw + Joined(pieces) <= f
    requires s.sent == |s.emitted| && Paths(s.emitted) <= Paths(Orders(f, ctx, true))
    ensures var e := FedAll(s, pieces, ctx);
            && e.raw == s.raw + Joined(pieces)
            && e.sent == |e.emitted| && Paths(e.emitted) <= Paths(Orders(f, ctx, true))
    decreases |pieces|
  {
    if pieces != [] {
      var raw := s.raw + pieces[0];
      assert raw + Joined(pieces[1..]) == s.raw + Joined(pieces);
      PrefixOrdersPrefix(raw, f, ctx);
      var os := Orders(raw, ctx, false);
      var next := Fed(s, pieces[0], ctx);
      if s.sent < |os| {
        SpliceOrders(s.emitted, os, Paths(Orders(f, ctx, true)));
      }
      SentArePrefix(next, pieces[1..], f, ctx);
    }
  }

  lemma {:induction false} SpliceOrders(a: seq<Order>, b: seq<Order>, all: seq<string>)
    requires Paths(a) <= all && Paths(b) <= all && |a| < |b|
    ensures Paths(a + b[|a|..]) <= all
  {
    var c := a + b[|a|..];
    forall i | 0 <= i < |c| ensures Paths(c)[i] == all[i] {
      if i >= |a| {
        assert c[i] == b[i];
      }
      assert Paths(b)[i] == all[i];
      assert i < |a| ==> Paths(a)[i] == all[i];
    }
  }

  /** However the text is cut into pieces, the paths sent are a duplicate-free prefix of the finished plan's. */
  lemma {:induction false} StreamAgreesWithBatch(pieces: seq<string>, ctx: Context)
    ensures var e := FedAll(Stream("", 0, []), pieces, ctx);
            var all := Paths(Orders(Joined(pieces), ctx, true));
            Paths(e.emitted) <= all && Distinct(all) && Distinct(Paths(e.emitted))
  {
    var f := Joined(pieces);
    assert "" + f == f;
    SentArePrefix(Stream("", 0, []), pieces, f, ctx);
    PrefixOrdersPrefix(f, f, ctx);
    var e := FedAll(Stream("", 0, []), pieces, ctx);
    assert forall i :: 0 <= i < |e.emitted| ==> Paths(e.emitted)[i] == Paths(Orders(f, ctx, true))[i];
  }

  /** The text that has streamed after `k` pieces. */
  function After(pieces: seq<string>, k: nat): string
    requires k <= |pieces|
  {
    Joined(pieces[..k])
  }

  /** How many orders are finished in a text that streams. */
  function FinishedIn(ctx: Context): string -> nat {
    (text: string) => |Orders(text, ctx, false)|
  }

  /** What `f` says after each piece. */
  function Counts(raw: string, pieces: seq<string>, f: string -> nat): (r: seq<nat>)
    ensures |r| == |pieces|
    decreases |pieces|
  {
    if pieces == [] then [] else [f(raw + pieces[0])] + Counts(raw + pieces[0], pieces[1..], f)
  }

  lemma {:induction false} CountAt(raw: string, pieces: seq<string>, f: string -> nat, j: nat)
    requires 1 <= j <= |pieces|
    ensures Counts(raw, pieces, f)[j - 1] == f(raw + After(pieces, j))
    decreases j
  {
    OneMorePiece(raw, pieces, j);
    if j == 1 {
      Seqs.Empty(raw + pieces[0]);
    } else {
      CountAt(raw + pieces[0], pieces[1..], f, j - 1);
    }
  }

  /** The largest of `from` and these counts. */
  function Largest(from: nat, counts: seq<nat>): nat
    decreases |counts|
  {
    if counts == [] then from else Largest(if from < counts[0] then counts[0] else from, counts[1..])
  }

  lemma {:induction false} LargestIs(from: nat, counts: seq<nat>) returns (k: nat)
    ensures k <= |counts| && Largest(from, counts) == if k == 0 then from else counts[k - 1]
    ensures from <= Largest(from, counts) && forall j :: 0 <= j < |counts| ==> counts[j] <= Largest(from, counts)
    decreases |counts|
  {
    k := 0;
    if counts != [] {
      var n := LargestIs(if from < counts[0] then counts[0] else from, counts[1..]);
      k := if n > 0 then n + 1 else if from < counts[0] then 1 else 0;
      assert forall j :: 1 <= j < |counts| ==> counts[j] == counts[1..][j - 1];
    }
  }

  lemma {:induction false} SentIsLargest(s: Stream, pieces: seq<string>, ctx: Context)
    ensures FedAll(s, pieces, ctx).sent == Largest(s.sent, Counts(s.raw, pieces, FinishedIn(ctx)))
    decreases |pieces|
  {
    if pieces != [] {
      SentIsLargest(Fed(s, pieces[0], ctx), pieces[1..], ctx);
      var counts := Counts(s.raw, pieces, FinishedIn(ctx));
      assert counts[1..] == Counts(s.raw + pieces[0], pieces[1..], FinishedIn(ctx));
    }
  }

  lemma {:induction false} OneMorePiece(raw: string, pieces: seq<string>, j: nat)
    requires 1 <= j <= |pieces|
    ensures raw + After(pieces, j) == raw + pieces[0] + After(pieces[1..], j - 1)
  {
    assert pieces[..j][0] == pieces[0] && pieces[..j][1..] == pieces[1..][..j - 1];
    Seqs.Assoc(raw, pieces[0], Joined(pieces[1..][..j - 1]));
  }

  /** The first `k` pieces are the beginning of the text. */
  lemma {:induction false} AfterIsPrefix(pieces: seq<string>, k: nat)
    requires k <= |pieces|
    ensures After(pieces, k) <= Joined(pieces)
    decreases k
  {
    if k > 0 {
      var rest := Joined(pieces[1..]);
      OneMorePiece("", pieces, k);
      AfterIsPrefix(pieces[1..], k - 1);
      PrefixBehind(pieces[0], After(pieces[1..], k - 1), rest);
    }
  }

  lemma {:induction false} PrefixBehind(a: string, b: string, c: string)
    requires b <= c
    ensures "" + a + b == a + b <= a + c
  {
  }

  /** What was finished after one of the pieces is the beginning of what was sent. */
  lemma {:induction false} FinishedIsSent(pieces: seq<string>, sent: seq<string>, j: nat, ctx: Context)
    requires j <= |pieces| && sent <= Paths(Orders(Joined(pieces), ctx, true)) && FinishedIn(ctx)(After(pieces, j)) <= |sent|
    ensures Paths(Orders(After(pieces, j), ctx, false)) <= sent
    ensures FinishedIn(ctx)(After(pieces, j)) == |sent| ==> Paths(Orders(After(pieces, j), ctx, false)) == sent
  {
    AfterIsPrefix(pieces, j);
    PrefixOrdersPrefix(After(pieces, j), Joined(pieces), ctx);
    Shorter(Paths(Orders(After(pieces, j), ctx, false)), sent, Paths(Orders(Joined(pieces), ctx, true)));
  }

  /**
    Every order that was finished after some piece has been sent, in its place; and nothing else has: as many
    were sent as were finished at once after some piece, or none.
   */
  lemma {:induction false} SentOnceFinished(pieces: seq<string>, ctx: Context) returns (k: nat)
    ensures var sent := Paths(FedAll(Stream("", 0, []), pieces, ctx).emitted);
            && (forall j :: 1 <= j <= |pieces| ==> Paths(Orders(After(pieces, j), ctx, false)) <= sent)
            && k <= |pieces| && sent == if k == 0 then [] else Paths(Orders(After(pieces, k), ctx, false))
  {
    var begin, f := Stream("", 0, []), FinishedIn(ctx);
    var e := FedAll(begin, pieces, ctx);
    SentIsLargest(begin, pieces, ctx);
    k := LargestIs(0, Counts("", pieces, f));
    Seqs.Empty(Joined(pieces));
    SentArePrefix(begin, pieces, Joined(pieces), ctx);
    forall j | 1 <= j <= |pieces| ensures Paths(Orders(After(pieces, j), ctx, false)) <= Paths(e.emitted) {
      Seqs.Empty(After(pieces, j));
      CountAt("", pieces, f, j);
      FinishedIsSent(pieces, Paths(e.emitted), j, ctx);
    }
    if k > 0 {
      Seqs.Empty(After(pieces, k));
      CountAt("", pieces, f, k);
      FinishedIsSent(pieces, Paths(e.emitted), k, ctx);
    }
  }

  lemma {:induction false} Shorter(a: seq<string>, b: seq<string>, all: seq<string>)
    requires a <= all && b <= all && |a| <= |b|
    ensures a <= b && (|a| == |b| ==> a == b)
  {
    assert a == all[..|a|] && b == all[..|b|];
    assert b[..|a|] == all[..|a|];
  }
}
