/** The plan a parent writes: its ORDER blocks, read as a whole or while they stream in. */
module PlanParser {
  import opened Transcript
  import Seqs

  const OPEN := "<<<ORDER"

  // ---- header paths ----------------------------------------------------------------

  predicate IsSpace(c: char) {
    || c in " \t\n\r\U{0B}\U{0C}\U{85}\U{A0}\U{1680}\U{2028}\U{2029}\U{202F}\U{205F}\U{3000}"
    || '\U{2000}' <= c <= '\U{200A}'
  }

  predicate IsQuote(c: char) {
    c in "`:<>\"' "
  }

  function TrimStart(s: string, drop: char -> bool): string {
    if s != [] && drop(s[0]) then TrimStart(s[1..], drop) else s
  }

  function TrimEnd(s: string, drop: char -> bool): string {
    if s != [] && drop(s[|s| - 1]) then TrimEnd(s[..|s| - 1], drop) else s
  }

  function Trim(s: string, drop: char -> bool): string {
    TrimEnd(TrimStart(s, drop), drop)
  }

  function StripDotSlash(s: string): string {
    if "./" <= s then StripDotSlash(s[2..]) else s
  }

  function Split(s: string, sep: char): (r: seq<string>)
    ensures r != []
  {
    if s == [] then [""]
    else
      var rest := Split(s[1..], sep);
      if s[0] == sep then [""] + rest else [[s[0]] + rest[0]] + rest[1..]
  }

  /** The first tracked file that ends in `/path`, or the path itself. */
  function Tracked(files: seq<string>, path: string): string {
    if files == [] then path
    else if Seqs.EndsWith(files[0], "/" + path) then files[0]
    else Tracked(files[1..], path)
  }

  /** Slash-separated non-empty segments of word characters, dots and dashes, then a dot and a word. */
  predicate Sane(path: string, word: char -> bool) {
    exists d :: 0 < d < |path| - 1 && path[d] == '.' && "" !in Split(path[..d], '/')
      && (forall i :: d < i < |path| ==> word(path[i]))
      && (forall i :: 0 <= i < d ==> word(path[i]) || path[i] == '.' || path[i] == '-' || path[i] == '/')
  }

  /** What a parser needs beside the text: the tracked files and which characters make words. */
  datatype Context = Context(files: seq<string>, word: char -> bool)

  /** The path one header piece names, if it is an acceptable one. */
  function PathOf(piece: string, ctx: Context): Option<string> {
    var path := Tracked(ctx.files, StripDotSlash(Trim(Trim(piece, IsSpace), IsQuote)));
    if Sane(path, ctx.word) && ".." !in Split(path, '/') then Some(path) else None
  }

  // ---- blocks ----------------------------------------------------------------------

  predicate OpensAt(text: string, i: nat) {
    i + |OPEN| <= |text| && text[i..i + |OPEN|] == OPEN
  }

  /** The positions of OPEN from `i` on. */
  function StartsFrom(text: string, i: nat): (r: seq<nat>)
    ensures forall k :: 0 <= k < |r| ==> OpensAt(text, r[k]) && r[k] >= i
    decreases |text| - i
  {
    if i >= |text| then []
    else if OpensAt(text, i) then [i] + StartsFrom(text, i + |OPEN|)
    else StartsFrom(text, i + 1)
  }

  function Starts(text: string): seq<nat> {
    StartsFrom(text, 0)
  }

  /** The next newline at or after `i`, or the length of the text. */
  function NewlineFrom(text: string, i: nat): (r: nat)
    requires i <= |text|
    ensures i <= r <= |text| && '\n' !in text[i..r] && (r < |text| ==> text[r] == '\n')
    decreases |text| - i
  {
    if i == |text| || text[i] == '\n' then i else NewlineFrom(text, i + 1)
  }

  predicate IsBlank(c: char) {
    c == ' ' || c == '\t'
  }

  /** A line that closes a block, in any of the forms models write. */
  predicate IsMarker(line: string) {
    var l := Trim(line, IsBlank);
    l == "ORDER>>>" || l == "ORDER" || l == ">>>"
  }

  /** The first line that `mark` accepts, from the line that begins at `i` on: its begin and end. */
  function FindLine(text: string, i: nat, mark: string -> bool): (r: Option<(nat, nat)>)
    requires i <= |text|
    ensures r.Some? ==> i <= r.value.0 <= r.value.1 <= |text| && mark(text[r.value.0..r.value.1])
    ensures r.Some? ==> r.value.1 == NewlineFrom(text, r.value.0)
    decreases |text| - i
  {
    var end := NewlineFrom(text, i);
    if mark(text[i..end]) then Some((i, end))
    else if end < |text| then FindLine(text, end + 1, mark)
    else None
  }

  function FindClose(text: string, i: nat): Option<(nat, nat)>
    requires i <= |text|
  {
    FindLine(text, i, IsMarker)
  }

  /** A finished block: the pieces of its header, its body, and the plan as its clones see it. */
  datatype Block = Block(pieces: seq<string>, body: string, plan: string)

  /** Where the header line of the block that opens at `o` ends, or the length of the text while it has not. */
  function HeaderEnd(text: string, o: nat): (r: nat)
    requires OpensAt(text, o)
    ensures o + |OPEN| <= r <= |text|
  {
    NewlineFrom(text, o + |OPEN|)
  }

  /** Where a block ends and where the plan is cut, once that is known. */
  function BlockEnd(text: string, nl: nat, next: Option<nat>, done: bool): (r: Option<(nat, nat)>)
    requires nl < |text| && (next.Some? ==> next.value <= |text|)
    ensures r.Some? ==> r.value.0 <= |text| && r.value.1 <= |text|
  {
    var closed := FindClose(text, nl + 1);
    if next.Some? then
      if closed.Some? && closed.value.0 < next.value then closed else Some((next.value, next.value))
    else if closed.Some? then closed
    else if done then Some((|text|, |text|))
    else None
  }

  /** The block that opens at `o`, or nothing while its header or its end has not arrived. */
  function BlockAt(text: string, o: nat, next: Option<nat>, done: bool): Option<Block> {
    if !OpensAt(text, o) || (next.Some? && next.value > |text|) then None
    else
      var nl := HeaderEnd(text, o);
      if nl == |text| then None
      else
        var ends := BlockEnd(text, nl, next, done);
        if ends.None? then None
        else
          Some(CutBlock(text, o, nl, ends.value.0, ends.value.1))
  }

  /** The block that opens at `o`, with its header up to `nl` and its body up to `end`. */
  function CutBlock(text: string, o: nat, nl: nat, end: nat, cut: nat): Block
    requires o + |OPEN| <= nl <= |text| && end <= |text| && cut <= |text|
  {
    var from := if nl + 1 < end then nl + 1 else end;
    Block(Split(text[o + |OPEN|..nl], ','), Trim(text[from..end], IsSpace), text[..cut])
  }

  type Reader = (nat, Option<nat>) -> Option<Block>

  function NextOf(starts: seq<nat>, k: nat): Option<nat> {
    if k + 1 < |starts| then Some(starts[k + 1]) else None
  }

  /** The finished blocks from the `k`-th on, up to the first that is not finished. */
  function BlocksFrom(starts: seq<nat>, k: nat, at: Reader): seq<Block>
    requires k <= |starts|
    decreases |starts| - k
  {
    if k == |starts| || at(starts[k], NextOf(starts, k)).None? then []
    else [at(starts[k], NextOf(starts, k)).value] + BlocksFrom(starts, k + 1, at)
  }

  function ReaderOf(text: string, done: bool): Reader {
    (o: nat, next: Option<nat>) => BlockAt(text, o, next, done)
  }

  function Blocks(text: string, done: bool): seq<Block> {
    BlocksFrom(Starts(text), 0, ReaderOf(text, done))
  }

  // ---- orders ----------------------------------------------------------------------

  /** One order: the file, what to do, and the plan up to there. */
  datatype Order = Order(path: string, body: string, plan: string)

  function Paths(os: seq<Order>): (r: seq<string>)
    ensures |r| == |os| && forall i :: 0 <= i < |r| ==> r[i] == os[i].path
  {
    seq(|os|, i requires 0 <= i < |os| => os[i].path)
  }

  /** One order per acceptable header piece that no earlier order names. */
  function AddOrders(out: seq<Order>, pieces: seq<string>, ctx: Context, body: string, plan: string): seq<Order>
    decreases |pieces|
  {
    if pieces == [] then out
    else
      var p := PathOf(pieces[0], ctx);
      var next := if p.Some? && p.value !in Paths(out) then out + [Order(p.value, body, plan)] else out;
      AddOrders(next, pieces[1..], ctx, body, plan)
  }

  function OrdersOf(blocks: seq<Block>, ctx: Context, out: seq<Order>): seq<Order>
    decreases |blocks|
  {
    if blocks == [] then out
    else OrdersOf(blocks[1..], ctx, AddOrders(out, blocks[0].pieces, ctx, blocks[0].body, blocks[0].plan))
  }

  function Orders(text: string, ctx: Context, done: bool): seq<Order> {
    OrdersOf(Blocks(text, done), ctx, [])
  }

  method ComputeOrders(text: string, ctx: Context, done: bool) returns (out: seq<Order>)
    ensures out == Orders(text, ctx, done)
  {
    out := [];
    var starts := Starts(text);
    var at := ReaderOf(text, done);
    var k := 0;
    while k < |starts|
      invariant k <= |starts|
      invariant OrdersOf(BlocksFrom(starts, k, at), ctx, out) == Orders(text, ctx, done)
    {
      var b := at(starts[k], NextOf(starts, k));
      if b.None? {
        break;
      }
      assert BlocksFrom(starts, k, at)[1..] == BlocksFrom(starts, k + 1, at);
      out := AddBlock(out, b.value, ctx);
      k := k + 1;
    }
  }

  /** The inner loop: one order per header piece. */
  method AddBlock(before: seq<Order>, block: Block, ctx: Context) returns (out: seq<Order>)
    ensures out == AddOrders(before, block.pieces, ctx, block.body, block.plan)
  {
    out := before;
    var i := 0;
    while i < |block.pieces|
      invariant 0 <= i <= |block.pieces|
      invariant AddOrders(out, block.pieces[i..], ctx, block.body, block.plan)
             == AddOrders(before, block.pieces, ctx, block.body, block.plan)
    {
      assert block.pieces[i..][1..] == block.pieces[i + 1..];
      var path := PathOf(block.pieces[i], ctx);
      if path.Some? && path.value !in Paths(out) {
        out := out + [Order(path.value, block.body, block.plan)];
      }
      i := i + 1;
    }
  }
}
