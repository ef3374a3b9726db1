/** What a written plan orders: from the text of its blocks to the orders read out of it. */
module PlanText {
  import opened Transcript
  import opened PlanParser
  import opened PlanStream
  import opened PlanSettled
  import opened PlanPaths
  import Seqs

  // ---- the lines that close a block ------------------------------------------------

  /** One of the three close markers, alone on its line. */
  ghost predicate Closes(line: string) {
    exists a, m, b :: MarkerBetween(line, a, m, b)
  }

  ghost predicate MarkerBetween(line: string, a: string, m: string, b: string) {
    line == a + m + b && Blanks(a) && Blanks(b) && (m == "ORDER>>>" || m == "ORDER" || m == ">>>")
  }

  predicate Blanks(s: string) {
    forall i :: 0 <= i < |s| ==> s[i] == ' ' || s[i] == '\t'
  }

  lemma {:induction false} MarkerIs(line: string)
    ensures IsMarker(line) <==> Closes(line)
  {
    if a, m, b :| MarkerBetween(line, a, m, b) {
      TrimOf(a, m, b, IsBlank);
    }
    if IsMarker(line) {
      var a, b := TrimMeans(line, IsBlank);
      assert MarkerBetween(line, a, Trim(line, IsBlank), b);
    }
  }

  lemma {:induction false} MarkerIsOneLine(line: string)
    requires Closes(line)
    ensures '\n' !in line && '<' !in line && line != []
  {
    var a, m, b :| MarkerBetween(line, a, m, b);
    assert forall i :: 0 <= i < |line| ==> line[i] in a || line[i] in m || line[i] in b;
  }

  /** None of these lines closes a block. */
  ghost predicate NoneCloses(lines: seq<string>) {
    forall i :: 0 <= i < |lines| ==> !Closes(lines[i])
  }

  predicate WholeLines(s: string) {
    s == [] || s[|s| - 1] == '\n'
  }

  lemma {:induction false} NewlineIs(text: string, i: nat, e: nat)
    requires i <= e <= |text| && '\n' !in text[i..e] && (e < |text| ==> text[e] == '\n')
    ensures NewlineFrom(text, i) == e
    decreases e - i
  {
    if i < e {
      assert text[i..e][0] == text[i] && text[i..e][1..] == text[i + 1..e];
      NewlineIs(text, i + 1, e);
    }
  }

  /** Whole lines that do not close the block are passed over. */
  lemma {:induction false} SkipLines(text: string, i: nat, e: nat)
    requires i <= e <= |text| && WholeLines(text[i..e]) && NoneCloses(Split(text[i..e], '\n'))
    ensures FindClose(text, i) == FindClose(text, e)
    decreases e - i
  {
    if i < e {
      var n := FirstPassed(text, i, e);
      SkipLines(text, n + 1, e);
    }
  }

  lemma {:induction false} FirstPassed(text: string, i: nat, e: nat) returns (n: nat)
    requires i < e <= |text| && WholeLines(text[i..e]) && NoneCloses(Split(text[i..e], '\n'))
    ensures i <= n < e && FindClose(text, i) == FindClose(text, n + 1)
    ensures WholeLines(text[n + 1..e]) && NoneCloses(Split(text[n + 1..e], '\n'))
  {
    n := NewlineFrom(text, i);
    LineEndsWithin(text, i, e);
    FirstLine(text, i, n, e);
    MarkerIs(text[i..n]);
  }

  lemma {:induction false} LineEndsWithin(text: string, i: nat, e: nat)
    requires i < e <= |text| && text[i..e][e - i - 1] == '\n'
    ensures NewlineFrom(text, i) < e
  {
    var n := NewlineFrom(text, i);
    assert text[e - 1] == '\n';
    forall k | i <= k < n ensures text[k] != '\n' {
      assert text[i..n][k - i] == text[k];
    }
  }

  lemma {:induction false} FirstLine(text: string, i: nat, n: nat, e: nat)
    requires i <= n < e <= |text| && '\n' !in text[i..n] && text[n] == '\n' && NoneCloses(Split(text[i..e], '\n'))
    ensures !Closes(text[i..n]) && NoneCloses(Split(text[n + 1..e], '\n'))
    ensures WholeLines(text[i..e]) ==> WholeLines(text[n + 1..e])
  {
    assert text[i..e] == text[i..n] + ['\n'] + text[n + 1..e];
    SplitFirst(text[i..n], text[n + 1..e], '\n');
    var rest := Split(text[n + 1..e], '\n');
    var lines := [text[i..n]] + rest;
    assert lines[0] == text[i..n] && forall k :: 0 <= k < |rest| ==> lines[k + 1] == rest[k];
  }

  /** To the end of the text no line closes the block. */
  lemma {:induction false} NoClose(text: string, i: nat)
    requires i <= |text| && NoneCloses(Split(text[i..], '\n'))
    ensures FindClose(text, i) == None
    decreases |text| - i
  {
    var n := NewlineFrom(text, i);
    assert text[i..] == text[i..|text|];
    if n < |text| {
      FirstLine(text, i, n, |text|);
      MarkerIs(text[i..n]);
      assert text[n + 1..] == text[n + 1..|text|];
      NoClose(text, n + 1);
    } else {
      assert text[i..n] == text[i..];
      SplitPlain(text[i..], '\n');
      assert [text[i..]][0] == text[i..];
      MarkerIs(text[i..n]);
    }
  }

  /** Nor does one before the next OPEN, when the whole lines up to there do not. */
  lemma {:induction false} NoCloseBefore(text: string, i: nat, n: nat)
    requires i <= n && OpensAt(text, n) && NoneCloses(AllButLast(Split(text[i..n], '\n')))
    ensures !ClosesBefore(FindClose(text, i), n)
    decreases n - i
  {
    var e := NewlineFrom(text, i);
    if e < n {
      HeadPassed(text, i, e, n);
      NoCloseBefore(text, e + 1, n);
    } else {
      OpenInLine(text, i, n, e);
      if e < |text| {
        FoundFrom(text, e + 1);
      }
    }
  }

  lemma {:induction false} HeadPassed(text: string, i: nat, e: nat, n: nat)
    requires i <= e < n <= |text| && e == NewlineFrom(text, i) && NoneCloses(AllButLast(Split(text[i..n], '\n')))
    ensures FindClose(text, i) == FindClose(text, e + 1) && NoneCloses(AllButLast(Split(text[e + 1..n], '\n')))
  {
    HeadLine(text, i, e, n);
    MarkerIs(text[i..e]);
  }

  lemma {:induction false} OpenInLine(text: string, i: nat, n: nat, e: nat)
    requires i <= n && OpensAt(text, n) && e == NewlineFrom(text, i) >= n
    ensures n < e && !IsMarker(text[i..e])
  {
    assert text[n..n + |OPEN|][0] == text[n] == '<';
    assert text[i..e][n - i] == '<';
    if IsMarker(text[i..e]) {
      MarkerOpensNothing(text[i..e]);
    }
  }

  lemma {:induction false} FoundFrom(text: string, i: nat)
    requires i <= |text|
    ensures FindClose(text, i).Some? ==> FindClose(text, i).value.0 >= i
  {
  }

  function AllButLast(lines: seq<string>): seq<string>
    requires lines != []
  {
    lines[..|lines| - 1]
  }

  lemma {:induction false} HeadLine(text: string, i: nat, e: nat, n: nat)
    requires i <= e < n <= |text| && '\n' !in text[i..e] && text[e] == '\n' && NoneCloses(AllButLast(Split(text[i..n], '\n')))
    ensures !Closes(text[i..e]) && NoneCloses(AllButLast(Split(text[e + 1..n], '\n')))
  {
    assert text[i..n] == text[i..e] + ['\n'] + text[e + 1..n];
    SplitFirst(text[i..e], text[e + 1..n], '\n');
    var rest := Split(text[e + 1..n], '\n');
    var lines := AllButLast([text[i..e]] + rest);
    assert lines[0] == text[i..e] && forall k :: 0 <= k < |rest| - 1 ==> lines[k + 1] == AllButLast(rest)[k];
  }

  // ---- one block -------------------------------------------------------------------

  /** A text in which a block opens: what is before it, its header, its body, and what follows. */
  function Written(pre: string, header: string, body: string, after: string): string {
    pre + OPEN + header + "\n" + body + after
  }

  /** The block that opens at `o` has this header, up to `nl`, and behind it this body, up to `e`. */
  ghost predicate Holds(text: string, o: nat, nl: nat, e: nat, header: string, body: string) {
    && OpensAt(text, o) && o + |OPEN| <= nl < e <= |text| && HeaderEnd(text, o) == nl
    && text[o + |OPEN|..nl] == header && text[nl + 1..e] == body
  }

  lemma {:induction false} Layout(pre: string, header: string, body: string, after: string)
    requires '\n' !in header
    ensures var text, o := Written(pre, header, body, after), |pre|;
            var nl := o + |OPEN| + |header|;
            var e := nl + 1 + |body|;
            Holds(text, o, nl, e, header, body) && text[e..] == after && text[..e] == Written(pre, header, body, "")
  {
    var text, o := Written(pre, header, body, after), |pre|;
    var nl := o + |OPEN| + |header|;
    assert text[o..o + |OPEN|] == OPEN;
    assert text[o + |OPEN|..nl] == header;
    NewlineIs(text, o + |OPEN|, nl);
  }

  /** A block that ends there reads as this header, this body without the spaces around it, and the plan up to the cut. */
  lemma {:induction false} BlockWith(text: string, o: nat, nl: nat, e: nat, header: string, body: string, next: Option<nat>, done: bool, cut: nat)
    requires Holds(text, o, nl, e, header, body) && (next.Some? ==> next.value <= |text|)
    requires BlockEnd(text, nl, next, done) == Some((e, cut))
    ensures cut <= |text| && BlockAt(text, o, next, done) == Some(Block(Split(header, ','), Trim(body, IsSpace), text[..cut]))
  {
    BlockFromEnd(text, o, next, done, e, cut);
  }

  /** Behind the body comes a marker line, and `plan` is the text up to its end. */
  ghost predicate Marked(text: string, o: nat, nl: nat, e: nat, header: string, body: string, line: string, rest: string, plan: string) {
    && Holds(text, o, nl, e, header, body) && text[e..] == line + rest && plan == text[..e + |line|]
    && WholeLines(body) && NoneCloses(Split(body, '\n')) && Closes(line) && (rest == [] || rest[0] == '\n')
  }

  /** Closed by a marker line. */
  lemma {:induction false} MarkedAt(
      text: string, o: nat, nl: nat, e: nat, header: string, body: string, line: string, rest: string, plan: string, next: Option<nat>, done: bool)
    requires Marked(text, o, nl, e, header, body, line, rest, plan) && (next.Some? ==> e < next.value <= |text|)
    ensures BlockAt(text, o, next, done) == Some(Block(Split(header, ','), Trim(body, IsSpace), plan))
  {
    MarkedEnd(text, o, nl, e, header, body, line, rest, plan, next, done);
    BlockWith(text, o, nl, e, header, body, next, done, e + |line|);
  }

  lemma {:induction false} MarkedEnd(
      text: string, o: nat, nl: nat, e: nat, header: string, body: string, line: string, rest: string, plan: string, next: Option<nat>, done: bool)
    requires Marked(text, o, nl, e, header, body, line, rest, plan) && (next.Some? ==> e < next.value <= |text|)
    ensures e + |line| <= |text| && BlockEnd(text, nl, next, done) == Some((e, e + |line|))
  {
    SkipLines(text, nl + 1, e);
    MarkerFound(text, e, line, rest);
  }

  lemma {:induction false} MarkerFound(text: string, e: nat, line: string, rest: string)
    requires e <= |text| && text[e..] == line + rest && Closes(line) && (rest == [] || rest[0] == '\n')
    ensures FindClose(text, e) == Some((e, e + |line|))
  {
    MarkerIsOneLine(line);
    MarkerIs(line);
    assert text[e..e + |line|] == text[e..][..|line|] == line;
    assert e + |line| < |text| ==> text[e + |line|] == text[e..][|line|] == rest[0];
    NewlineIs(text, e, e + |line|);
  }

  /** Closed by the next OPEN. */
  lemma {:induction false} EndsAtOpen(text: string, o: nat, nl: nat, e: nat, header: string, body: string, done: bool)
    requires Holds(text, o, nl, e, header, body) && OpensAt(text, e) && NoneCloses(AllButLast(Split(body, '\n')))
    ensures BlockAt(text, o, Some(e), done) == Some(Block(Split(header, ','), Trim(body, IsSpace), text[..e]))
  {
    NoCloseBefore(text, nl + 1, e);
    BlockWith(text, o, nl, e, header, body, Some(e), done, e);
  }

  /** Not closed: finished with the text, and while it streams not at all. */
  lemma {:induction false} EndsWithText(text: string, o: nat, nl: nat, header: string, body: string, done: bool)
    requires Holds(text, o, nl, |text|, header, body) && NoneCloses(Split(body, '\n'))
    ensures BlockAt(text, o, None, done) == if done then Some(Block(Split(header, ','), Trim(body, IsSpace), text)) else None
  {
    assert text[nl + 1..] == text[nl + 1..|text|] == body;
    NoClose(text, nl + 1);
    if done {
      BlockWith(text, o, nl, |text|, header, body, None, true, |text|);
      assert text[..|text|] == text;
    }
  }

  lemma {:induction false} MarkedLayout(pre: string, header: string, body: string, line: string, rest: string)
    requires '\n' !in header && WholeLines(body) && NoneCloses(Split(body, '\n')) && Closes(line) && (rest == [] || rest[0] == '\n')
    ensures var nl := |pre| + |OPEN| + |header|;
            Marked(Written(pre, header, body, line + rest), |pre|, nl, nl + 1 + |body|, header, body, line, rest, Written(pre, header, body, line))
  {
    Layout(pre, header, body, line + rest);
    Seqs.Assoc(pre + OPEN + header + "\n" + body, line, rest);
  }

  lemma {:induction false} MarkedBlock(pre: string, header: string, body: string, line: string, rest: string, next: Option<nat>, done: bool)
    requires '\n' !in header && WholeLines(body) && NoneCloses(Split(body, '\n')) && Closes(line) && (rest == [] || rest[0] == '\n')
    requires next.Some? ==> |pre| + |OPEN| + |header| + 1 + |body| < next.value <= |Written(pre, header, body, line + rest)|
    ensures BlockAt(Written(pre, header, body, line + rest), |pre|, next, done) ==
              Some(Block(Split(header, ','), Trim(body, IsSpace), Written(pre, header, body, line)))
  {
    var nl := |pre| + |OPEN| + |header|;
    MarkedLayout(pre, header, body, line, rest);
    MarkedAt(Written(pre, header, body, line + rest), |pre|, nl, nl + 1 + |body|, header, body, line, rest,
             Written(pre, header, body, line), next, done);
  }

  lemma {:induction false} BlockBeforeOpen(pre: string, header: string, body: string, after: string, done: bool)
    requires '\n' !in header && OPEN <= after && NoneCloses(AllButLast(Split(body, '\n')))
    ensures BlockAt(Written(pre, header, body, after), |pre|, Some(|Written(pre, header, body, "")|), done) ==
              Some(Block(Split(header, ','), Trim(body, IsSpace), Written(pre, header, body, "")))
  {
    var text, nl := Written(pre, header, body, after), |pre| + |OPEN| + |header|;
    var e := nl + 1 + |body|;
    Layout(pre, header, body, after);
    assert text[e..e + |OPEN|] == text[e..][..|OPEN|] == OPEN;
    EndsAtOpen(text, |pre|, nl, e, header, body, done);
  }

  lemma {:induction false} OpenBlock(pre: string, header: string, body: string, done: bool)
    requires '\n' !in header && NoneCloses(Split(body, '\n'))
    ensures var text := Written(pre, header, body, "");
            BlockAt(text, |pre|, None, done) == if done then Some(Block(Split(header, ','), Trim(body, IsSpace), text)) else None
  {
    Layout(pre, header, body, "");
    EndsWithText(Written(pre, header, body, ""), |pre|, |pre| + |OPEN| + |header|, header, body, done);
  }

  // ---- where blocks open -----------------------------------------------------------

  lemma {:induction false} NoOverlap(text: string, i: nat, j: nat)
    requires OpensAt(text, i) && i < j < i + |OPEN|
    ensures !OpensAt(text, j)
  {
    OpenChars(text, i);
    if OpensAt(text, j) {
      OpenChars(text, j);
    }
  }

  lemma {:induction false} OpenChars(text: string, i: nat)
    requires OpensAt(text, i)
    ensures text[i] == '<' && text[i + 1] == '<' && text[i + 2] == '<' && text[i + 3] == 'O' && text[i + 4] == 'R'
    ensures text[i + 5] == 'D' && text[i + 6] == 'E' && text[i + 7] == 'R'
  {
    var s := text[i..i + |OPEN|];
    assert s[0] == text[i] && s[1] == text[i + 1] && s[2] == text[i + 2] && s[3] == text[i + 3];
    assert s[4] == text[i + 4] && s[5] == text[i + 5] && s[6] == text[i + 6] && s[7] == text[i + 7];
  }

  /** The starts are exactly the places where OPEN stands, in ascending order. */
  lemma {:induction false} StartsAre(text: string, i: nat)
    ensures var r := StartsFrom(text, i);
            && (forall j: nat :: j in r <==> j >= i && OpensAt(text, j))
            && forall a, b :: 0 <= a < b < |r| ==> r[a] < r[b]
    decreases |text| - i
  {
    if i < |text| {
      if OpensAt(text, i) {
        StartsAre(text, i + |OPEN|);
        forall j: nat | i < j < i + |OPEN| ensures !OpensAt(text, j) {
          NoOverlap(text, i, j);
        }
      } else {
        StartsAre(text, i + 1);
      }
    }
  }

  /** OPEN stands here and nowhere else. */
  predicate OpensOnlyAt(text: string, o: nat) {
    OpensAt(text, o) && forall i :: 0 <= i <= |text| && i != o ==> !OpensAt(text, i)
  }

  lemma {:induction false} JustOne(starts: seq<nat>, o: nat)
    requires o in starts && (forall k :: 0 <= k < |starts| ==> starts[k] == o)
    requires forall a, b :: 0 <= a < b < |starts| ==> starts[a] < starts[b]
    ensures starts == [o]
  {
    var first, last := starts[0], starts[|starts| - 1];
  }

  lemma {:induction false} OneBlock(text: string, o: nat, done: bool)
    requires OpensOnlyAt(text, o)
    ensures var b := BlockAt(text, o, None, done); Blocks(text, done) == if b.Some? then [b.value] else []
  {
    var starts := Starts(text);
    StartsAre(text, 0);
    assert o in starts;
    assert forall k :: 0 <= k < |starts| ==> starts[k] in starts && starts[k] == o;
    JustOne(starts, o);
    assert BlocksFrom(starts, 1, ReaderOf(text, done)) == [];
  }

  // ---- the orders of a header ------------------------------------------------------

  /** One order for each of these files. */
  function Listed(files: seq<string>, body: string, plan: string): (r: seq<Order>)
    ensures |r| == |files| && forall i :: 0 <= i < |r| ==> r[i] == Order(files[i], body, plan)
  {
    seq(|files|, i requires 0 <= i < |files| => Order(files[i], body, plan))
  }

  /** The acceptable ones among some files. */
  ghost function Acceptables(files: seq<string>, word: char -> bool): seq<string> {
    if files == [] then []
    else (if Acceptable(files[0], word) then [files[0]] else []) + Acceptables(files[1..], word)
  }

  /** The pieces of a header name these files. */
  ghost predicate HeaderNames(pieces: seq<string>, files: seq<string>, ctx: Context) {
    |pieces| == |files| && forall i :: 0 <= i < |pieces| ==> PieceNames(pieces[i], files[i], ctx)
  }

  ghost predicate PieceNames(piece: string, file: string, ctx: Context) {
    exists p :: Writes(piece, p) && Plainly(p) && StandsFor(ctx.files, p, file)
  }

  /** A header orders the acceptable files it names, in order, each with the block's body and plan. */
  lemma {:induction false} HeaderOrders(out: seq<Order>, pieces: seq<string>, files: seq<string>, ctx: Context, body: string, plan: string)
    requires WordClass(ctx.word) && HeaderNames(pieces, files, ctx) && Distinct(files)
    requires forall f :: f in files ==> f !in Paths(out)
    ensures AddOrders(out, pieces, ctx, body, plan) == out + Listed(Acceptables(files, ctx.word), body, plan)
    decreases |pieces|
  {
    if pieces == [] {
      assert out + Listed([], body, plan) == out;
    } else {
      FirstPiece(pieces[0], files[0], ctx);
      RestNames(pieces, files, ctx);
      var rest := Acceptables(files[1..], ctx.word);
      assert files[0] in files;
      if Acceptable(files[0], ctx.word) {
        var more := Order(files[0], body, plan);
        FreshFiles(out, more, files);
        HeaderOrders(out + [more], pieces[1..], files[1..], ctx, body, plan);
        OneMoreListed(out, files[0], rest, body, plan);
      } else {
        HeaderOrders(out, pieces[1..], files[1..], ctx, body, plan);
        Seqs.Empty(rest);
      }
    }
  }

  lemma {:induction false} FirstPiece(piece: string, file: string, ctx: Context)
    requires WordClass(ctx.word) && PieceNames(piece, file, ctx)
    ensures PathOf(piece, ctx) == if Acceptable(file, ctx.word) then Some(file) else None
  {
    var p :| Writes(piece, p) && Plainly(p) && StandsFor(ctx.files, p, file);
    PieceOrders(piece, p, file, ctx);
  }

  lemma {:induction false} OneMoreListed(out: seq<Order>, file: string, rest: seq<string>, body: string, plan: string)
    ensures out + [Order(file, body, plan)] + Listed(rest, body, plan) == out + Listed([file] + rest, body, plan)
  {
  }

  lemma {:induction false} RestNames(pieces: seq<string>, files: seq<string>, ctx: Context)
    requires pieces != [] && HeaderNames(pieces, files, ctx) && Distinct(files)
    ensures HeaderNames(pieces[1..], files[1..], ctx) && Distinct(files[1..]) && files[0] !in files[1..]
    ensures forall f :: f in files[1..] ==> f in files
  {
    forall i | 0 <= i < |pieces[1..]| ensures PieceNames(pieces[1..][i], files[1..][i], ctx) {
      assert PieceNames(pieces[i + 1], files[i + 1], ctx);
    }
  }

  lemma {:induction false} FreshFiles(out: seq<Order>, more: Order, files: seq<string>)
    requires files != [] && more.path == files[0] && files[0] !in files[1..]
    requires forall f :: f in files ==> f !in Paths(out)
    ensures forall f :: f in files[1..] ==> f !in Paths(out + [more])
  {
    assert Paths(out + [more]) == Paths(out) + [more.path];
  }

  // ---- written plans ---------------------------------------------------------------

  /** Pieces that can stand in one header line. */
  predicate InOneHeader(pieces: seq<string>) {
    pieces != [] && forall i :: 0 <= i < |pieces| ==> ',' !in pieces[i] && '\n' !in pieces[i]
  }

  lemma {:induction false} HeaderIs(pieces: seq<string>)
    requires InOneHeader(pieces)
    ensures Split(Join(pieces, ','), ',') == pieces && '\n' !in Join(pieces, ',')
  {
    SplitOfJoin(pieces, ',');
    var header := Join(pieces, ',');
    forall i | 0 <= i < |header| ensures header[i] != '\n' {
      JoinHas(pieces, ',', i);
    }
  }

  /**
    Round trip of a written block: whichever way its header writes the paths and whichever marker closes it,
    it orders the acceptable files among those they stand for, in order, with the body as written and the
    plan up to the marker; while the plan streams just as when it is finished.
   */
  lemma {:induction false} WrittenBlockOrders(
      pre: string, pieces: seq<string>, files: seq<string>, body: string, line: string, rest: string, ctx: Context, done: bool)
    requires WordClass(ctx.word) && InOneHeader(pieces) && HeaderNames(pieces, files, ctx) && Distinct(files)
    requires WholeLines(body) && NoneCloses(Split(body, '\n')) && Closes(line) && (rest == [] || rest[0] == '\n')
    requires OpensOnlyAt(Written(pre, Join(pieces, ','), body, line + rest), |pre|)
    ensures Orders(Written(pre, Join(pieces, ','), body, line + rest), ctx, done) ==
              Listed(Acceptables(files, ctx.word), Trim(body, IsSpace), Written(pre, Join(pieces, ','), body, line))
  {
    var text, header := Written(pre, Join(pieces, ','), body, line + rest), Join(pieces, ',');
    HeaderIs(pieces);
    MarkedBlock(pre, header, body, line, rest, None, done);
    OneBlock(text, |pre|, done);
    BlockOrders(text, pieces, files, Trim(body, IsSpace), Written(pre, header, body, line), ctx, done);
  }

  lemma {:induction false} BlockOrders(text: string, pieces: seq<string>, files: seq<string>, body: string, plan: string, ctx: Context, done: bool)
    requires WordClass(ctx.word) && HeaderNames(pieces, files, ctx) && Distinct(files)
    requires Blocks(text, done) == [Block(pieces, body, plan)]
    ensures Orders(text, ctx, done) == Listed(Acceptables(files, ctx.word), body, plan)
  {
    HeaderOrders([], pieces, files, ctx, body, plan);
    var b := Blocks(text, done);
    assert b[1..] == [] && [] + Listed(Acceptables(files, ctx.word), body, plan) == Listed(Acceptables(files, ctx.word), body, plan);
    assert OrdersOf(b, ctx, []) == OrdersOf(b[1..], ctx, AddOrders([], pieces, ctx, body, plan));
  }

  /** How models write the path in a header: bare, in quotes or angle brackets, behind "./". */
  ghost predicate Spells(piece: string, p: string) {
    exists q, dots, r :: Spelled(piece, q, dots, p, r)
  }

  ghost predicate Spelled(piece: string, q: string, dots: string, p: string, r: string) {
    && piece == " " + q + (dots + p) + r
    && (q == "" || q == "`" || q == "\"" || q == "<") && (dots == "" || dots == "./") && (r == "" || r == "`" || r == "\"" || r == ">")
  }

  lemma {:induction false} SpellingWrites(piece: string, p: string, word: char -> bool)
    requires WordClass(word) && Acceptable(p, word) && !("./" <= p) && Spells(piece, p)
    ensures Writes(piece, p) && Plainly(p) && InOneHeader([piece])
  {
    AcceptableIsPlain(p, word);
    SaneIsAcceptable(p, word);
    PathChars(p, word);
    var q, dots, r :| Spelled(piece, q, dots, p, r);
    Quotes(q);
    Quotes(r);
    MaybeDots(dots);
    Surrounded(q, dots, p, r);
    assert Dressed(piece, " ", q, dots, p, r, "");
  }

  lemma {:induction false} Quotes(q: string)
    requires q == "" || q == "`" || q == "\"" || q == "<" || q == ">"
    ensures All(q, IsQuote) && ',' !in q && '\n' !in q
  {
  }

  lemma {:induction false} MaybeDots(dots: string)
    requires dots == "" || dots == "./"
    ensures Dots(dots) && ',' !in dots && '\n' !in dots
  {
    assert dots != "" ==> dots[2..] == "";
  }

  lemma {:induction false} Surrounded(q: string, dots: string, p: string, r: string)
    requires forall s :: s in [q, dots, p, r] ==> ',' !in s && '\n' !in s
    ensures var piece := " " + q + (dots + p) + r; piece == piece + "" && ',' !in piece && '\n' !in piece
  {
  }

  lemma {:induction false} PathChars(p: string, word: char -> bool)
    requires WordClass(word) && Sane(p, word)
    ensures ',' !in p && '\n' !in p
  {
    forall i | 0 <= i < |p| ensures p[i] != ',' && p[i] != '\n' {
      NotDroppedAt(p, i, word);
    }
  }

  lemma {:induction false} NotDroppedAt(p: string, i: nat, word: char -> bool)
    requires WordClass(word) && Sane(p, word) && i < |p|
    ensures word(p[i]) || p[i] in ".-/"
  {
  }

  /** In particular: a path that may be ordered and that no tracked file extends, however it is spelled, gives one order for itself. */
  lemma {:induction false} OnePathOrders(
      pre: string, piece: string, p: string, body: string, line: string, rest: string, ctx: Context, done: bool)
    requires WordClass(ctx.word) && Acceptable(p, ctx.word) && !("./" <= p) && Spells(piece, p)
    requires forall f :: f in ctx.files ==> !Extends(f, p)
    requires WholeLines(body) && NoneCloses(Split(body, '\n')) && Closes(line) && (rest == [] || rest[0] == '\n')
    requires OpensOnlyAt(Written(pre, piece, body, line + rest), |pre|)
    ensures Orders(Written(pre, piece, body, line + rest), ctx, done) == [Order(p, Trim(body, IsSpace), Written(pre, piece, body, line))]
  {
    SpellingWrites(piece, p, ctx.word);
    OneHeader(piece, p, ctx);
    WrittenBlockOrders(pre, [piece], [p], body, line, rest, ctx, done);
  }

  lemma {:induction false} OneHeader(piece: string, p: string, ctx: Context)
    requires Writes(piece, p) && Plainly(p) && Acceptable(p, ctx.word) && forall f :: f in ctx.files ==> !Extends(f, p)
    ensures HeaderNames([piece], [p], ctx) && Join([piece], ',') == piece && Acceptables([p], ctx.word) == [p]
  {
    assert StandsFor(ctx.files, p, p);
    assert PieceNames(piece, p, ctx);
    assert [p][1..] == [];
  }

  /** A block that no marker closes orders its files when the plan is finished, and nothing before. */
  lemma {:induction false} UnclosedBlockOrders(pre: string, pieces: seq<string>, files: seq<string>, body: string, ctx: Context, done: bool)
    requires WordClass(ctx.word) && InOneHeader(pieces) && HeaderNames(pieces, files, ctx) && Distinct(files)
    requires NoneCloses(Split(body, '\n')) && OpensOnlyAt(Written(pre, Join(pieces, ','), body, ""), |pre|)
    ensures var text := Written(pre, Join(pieces, ','), body, "");
            Orders(text, ctx, done) == if done then Listed(Acceptables(files, ctx.word), Trim(body, IsSpace), text) else []
  {
    var text := Written(pre, Join(pieces, ','), body, "");
    HeaderIs(pieces);
    OpenBlock(pre, Join(pieces, ','), body, done);
    OneBlock(text, |pre|, done);
    if done {
      BlockOrders(text, pieces, files, Trim(body, IsSpace), text, ctx, true);
    }
  }

  // ---- any plan --------------------------------------------------------------------

  /** Some piece orders this file. */
  ghost predicate AnyOrders(pieces: seq<string>, ctx: Context, f: string) {
    exists i :: 0 <= i < |pieces| && PathOf(pieces[i], ctx) == Some(f)
  }

  lemma {:induction false} OrderedHead(pieces: seq<string>, ctx: Context)
    requires pieces != []
    ensures forall f :: AnyOrders(pieces, ctx, f) <==> PathOf(pieces[0], ctx) == Some(f) || AnyOrders(pieces[1..], ctx, f)
  {
    forall f ensures AnyOrders(pieces, ctx, f) <==> PathOf(pieces[0], ctx) == Some(f) || AnyOrders(pieces[1..], ctx, f) {
      if i :| 0 <= i < |pieces| && PathOf(pieces[i], ctx) == Some(f) {
        assert i > 0 ==> PathOf(pieces[1..][i - 1], ctx) == Some(f);
      }
      if i :| 0 <= i < |pieces[1..]| && PathOf(pieces[1..][i], ctx) == Some(f) {
        assert PathOf(pieces[i + 1], ctx) == Some(f);
      }
    }
  }

  /** A block adds one order for each file its header orders that had none, all with its body and plan. */
  ghost predicate Adds(out: seq<Order>, r: seq<Order>, pieces: seq<string>, ctx: Context, body: string, plan: string) {
    && out <= r
    && (forall f :: f in Paths(r) <==> f in Paths(out) || AnyOrders(pieces, ctx, f))
    && (forall n :: |out| <= n < |r| ==> r[n].path !in Paths(out) && r[n].body == body && r[n].plan == plan)
  }

  lemma {:induction false} AddedOrders(out: seq<Order>, pieces: seq<string>, ctx: Context, body: string, plan: string)
    ensures Adds(out, AddOrders(out, pieces, ctx, body, plan), pieces, ctx, body, plan)
    decreases |pieces|
  {
    if pieces != [] {
      var p := PathOf(pieces[0], ctx);
      var next := if p.Some? && p.value !in Paths(out) then out + [Order(p.value, body, plan)] else out;
      AddedOrders(next, pieces[1..], ctx, body, plan);
      AddsFirst(out, next, AddOrders(next, pieces[1..], ctx, body, plan), pieces, ctx, body, plan);
    }
  }

  lemma {:induction false} AddsFirst(out: seq<Order>, next: seq<Order>, r: seq<Order>, pieces: seq<string>, ctx: Context, body: string, plan: string)
    requires pieces != [] && Adds(next, r, pieces[1..], ctx, body, plan)
    requires var p := PathOf(pieces[0], ctx);
             next == if p.Some? && p.value !in Paths(out) then out + [Order(p.value, body, plan)] else out
    ensures Adds(out, r, pieces, ctx, body, plan)
  {
    OrderedHead(pieces, ctx);
    assert Paths(next) == Paths(out) + if |next| > |out| then [PathOf(pieces[0], ctx).value] else [];
    assert forall n :: |out| <= n < |next| ==> r[n] == next[n];
  }

  /** The order is that of the first of these blocks whose header orders its file. */
  ghost predicate FromFirst(blocks: seq<Block>, ctx: Context, o: Order) {
    exists k :: 0 <= k < |blocks| && FirstAt(blocks, ctx, o, k)
  }

  ghost predicate FirstAt(blocks: seq<Block>, ctx: Context, o: Order, k: nat) {
    && k < |blocks| && AnyOrders(blocks[k].pieces, ctx, o.path) && o.body == blocks[k].body && o.plan == blocks[k].plan
    && forall j :: 0 <= j < k ==> !AnyOrders(blocks[j].pieces, ctx, o.path)
  }

  /** What some blocks add to the orders there are: each file they order that had none, once, as its first block says. */
  ghost predicate AddsAll(out: seq<Order>, r: seq<Order>, blocks: seq<Block>, ctx: Context) {
    && out <= r
    && (forall f :: f in Paths(r) <==> f in Paths(out) || exists k :: 0 <= k < |blocks| && AnyOrders(blocks[k].pieces, ctx, f))
    && (forall n :: |out| <= n < |r| ==> r[n].path !in Paths(out) && FromFirst(blocks, ctx, r[n]))
  }

  lemma {:induction false} OrdersAdd(blocks: seq<Block>, ctx: Context, out: seq<Order>)
    ensures AddsAll(out, OrdersOf(blocks, ctx, out), blocks, ctx)
    decreases |blocks|
  {
    if blocks != [] {
      var b := blocks[0];
      var next := AddOrders(out, b.pieces, ctx, b.body, b.plan);
      AddedOrders(out, b.pieces, ctx, b.body, b.plan);
      OrdersAdd(blocks[1..], ctx, next);
      FirstBlockAdds(out, next, OrdersOf(blocks[1..], ctx, next), blocks, ctx);
    }
  }

  lemma {:induction false} FirstBlockAdds(out: seq<Order>, next: seq<Order>, r: seq<Order>, blocks: seq<Block>, ctx: Context)
    requires blocks != [] && Adds(out, next, blocks[0].pieces, ctx, blocks[0].body, blocks[0].plan)
    requires AddsAll(next, r, blocks[1..], ctx)
    ensures AddsAll(out, r, blocks, ctx)
  {
    forall f ensures f in Paths(r) <==> f in Paths(out) || exists k :: 0 <= k < |blocks| && AnyOrders(blocks[k].pieces, ctx, f) {
      if k :| 0 <= k < |blocks| && AnyOrders(blocks[k].pieces, ctx, f) {
        assert k > 0 ==> AnyOrders(blocks[1..][k - 1].pieces, ctx, f);
      }
      if k :| 0 <= k < |blocks[1..]| && AnyOrders(blocks[1..][k].pieces, ctx, f) {
        assert AnyOrders(blocks[k + 1].pieces, ctx, f);
      }
    }
    forall n | |out| <= n < |r| ensures r[n].path !in Paths(out) && FromFirst(blocks, ctx, r[n]) {
      if n < |next| {
        assert r[n] == next[n] && next[n].path == Paths(next)[n];
        assert FirstAt(blocks, ctx, r[n], 0);
      } else {
        LaterBlock(out, next, blocks, ctx, r[n]);
      }
    }
  }

  lemma {:induction false} LaterBlock(out: seq<Order>, next: seq<Order>, blocks: seq<Block>, ctx: Context, o: Order)
    requires blocks != [] && Adds(out, next, blocks[0].pieces, ctx, blocks[0].body, blocks[0].plan)
    requires o.path !in Paths(next) && FromFirst(blocks[1..], ctx, o)
    ensures o.path !in Paths(out) && FromFirst(blocks, ctx, o)
  {
    var k :| 0 <= k < |blocks[1..]| && FirstAt(blocks[1..], ctx, o, k);
    forall j | 0 <= j < k + 1 ensures !AnyOrders(blocks[j].pieces, ctx, o.path) {
      assert j > 0 ==> blocks[j] == blocks[1..][j - 1];
    }
    assert FirstAt(blocks, ctx, o, k + 1);
  }

  /**
    Exactly: a plan orders the files that the headers of its finished blocks order, each once, with the body
    and the plan of the first block that names it; and every one of them is an acceptable path.
   */
  lemma {:induction false} OrdersExactly(text: string, ctx: Context, done: bool)
    requires WordClass(ctx.word)
    ensures var os, blocks := Orders(text, ctx, done), Blocks(text, done);
            && (forall f :: f in Paths(os) <==> exists k :: 0 <= k < |blocks| && AnyOrders(blocks[k].pieces, ctx, f))
            && (forall n :: 0 <= n < |os| ==> FromFirst(blocks, ctx, os[n]) && Acceptable(os[n].path, ctx.word))
            && Distinct(Paths(os))
  {
    var os, blocks := Orders(text, ctx, done), Blocks(text, done);
    OrdersAdd(blocks, ctx, []);
    OrdersOfPaths(blocks, ctx, []);
    PathsOfPrefix(blocks, blocks, ctx, []);
    forall n | 0 <= n < |os| ensures FromFirst(blocks, ctx, os[n]) && Acceptable(os[n].path, ctx.word) {
      var k :| 0 <= k < |blocks| && FirstAt(blocks, ctx, os[n], k);
      var i :| 0 <= i < |blocks[k].pieces| && PathOf(blocks[k].pieces[i], ctx) == Some(os[n].path);
      PieceIsSafe(blocks[k].pieces[i], ctx);
    }
  }

  /** In a finished plan every OPEN whose header line has ended opens a block, and the blocks come in that order. */
  lemma {:induction false} EveryStartIsABlock(text: string, k: nat)
    requires k < |Starts(text)| && HeaderEnd(text, Starts(text)[k]) < |text|
    ensures k < |Blocks(text, true)|
    ensures var starts := Starts(text);
            BlockAt(text, starts[k], if k < |starts| - 1 then Some(starts[k + 1]) else None, true) == Some(Blocks(text, true)[k])
  {
    var starts, at := Starts(text), ReaderOf(text, true);
    StartsAre(text, 0);
    forall j | 0 <= j <= k ensures at(starts[j], NextOf(starts, j)).Some? {
      NextIsInText(text, j);
      EarlierHeaderEnds(text, starts[j], starts[k]);
    }
    ReadBlocks(starts, 0, at, k);
  }

  lemma {:induction false} EarlierHeaderEnds(text: string, o: nat, o': nat)
    requires OpensAt(text, o) && OpensAt(text, o') && o <= o' && HeaderEnd(text, o') < |text|
    ensures HeaderEnd(text, o) < |text|
  {
    var n := HeaderEnd(text, o);
    forall k | o + |OPEN| <= k < n ensures text[k] != '\n' {
      assert text[o + |OPEN|..n][k - (o + |OPEN|)] == text[k];
    }
  }

  lemma {:induction false} ReadBlocks(starts: seq<nat>, from: nat, at: Reader, k: nat)
    requires from <= k < |starts| && forall j :: from <= j <= k ==> at(starts[j], NextOf(starts, j)).Some?
    ensures var r := BlocksFrom(starts, from, at); k - from < |r| && at(starts[k], NextOf(starts, k)) == Some(r[k - from])
    decreases k - from
  {
    if from < k {
      ReadBlocks(starts, from + 1, at, k);
    }
  }
}
