/** When an order sent while streaming is, word for word, the order of the finished plan. */
module PlanSettled {
  import opened Transcript
  import opened PlanParser
  import opened PlanStream
  import Seqs

  // ---- marker lines ----------------------------------------------------------------

  lemma {:induction false} TrimStartKeeps(s: string, drop: char -> bool, c: char)
    requires c in s && !drop(c)
    ensures c in TrimStart(s, drop)
  {
    if s != [] && drop(s[0]) {
      TrimStartKeeps(s[1..], drop, c);
    }
  }

  lemma {:induction false} TrimEndKeeps(s: string, drop: char -> bool, c: char)
    requires c in s && !drop(c)
    ensures c in TrimEnd(s, drop)
  {
    if s != [] && drop(s[|s| - 1]) {
      TrimEndKeeps(s[..|s| - 1], drop, c);
    }
  }

  /** No block opens inside a marker line. */
  lemma {:induction false} MarkerOpensNothing(line: string)
    requires IsMarker(line)
    ensures '<' !in line
  {
    if '<' in line {
      TrimStartKeeps(line, IsBlank, '<');
      TrimEndKeeps(TrimStart(line, IsBlank), IsBlank, '<');
    }
  }

  /** A line that ends within the prefix is found in the prefix and in the whole text alike. */
  lemma {:induction false} LineAgrees(p: string, f: string, i: nat, mark: string -> bool)
    requires p <= f && i <= |p|
    ensures var a, b := FindLine(p, i, mark), FindLine(f, i, mark);
            (a.Some? && a.value.1 < |p|) || (b.Some? && b.value.1 < |p|) ==> a == b
    decreases |p| - i
  {
    var end := NewlineFrom(p, i);
    if end == |p| {
      LastLine(p, f, i, mark);
    } else {
      NewlineOfPrefix(p, f, i);
      Seqs.Prefix(p, f, i, end);
      if !mark(p[i..end]) {
        LineAgrees(p, f, end + 1, mark);
      }
    }
  }

  /** On the last line of the prefix nothing ends within it. */
  lemma {:induction false} LastLine(p: string, f: string, i: nat, mark: string -> bool)
    requires p <= f && i <= |p| && NewlineFrom(p, i) == |p|
    ensures FindLine(p, i, mark).Some? ==> FindLine(p, i, mark).value.1 == |p|
    ensures FindLine(f, i, mark).Some? ==> FindLine(f, i, mark).value.1 >= |p|
  {
    NewlineOfPrefix(p, f, i);
  }

  /** A marker line that begins before an OPEN also ends before it. */
  lemma {:induction false} CloseBeforeOpen(text: string, c: nat, e: nat, n: nat)
    requires c < n && c <= e <= |text| && OpensAt(text, n) && IsMarker(text[c..e])
    ensures e <= n
  {
    MarkerOpensNothing(text[c..e]);
    assert text[n..n + |OPEN|][0] == '<' == text[n];
    assert forall j :: c <= j < e ==> text[j] == text[c..e][j - c] && text[j] in text[c..e];
  }

  /** An OPEN that is not within the prefix begins after every line that ends within it. */
  lemma {:induction false} OpenAfterLine(f: string, e: nat, n: nat, size: nat)
    requires OpensAt(f, n) && e < size <= |f| && f[e] == '\n' && n + |OPEN| > size
    ensures e < n
  {
    assert forall j :: n <= j < n + |OPEN| ==> f[j] == f[n..n + |OPEN|][j - n] == OPEN[j - n];
  }

  // ---- settled blocks --------------------------------------------------------------

  /** The end of the block does not hang on a line that is still being written. */
  predicate Settled(text: string, o: nat, next: Option<nat>)
    requires OpensAt(text, o)
  {
    var nl := HeaderEnd(text, o);
    nl < |text| && (next.Some? ||
      (FindClose(text, nl + 1).Some? && FindClose(text, nl + 1).value.1 < |text|))
  }

  /** How the next OPEN of the whole text relates to that of the prefix. */
  ghost predicate NextAgrees(p: string, f: string, next: Option<nat>, next': Option<nat>) {
    && (next.Some? ==> OpensAt(p, next.value) && next' == next)
    && (next'.Some? ==> OpensAt(f, next'.value))
    && (next.None? && next'.Some? ==> next'.value + |OPEN| > |p|)
  }

  /** Which marker line, if any, closes a block before the OPEN at `n`. */
  predicate ClosesBefore(closed: Option<(nat, nat)>, n: nat) {
    closed.Some? && closed.value.0 < n
  }

  lemma {:induction false} SettledEndAtOpen(p: string, f: string, nl: nat, n: nat)
    requires p <= f && nl < |p| && OpensAt(p, n)
    ensures BlockEnd(p, nl, Some(n), false) == BlockEnd(f, nl, Some(n), true)
  {
    SameCloseBefore(p, f, nl + 1, n);
  }

  lemma {:induction false} SameCloseBefore(p: string, f: string, i: nat, n: nat)
    requires p <= f && i <= |p| && OpensAt(p, n)
    ensures ClosesBefore(FindClose(p, i), n) || ClosesBefore(FindClose(f, i), n) ==> FindClose(p, i) == FindClose(f, i)
  {
    Seqs.Prefix(p, f, n, n + |OPEN|);
    LineAgrees(p, f, i, IsMarker);
    CloseEndsBefore(p, i, n);
    CloseEndsBefore(f, i, n);
  }

  lemma {:induction false} CloseEndsBefore(text: string, i: nat, n: nat)
    requires i <= |text| && OpensAt(text, n)
    ensures ClosesBefore(FindClose(text, i), n) ==> FindClose(text, i).value.1 <= n
  {
    var closed := FindClose(text, i);
    if ClosesBefore(closed, n) {
      CloseBeforeOpen(text, closed.value.0, closed.value.1, n);
    }
  }

  lemma {:induction false} SettledEndAtLine(p: string, f: string, nl: nat, next': Option<nat>)
    requires p <= f && nl < |p| && NextAgrees(p, f, None, next')
    requires FindClose(p, nl + 1).Some? && FindClose(p, nl + 1).value.1 < |p|
    ensures BlockEnd(p, nl, None, false) == BlockEnd(f, nl, next', true)
  {
    LineAgrees(p, f, nl + 1, IsMarker);
    var closed := FindClose(p, nl + 1);
    assert FindClose(f, nl + 1) == closed;
    if next'.Some? {
      OpenAfterLine(f, closed.value.1, next'.value, |p|);
    }
    EndAtLine(p, nl, None, false, closed);
    EndAtLine(f, nl, next', true, closed);
  }

  lemma {:induction false} EndAtLine(text: string, nl: nat, next: Option<nat>, done: bool, closed: Option<(nat, nat)>)
    requires nl < |text| && closed == FindClose(text, nl + 1) && closed.Some?
    requires next.Some? ==> closed.value.0 < next.value <= |text|
    ensures BlockEnd(text, nl, next, done) == closed
  {
  }

  /** What a block is, from where it ends. */
  lemma {:induction false} BlockFromEnd(text: string, o: nat, next: Option<nat>, done: bool, end: nat, cut: nat)
    requires OpensAt(text, o) && (next.Some? ==> next.value <= |text|) && HeaderEnd(text, o) < |text|
    requires BlockEnd(text, HeaderEnd(text, o), next, done) == Some((end, cut))
    ensures end <= |text| && cut <= |text|
    ensures BlockAt(text, o, next, done) == Some(CutBlock(text, o, HeaderEnd(text, o), end, cut))
  {
  }

  lemma {:induction false} SameCut(p: string, f: string, o: nat, nl: nat, end: nat, cut: nat)
    requires p <= f && o + |OPEN| <= nl <= |p| && end <= |p| && cut <= |p|
    ensures CutBlock(p, o, nl, end, cut) == CutBlock(f, o, nl, end, cut)
  {
    Seqs.Prefix(p, f, o + |OPEN|, nl);
    Seqs.Prefix(p, f, if nl + 1 < end then nl + 1 else end, end);
    Seqs.Prefix(p, f, 0, cut);
  }

  lemma {:induction false} SettledEnd(p: string, f: string, nl: nat, next: Option<nat>, next': Option<nat>) returns (end: nat, cut: nat)
    requires p <= f && nl < |p| && NextAgrees(p, f, next, next')
    requires next.Some? || (FindClose(p, nl + 1).Some? && FindClose(p, nl + 1).value.1 < |p|)
    ensures end <= |p| && cut <= |p|
    ensures BlockEnd(p, nl, next, false) == Some((end, cut)) && BlockEnd(f, nl, next', true) == Some((end, cut))
  {
    if next.Some? {
      SettledEndAtOpen(p, f, nl, next.value);
    } else {
      SettledEndAtLine(p, f, nl, next');
    }
    end, cut := BlockEnd(p, nl, next, false).value.0, BlockEnd(p, nl, next, false).value.1;
  }

  /** A settled block is the same, word for word, in the finished plan. */
  lemma {:induction false} SettledBlock(p: string, f: string, o: nat, next: Option<nat>, next': Option<nat>)
    requires p <= f && OpensAt(p, o) && NextAgrees(p, f, next, next') && Settled(p, o, next)
    ensures BlockAt(p, o, next, false).Some? && BlockAt(f, o, next', true) == BlockAt(p, o, next, false)
  {
    Seqs.Prefix(p, f, o, o + |OPEN|);
    NewlineOfPrefix(p, f, o + |OPEN|);
    var nl := HeaderEnd(p, o);
    var end, cut := SettledEnd(p, f, nl, next, next');
    BlockFromEnd(p, o, next, false, end, cut);
    BlockFromEnd(f, o, next', true, end, cut);
    SameCut(p, f, o, nl, end, cut);
  }

  /** Exactly: a block closed by an unterminated last line is not final, for one more letter reopens it. */
  lemma {:induction false} UnsettledBlockChanges(p: string, o: nat)
    requires OpensAt(p, o) && BlockAt(p, o, None, false).Some? && !Settled(p, o, None)
    ensures OpensAt(p + "x", o) && BlockAt(p + "x", o, None, true) != BlockAt(p, o, None, false)
  {
    var f := p + "x";
    assert f[o..o + |OPEN|] == p[o..o + |OPEN|];
    NewlineOfPrefix(p, f, o + |OPEN|);
    var nl := HeaderEnd(p, o);
    var closed := FindClose(f, nl + 1);
    assert f[|p|] == 'x';
    assert closed.Some? ==> closed.value.1 != |p|;
    assert BlockAt(p, o, None, false).value.plan == p[..|p|];
  }

  // ---- orders ----------------------------------------------------------------------

  /** The text stops on an unterminated line that reads as a close marker. */
  ghost predicate StopsOnMarker(text: string) {
    exists c :: 0 <= c <= |text| && NewlineFrom(text, c) == |text| && IsMarker(text[c..])
  }

  lemma {:induction false} CloseAtEnd(text: string, i: nat)
    requires i <= |text| && FindClose(text, i).Some? && FindClose(text, i).value.1 == |text|
    ensures StopsOnMarker(text)
  {
    var (c, e) := FindClose(text, i).value;
    assert text[c..e] == text[c..];
  }

  lemma {:induction false} FinishedMeans(p: string, o: nat, next: Option<nat>)
    requires BlockAt(p, o, next, false).Some?
    ensures OpensAt(p, o) && HeaderEnd(p, o) < |p|
    ensures next.None? ==> FindClose(p, HeaderEnd(p, o) + 1).Some?
  {
  }

  lemma {:induction false} FinishedIsSettled(p: string, o: nat, next: Option<nat>)
    requires OpensAt(p, o) && HeaderEnd(p, o) < |p| && !StopsOnMarker(p)
    requires next.None? ==> FindClose(p, HeaderEnd(p, o) + 1).Some?
    ensures Settled(p, o, next)
  {
    if next.None? {
      CloseInside(p, HeaderEnd(p, o) + 1);
    }
  }

  lemma {:induction false} CloseInside(text: string, i: nat)
    requires i <= |text| && FindClose(text, i).Some? && !StopsOnMarker(text)
    ensures FindClose(text, i).value.1 < |text|
  {
    if FindClose(text, i).value.1 == |text| {
      CloseAtEnd(text, i);
    }
  }

  lemma {:induction false} SameBlocks(starts: seq<nat>, at: Reader, starts': seq<nat>, at': Reader, k: nat)
    requires starts <= starts' && k <= |starts|
    requires forall j :: k <= j < |starts| && at(starts[j], NextOf(starts, j)).Some? ==>
               at'(starts'[j], NextOf(starts', j)) == at(starts[j], NextOf(starts, j))
    ensures BlocksFrom(starts, k, at) <= BlocksFrom(starts', k, at')
    decreases |starts| - k
  {
    if k < |starts| && at(starts[k], NextOf(starts, k)).Some? {
      SameBlocks(starts, at, starts', at', k + 1);
    }
  }

  lemma {:induction false} SettledBlocks(p: string, f: string)
    requires p <= f && !StopsOnMarker(p)
    ensures Blocks(p, false) <= Blocks(f, true)
  {
    StartsOfPrefix(p, f, 0);
    var starts, starts' := Starts(p), Starts(f);
    var at, at' := ReaderOf(p, false), ReaderOf(f, true);
    forall k | 0 <= k < |starts| && at(starts[k], NextOf(starts, k)).Some?
      ensures at'(starts'[k], NextOf(starts', k)) == at(starts[k], NextOf(starts, k))
    {
      NextIsInText(p, k);
      NextIsInText(f, k);
      FinishedStays(p, f, starts[k], NextOf(starts, k), NextOf(starts', k));
    }
    SameBlocks(starts, at, starts', at', 0);
  }

  lemma {:induction false} FinishedStays(p: string, f: string, o: nat, next: Option<nat>, next': Option<nat>)
    requires p <= f && !StopsOnMarker(p) && BlockAt(p, o, next, false).Some? && NextAgrees(p, f, next, next')
    ensures BlockAt(f, o, next', true) == BlockAt(p, o, next, false)
  {
    FinishedMeans(p, o, next);
    FinishedIsSettled(p, o, next);
    SettledBlock(p, f, o, next, next');
  }

  lemma {:induction false} OrdersGrow(a: seq<Block>, b: seq<Block>, ctx: Context, out: seq<Order>)
    requires a <= b
    ensures OrdersOf(a, ctx, out) <= OrdersOf(b, ctx, out) && out <= OrdersOf(b, ctx, out)
    decreases |b|
  {
    if b != [] {
      var next := AddOrders(out, b[0].pieces, ctx, b[0].body, b[0].plan);
      AddOrdersExtends(out, b[0].pieces, ctx, b[0].body, b[0].plan);
      if a == [] {
        OrdersGrow(a, b[1..], ctx, next);
      } else {
        OrdersGrow(a[1..], b[1..], ctx, next);
      }
    }
  }

  lemma {:induction false} AddOrdersExtends(out: seq<Order>, pieces: seq<string>, ctx: Context, body: string, plan: string)
    ensures out <= AddOrders(out, pieces, ctx, body, plan)
    decreases |pieces|
  {
    if pieces != [] {
      var p := PathOf(pieces[0], ctx);
      AddOrdersExtends(if p.Some? && p.value !in Paths(out) then out + [Order(p.value, body, plan)] else out,
                       pieces[1..], ctx, body, plan);
    }
  }

  /** A text that does not stop on a marker line yields orders that the finished plan repeats word for word. */
  lemma {:induction false} SettledOrdersAreFinal(p: string, f: string, ctx: Context)
    requires p <= f && !StopsOnMarker(p)
    ensures Orders(p, ctx, false) <= Orders(f, ctx, true)
  {
    SettledBlocks(p, f);
    OrdersGrow(Blocks(p, false), Blocks(f, true), ctx, []);
  }
}
