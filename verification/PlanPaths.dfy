/** Which file a header of a plan names: what an acceptable path is, and how it may be written. */
module PlanPaths {
  import opened Transcript
  import opened PlanParser
  import Seqs

  // ---- splitting and joining -------------------------------------------------------

  function Join(segs: seq<string>, sep: char): string {
    if segs == [] then [] else if |segs| == 1 then segs[0] else segs[0] + [sep] + Join(segs[1..], sep)
  }

  predicate Apart(segs: seq<string>, sep: char) {
    forall i :: 0 <= i < |segs| ==> sep !in segs[i]
  }

  /** Splitting undoes joining ... */
  lemma {:induction false} SplitOfJoin(segs: seq<string>, sep: char)
    requires segs != [] && Apart(segs, sep)
    ensures Split(Join(segs, sep), sep) == segs
  {
    if |segs| == 1 {
      SplitPlain(segs[0], sep);
    } else {
      SplitOfJoin(segs[1..], sep);
      SplitFirst(segs[0], Join(segs[1..], sep), sep);
      Seqs.Uncons(segs);
    }
  }

  /** ... and joining undoes splitting. */
  lemma {:induction false} JoinOfSplit(s: string, sep: char)
    ensures Join(Split(s, sep), sep) == s && Apart(Split(s, sep), sep)
  {
    if s != [] {
      var rest := Split(s[1..], sep);
      JoinOfSplit(s[1..], sep);
      if s[0] == sep {
        assert ([""] + rest)[1..] == rest;
        assert "" + [sep] + s[1..] == s;
      } else {
        JoinHead(s[0], rest, sep);
        assert [s[0]] + s[1..] == s;
      }
    }
  }

  lemma {:induction false} JoinHead(c: char, rest: seq<string>, sep: char)
    requires rest != []
    ensures Join([[c] + rest[0]] + rest[1..], sep) == [c] + Join(rest, sep)
  {
    var segs := [[c] + rest[0]] + rest[1..];
    assert segs[1..] == rest[1..];
    if |rest| > 1 {
      assert [c] + rest[0] + [sep] + Join(rest[1..], sep) == [c] + (rest[0] + [sep] + Join(rest[1..], sep));
    }
  }

  lemma {:induction false} SplitPlain(s: string, sep: char)
    requires sep !in s
    ensures Split(s, sep) == [s]
  {
    if s != [] {
      SplitPlain(s[1..], sep);
      var rest := Split(s[1..], sep);
      assert rest == [s[1..]] && rest[1..] == [] && [s[0]] + s[1..] == s;
    }
  }

  lemma {:induction false} SplitFirst(a: string, b: string, sep: char)
    requires sep !in a
    ensures Split(a + [sep] + b, sep) == [a] + Split(b, sep)
  {
    var s := a + [sep] + b;
    if a == [] {
      assert s[0] == sep && s[1..] == b;
    } else {
      SplitFirst(a[1..], b, sep);
      assert s[0] == a[0] && s[1..] == a[1..] + [sep] + b;
      var rest := [a[1..]] + Split(b, sep);
      assert rest[0] == a[1..] && rest[1..] == Split(b, sep) && [a[0]] + a[1..] == a;
    }
  }

  lemma {:induction false} JoinSnoc(front: seq<string>, x: string, y: string, sep: char)
    ensures Join(front + [x + y], sep) == Join(front + [x], sep) + y
    decreases |front|
  {
    if front == [] {
      assert front + [x + y] == [x + y] && front + [x] == [x];
    } else {
      assert (front + [x + y])[1..] == front[1..] + [x + y] && (front + [x])[1..] == front[1..] + [x];
      JoinSnoc(front[1..], x, y, sep);
      Seqs.Assoc(front[0] + [sep], Join(front[1..] + [x], sep), y);
    }
  }

  lemma {:induction false} JoinHas(segs: seq<string>, sep: char, i: nat)
    ensures i < |Join(segs, sep)| ==> Join(segs, sep)[i] == sep || exists k :: 0 <= k < |segs| && Join(segs, sep)[i] in segs[k]
    ensures forall k :: 0 <= k < |segs| ==> forall c :: c in segs[k] ==> c in Join(segs, sep)
  {
    if |segs| == 1 {
      if i < |Join(segs, sep)| {
        assert segs[0][i] in segs[0];
      }
    } else if |segs| > 1 {
      var first := segs[0] + [sep];
      JoinHas(segs[1..], sep, if i < |first| then 0 else i - |first|);
      var all := first + Join(segs[1..], sep);
      if i < |segs[0]| {
        assert all[i] == segs[0][i] && segs[0][i] in segs[0];
      } else if |first| <= i < |all| && all[i] != sep {
        var k :| 0 <= k < |segs[1..]| && Join(segs[1..], sep)[i - |first|] in segs[1..][k];
        assert all[i] in segs[k + 1];
      }
      forall k, c | 0 <= k < |segs| && c in segs[k] ensures c in all {
        if k > 0 {
          assert c in segs[1..][k - 1];
        }
      }
    }
  }

  // ---- acceptable paths ------------------------------------------------------------

  /** What the class of word characters promises: it has no space, quote, comma, slash, dot or dash. */
  ghost predicate WordClass(word: char -> bool) {
    forall c :: IsSpace(c) || IsQuote(c) || c == ',' || c == '/' || c == '.' || c == '-' ==> !word(c)
  }

  predicate Segment(s: string, word: char -> bool) {
    s != "" && s != ".." && forall i :: 0 <= i < |s| ==> word(s[i]) || s[i] == '.' || s[i] == '-'
  }

  /** Something, a dot, and a word. */
  ghost predicate Suffixed(s: string, word: char -> bool) {
    exists d :: 0 < d < |s| - 1 && s[d] == '.' && forall i :: d < i < |s| ==> word(s[i])
  }

  /**
    A path that may be ordered: segments of word characters, dots and dashes with slashes between, none of
    them empty or "..", and the last one with a suffix.
   */
  ghost predicate Acceptable(path: string, word: char -> bool) {
    exists segs :: PathOfSegs(path, segs, word)
  }

  ghost predicate PathOfSegs(path: string, segs: seq<string>, word: char -> bool) {
    && segs != [] && path == Join(segs, '/') && Suffixed(segs[|segs| - 1], word)
    && forall i :: 0 <= i < |segs| ==> Segment(segs[i], word)
  }

  /** Exactly these paths pass the parser's two tests. */
  lemma {:induction false} SaneIsAcceptable(path: string, word: char -> bool)
    requires WordClass(word)
    ensures Sane(path, word) && ".." !in Split(path, '/') <==> Acceptable(path, word)
  {
    if Sane(path, word) && ".." !in Split(path, '/') {
      var d :| 0 < d < |path| - 1 && path[d] == '.' && "" !in Split(path[..d], '/')
        && (forall i :: d < i < |path| ==> word(path[i]))
        && (forall i :: 0 <= i < d ==> word(path[i]) || path[i] == '.' || path[i] == '-' || path[i] == '/');
      SaneHasSegs(path, d, word);
    }
    if Acceptable(path, word) {
      var segs :| PathOfSegs(path, segs, word);
      SegsAreSane(path, segs, word);
    }
  }

  lemma {:induction false} SplitTail(a: string, b: string, sep: char)
    requires sep !in b
    ensures var front := Split(a, sep); Split(a + b, sep) == front[..|front| - 1] + [front[|front| - 1] + b]
  {
    var segs := Split(a, sep);
    var n := |segs| - 1;
    JoinOfSplit(a, sep);
    Seqs.LastApart(segs, segs[..n], segs[n]);
    JoinSnoc(segs[..n], segs[n], b, sep);
    var longer := segs[..n] + [segs[n] + b];
    assert Apart(longer, sep);
    SplitOfJoin(longer, sep);
  }

  lemma {:induction false} SaneHasSegs(path: string, d: nat, word: char -> bool)
    requires WordClass(word) && ".." !in Split(path, '/')
    requires 0 < d < |path| - 1 && path[d] == '.' && "" !in Split(path[..d], '/')
    requires forall i :: d < i < |path| ==> word(path[i])
    requires forall i :: 0 <= i < d ==> word(path[i]) || path[i] == '.' || path[i] == '-' || path[i] == '/'
    ensures PathOfSegs(path, Split(path, '/'), word)
  {
    var stem, tail := path[..d], path[d..];
    var front, segs := Split(stem, '/'), Split(path, '/');
    var n := |front| - 1;
    Seqs.Cut(path, d);
    assert '/' !in tail by { assert forall i :: 0 <= i < |tail| ==> tail[i] == path[d + i]; }
    SplitTail(stem, tail, '/');
    JoinOfSplit(path, '/');
    assert segs == front[..n] + [front[n] + tail];
    assert front[n] in front && front[n] != "";
    DotSuffixes(front[n], tail, word);
    forall i | 0 <= i < |segs| ensures Segment(segs[i], word) {
      assert segs[i] in segs;
      assert i < n ==> segs[i] == front[i] && front[i] in front;
      SegmentChars(path, segs, i, word);
    }
  }

  lemma {:induction false} DotSuffixes(a: string, tail: string, word: char -> bool)
    requires a != "" && |tail| > 1 && tail[0] == '.' && forall i :: 0 < i < |tail| ==> word(tail[i])
    ensures Suffixed(a + tail, word)
  {
    var m := |a|;
    assert (a + tail)[m] == '.' && forall i :: m < i < |a + tail| ==> (a + tail)[i] == tail[i - m];
  }

  lemma {:induction false} SegmentChars(path: string, segs: seq<string>, i: nat, word: char -> bool)
    requires i < |segs| && path == Join(segs, '/') && Apart(segs, '/')
    requires forall k :: 0 <= k < |path| ==> word(path[k]) || path[k] == '.' || path[k] == '-' || path[k] == '/'
    ensures forall k :: 0 <= k < |segs[i]| ==> word(segs[i][k]) || segs[i][k] == '.' || segs[i][k] == '-'
  {
    JoinHas(segs, '/', 0);
    forall k | 0 <= k < |segs[i]| ensures word(segs[i][k]) || segs[i][k] == '.' || segs[i][k] == '-' {
      assert segs[i][k] in segs[i] && segs[i][k] in path;
    }
  }

  lemma {:induction false} SegsAreSane(path: string, segs: seq<string>, word: char -> bool)
    requires WordClass(word) && PathOfSegs(path, segs, word)
    ensures Sane(path, word) && ".." !in Split(path, '/')
  {
    var n := |segs| - 1;
    SegmentsApart(segs, word);
    SplitOfJoin(segs, '/');
    var last := segs[n];
    var d :| 0 < d < |last| - 1 && last[d] == '.' && forall i :: d < i < |last| ==> word(last[i]);
    Stem(segs, d, word);
    var stem := segs[..n] + [last[..d]];
    StemIsSane(path, segs, |Join(stem, '/')|, word);
    CutIsSane(path, Join(stem, '/'), last[d..], word);
  }

  lemma {:induction false} SegmentsApart(segs: seq<string>, word: char -> bool)
    requires WordClass(word) && forall i :: 0 <= i < |segs| ==> Segment(segs[i], word)
    ensures Apart(segs, '/') && ".." !in segs
  {
  }

  /** The path up to the dot of its suffix. */
  lemma {:induction false} Stem(segs: seq<string>, d: nat, word: char -> bool)
    requires segs != [] && Apart(segs, '/') && 0 < d < |segs[|segs| - 1]| && forall i :: 0 <= i < |segs| ==> segs[i] != ""
    ensures var n := |segs| - 1;
            var stem := segs[..n] + [segs[n][..d]];
            && Join(segs, '/') == Join(stem, '/') + segs[n][d..] && Split(Join(stem, '/'), '/') == stem && "" !in stem
            && Join(stem, '/') != []
  {
    var n := |segs| - 1;
    var last := segs[n];
    var stem := segs[..n] + [last[..d]];
    Seqs.LastApart(segs, segs[..n], last);
    Seqs.Cut(last, d);
    JoinSnoc(segs[..n], last[..d], last[d..], '/');
    SplitOfJoin(stem, '/');
    JoinHas(stem, '/', 0);
    assert stem[n] == last[..d] && last[..d][0] in stem[n];
  }

  lemma {:induction false} CutIsSane(path: string, stem: string, tail: string, word: char -> bool)
    requires path == stem + tail && stem != [] && "" !in Split(stem, '/')
    requires |tail| > 1 && tail[0] == '.' && forall i :: 0 < i < |tail| ==> word(tail[i])
    requires forall i :: 0 <= i < |stem| ==> word(path[i]) || path[i] == '.' || path[i] == '-' || path[i] == '/'
    ensures Sane(path, word)
  {
    var d := |stem|;
    assert path[..d] == stem && path[d] == '.';
    assert forall i :: d < i < |path| ==> path[i] == tail[i - d];
  }

  lemma {:induction false} StemIsSane(path: string, segs: seq<string>, e: nat, word: char -> bool)
    requires path == Join(segs, '/') && e <= |path| && forall i :: 0 <= i < |segs| ==> Segment(segs[i], word)
    ensures forall i :: 0 <= i < e ==> word(path[i]) || path[i] == '.' || path[i] == '-' || path[i] == '/'
  {
    forall i | 0 <= i < e ensures word(path[i]) || path[i] == '.' || path[i] == '-' || path[i] == '/' {
      JoinHas(segs, '/', i);
      if path[i] != '/' {
        var k :| 0 <= k < |segs| && path[i] in segs[k];
      }
    }
  }

  // ---- how a path may be written ---------------------------------------------------

  predicate All(s: string, p: char -> bool) {
    forall i :: 0 <= i < |s| ==> p(s[i])
  }

  lemma {:induction false} TrimStartOf(a: string, b: string, drop: char -> bool)
    requires All(a, drop) && (b != [] ==> !drop(b[0]))
    ensures TrimStart(a + b, drop) == b
  {
    if a == [] {
      assert a + b == b;
    } else {
      assert (a + b)[1..] == a[1..] + b;
      TrimStartOf(a[1..], b, drop);
    }
  }

  lemma {:induction false} TrimEndOf(a: string, b: string, drop: char -> bool)
    requires All(b, drop) && (a != [] ==> !drop(a[|a| - 1]))
    ensures TrimEnd(a + b, drop) == a
  {
    if b == [] {
      assert a + b == a;
    } else {
      assert (a + b)[..|a + b| - 1] == a + b[..|b| - 1];
      TrimEndOf(a, b[..|b| - 1], drop);
    }
  }

  /** A text without what is dropped at its ends is what stands between. */
  lemma {:induction false} TrimOf(a: string, s: string, b: string, drop: char -> bool)
    requires All(a, drop) && All(b, drop) && s != [] && !drop(s[0]) && !drop(s[|s| - 1])
    ensures Trim(a + s + b, drop) == s
  {
    Seqs.Assoc(a, s, b);
    TrimStartOf(a, s + b, drop);
    TrimEndOf(s, b, drop);
  }

  /** Exactly: a text is what trimming leaves of it, between two ends that are dropped; and that neither begins nor ends with such. */
  lemma {:induction false} TrimMeans(s: string, drop: char -> bool) returns (a: string, b: string)
    ensures s == a + Trim(s, drop) + b && All(a, drop) && All(b, drop)
    ensures var r := Trim(s, drop); r != [] ==> !drop(r[0]) && !drop(r[|r| - 1])
  {
    a := StartDropped(s, drop);
    b := EndDropped(TrimStart(s, drop), drop);
    var t, r := TrimStart(s, drop), Trim(s, drop);
    Seqs.Assoc(a, r, b);
    assert r != [] ==> r[0] == t[0];
  }

  lemma {:induction false} StartDropped(s: string, drop: char -> bool) returns (a: string)
    ensures s == a + TrimStart(s, drop) && All(a, drop)
    ensures TrimStart(s, drop) != [] ==> !drop(TrimStart(s, drop)[0])
  {
    a := [];
    if s != [] && drop(s[0]) {
      var rest := StartDropped(s[1..], drop);
      a := [s[0]] + rest;
    }
  }

  lemma {:induction false} EndDropped(s: string, drop: char -> bool) returns (b: string)
    ensures s == TrimEnd(s, drop) + b && All(b, drop)
    ensures TrimEnd(s, drop) != [] ==> !drop(TrimEnd(s, drop)[|TrimEnd(s, drop)| - 1])
  {
    b := [];
    if s != [] && drop(s[|s| - 1]) {
      var rest := EndDropped(s[..|s| - 1], drop);
      b := rest + [s[|s| - 1]];
    }
  }

  /** "./" any number of times. */
  predicate Dots(s: string) {
    s == [] || ("./" <= s && Dots(s[2..]))
  }

  /** A header names `p`: with "./" before it or not, in quotes or not, and spaces around. */
  ghost predicate Writes(piece: string, p: string) {
    exists a, q, dots, r, b :: Dressed(piece, a, q, dots, p, r, b)
  }

  ghost predicate Dressed(piece: string, a: string, q: string, dots: string, p: string, r: string, b: string) {
    && piece == a + q + (dots + p) + r + b
    && All(a, IsSpace) && All(q, IsQuote) && Dots(dots) && All(r, IsQuote) && All(b, IsSpace)
  }

  /** A path that can be written so: it begins and ends with neither space nor quote, nor begins with "./". */
  predicate Plainly(p: string) {
    && p != [] && !IsSpace(p[0]) && !IsQuote(p[0]) && !IsSpace(p[|p| - 1]) && !IsQuote(p[|p| - 1]) && !("./" <= p)
  }

  lemma {:induction false} WrittenIs(piece: string, p: string)
    requires Writes(piece, p) && Plainly(p)
    ensures StripDotSlash(Trim(Trim(piece, IsSpace), IsQuote)) == p
  {
    var a, q, dots, r, b :| Dressed(piece, a, q, dots, p, r, b);
    var core := dots + p;
    CoreEnds(dots, p);
    Bare(a, q, core, r, b);
    StripDots(dots, p);
  }

  lemma {:induction false} CoreEnds(dots: string, p: string)
    requires Dots(dots) && Plainly(p)
    ensures var core := dots + p;
            core != [] && !IsSpace(core[0]) && !IsQuote(core[0]) && !IsSpace(core[|core| - 1]) && !IsQuote(core[|core| - 1])
  {
    if dots != [] {
      assert (dots + p)[0] == dots[0] == '.';
    } else {
      assert dots + p == p;
    }
    assert (dots + p)[|dots + p| - 1] == p[|p| - 1];
  }

  lemma {:induction false} StripDots(dots: string, p: string)
    requires Dots(dots) && !("./" <= p)
    ensures StripDotSlash(dots + p) == p
  {
    if dots == [] {
      assert dots + p == p;
    } else {
      assert "./" <= dots + p by { assert (dots + p)[..2] == dots[..2] == "./"; }
      assert (dots + p)[2..] == dots[2..] + p;
      StripDots(dots[2..], p);
    }
  }

  /** Spaces and then quotes taken off both ends leave what is between them. */
  lemma {:induction false} Bare(a: string, q: string, core: string, r: string, b: string)
    requires All(a, IsSpace) && All(q, IsQuote) && All(r, IsQuote) && All(b, IsSpace)
    requires core != [] && !IsSpace(core[0]) && !IsQuote(core[0]) && !IsSpace(core[|core| - 1]) && !IsQuote(core[|core| - 1])
    ensures Trim(Trim(a + q + core + r + b, IsSpace), IsQuote) == core
  {
    var q1 := StartDropped(q, IsSpace);
    var q2 := TrimStart(q, IsSpace);
    var r1 := EndDropped(r, IsSpace);
    var r2 := TrimEnd(r, IsSpace);
    PartOf(q, q1, q2);
    PartOf(r, r2, r1);
    Regrouped(a, q1, q2, core, r2, r1, b);
    InnerEnds(q2, core, r2);
    BothDrop(a, q1);
    BothDrop(r1, b);
    TrimOf(a + q1, q2 + core + r2, r1 + b, IsSpace);
    TrimOf(q2, core, r2, IsQuote);
  }

  lemma {:induction false} PartOf(s: string, a: string, b: string)
    requires s == a + b && All(s, IsQuote)
    ensures All(a, IsQuote) && All(b, IsQuote)
  {
    assert forall i :: 0 <= i < |a| ==> a[i] == s[i];
    assert forall i :: 0 <= i < |b| ==> b[i] == s[|a| + i];
  }

  lemma {:induction false} BothDrop(a: string, b: string)
    requires All(a, IsSpace) && All(b, IsSpace)
    ensures All(a + b, IsSpace)
  {
  }

  lemma {:induction false} InnerEnds(a: string, core: string, b: string)
    requires core != [] && !IsSpace(core[0]) && !IsSpace(core[|core| - 1])
    requires (a != [] ==> !IsSpace(a[0])) && (b != [] ==> !IsSpace(b[|b| - 1]))
    ensures var inner := a + core + b; inner != [] && !IsSpace(inner[0]) && !IsSpace(inner[|inner| - 1])
  {
    var inner := a + core + b;
    assert inner[0] == (if a != [] then a[0] else core[0]);
    assert inner[|inner| - 1] == (if b != [] then b[|b| - 1] else core[|core| - 1]);
  }

  lemma {:induction false} Regrouped(a: string, q1: string, q2: string, core: string, r2: string, r1: string, b: string)
    ensures a + (q1 + q2) + core + (r2 + r1) + b == (a + q1) + (q2 + core + r2) + (r1 + b)
  {
  }

  // ---- the file a header piece orders ----------------------------------------------

  /** The tracked file `f` ends in `p`, below some directory. */
  ghost predicate Extends(f: string, p: string) {
    exists dir :: f == dir + "/" + p
  }

  /** The file that `p` stands for: the first tracked one that ends in it, or `p` itself. */
  ghost predicate StandsFor(files: seq<string>, p: string, file: string) {
    || (file == p && forall i :: 0 <= i < |files| ==> !Extends(files[i], p))
    || exists k: nat :: FirstAt(files, p, k) && file == files[k]
  }

  ghost predicate FirstAt(files: seq<string>, p: string, k: nat) {
    k < |files| && Extends(files[k], p) && forall i :: 0 <= i < k ==> !Extends(files[i], p)
  }

  lemma {:induction false} ExtendsIs(f: string, p: string)
    ensures Seqs.EndsWith(f, "/" + p) <==> Extends(f, p)
  {
    if Seqs.EndsWith(f, "/" + p) {
      var dir := f[..|f| - |"/" + p|];
      Seqs.Cut(f, |f| - |"/" + p|);
      assert f == dir + "/" + p;
    }
    if dir :| f == dir + "/" + p {
      assert f[|f| - |"/" + p|..] == "/" + p;
    }
  }

  lemma {:induction false} TrackedIs(files: seq<string>, p: string)
    ensures StandsFor(files, p, Tracked(files, p))
  {
    if files != [] {
      ExtendsIs(files[0], p);
      if !Seqs.EndsWith(files[0], "/" + p) {
        var rest := files[1..];
        TrackedIs(rest, p);
        if k: nat :| FirstAt(rest, p, k) && Tracked(rest, p) == rest[k] {
          assert files[k + 1] == rest[k] && forall i :: 1 <= i < k + 1 ==> files[i] == rest[i - 1];
          assert FirstAt(files, p, k + 1);
        } else {
          assert forall i :: 1 <= i < |files| ==> files[i] == rest[i - 1];
        }
      } else {
        assert FirstAt(files, p, 0);
      }
    }
  }

  lemma {:induction false} OneFile(files: seq<string>, p: string, a: string, b: string)
    requires StandsFor(files, p, a) && StandsFor(files, p, b)
    ensures a == b
  {
  }

  /**
    Exactly: a header piece that writes `p` orders the file that `p` stands for, if that is an acceptable
    path, and nothing otherwise.
   */
  lemma {:induction false} PieceOrders(piece: string, p: string, file: string, ctx: Context)
    requires WordClass(ctx.word) && Writes(piece, p) && Plainly(p) && StandsFor(ctx.files, p, file)
    ensures PathOf(piece, ctx) == if Acceptable(file, ctx.word) then Some(file) else None
  {
    WrittenIs(piece, p);
    TrackedIs(ctx.files, p);
    OneFile(ctx.files, p, file, Tracked(ctx.files, p));
    SaneIsAcceptable(file, ctx.word);
  }

  /** An acceptable path is one that a header can write, unless it begins with "./". */
  lemma {:induction false} AcceptableIsPlain(p: string, word: char -> bool)
    requires WordClass(word) && Acceptable(p, word) && !("./" <= p)
    ensures Plainly(p)
  {
    SaneIsAcceptable(p, word);
    SaneEnds(p, word);
    NotDropped(p[0], word);
    NotDropped(p[|p| - 1], word);
  }

  lemma {:induction false} SaneEnds(p: string, word: char -> bool)
    requires Sane(p, word)
    ensures p != [] && word(p[|p| - 1]) && (word(p[0]) || p[0] in ".-/")
  {
  }

  lemma {:induction false} NotDropped(c: char, word: char -> bool)
    requires WordClass(word) && (word(c) || c in ".-/")
    ensures !IsSpace(c) && !IsQuote(c)
  {
  }

  /** Whatever the pieces of a header say, only acceptable paths are ordered. */
  lemma {:induction false} PieceIsSafe(piece: string, ctx: Context)
    requires WordClass(ctx.word)
    ensures PathOf(piece, ctx).Some? ==> Acceptable(PathOf(piece, ctx).value, ctx.word)
  {
    var path := Tracked(ctx.files, StripDotSlash(Trim(Trim(piece, IsSpace), IsQuote)));
    SaneIsAcceptable(path, ctx.word);
  }
}
