/** Making a request small enough for the model, and what that does to its calls and results. */
module Shrink {
  import opened Transcript
  import opened Compaction
  import opened Numbers
  import Seqs

  function Decimal(n: nat): (s: string)
    ensures s != []
  {
    var digit := [('0' as int + n % 10) as char];
    if n < 10 then digit else Decimal(n / 10) + digit
  }

  function ElisionNote(n: nat): string {
    "\n[... " + Decimal(n) + " characters elided by context compaction ...]\n"
  }

  /** Keep both ends of a long plain text. */
  function Elide(m: Message, maxChars: nat): Message {
    if !m.plain || |m.text| <= maxChars then m
    else
      var half := maxChars / 2;
      m.(text := m.text[..half] + ElisionNote(|m.text| - maxChars) + m.text[|m.text| - half..])
  }

  /** One pass over the messages past `i`, stopping as soon as the whole fits. */
  function ElidePass(out: seq<Message>, i: nat, maxChars: nat, budget: int): (r: seq<Message>)
    ensures |r| == |out|
    decreases |out| - i
  {
    if i >= |out| || MessagesChars(out) <= budget then out
    else ElidePass(out[i := Elide(out[i], maxChars)], i + 1, maxChars, budget)
  }

  function Elided(ms: seq<Message>, protect: nat, budget: int): (r: seq<Message>)
    ensures |r| == |ms|
  {
    ElidePass(ElidePass(ElidePass(ms, protect, 8000, budget), protect, 2000, budget), protect, 400, budget)
  }

  /** Remove message `at` and the tool results that follow it, but never the last message. */
  function DropTurn(out: seq<Message>, at: nat): (r: seq<Message>)
    requires at < |out|
    ensures |r| < |out| && (at + 1 < |out| ==> at < |r|)
  {
    DropResults(out[..at] + out[at + 1..], at)
  }

  function DropResults(out: seq<Message>, at: nat): (r: seq<Message>)
    ensures |r| <= |out| && (at < |out| ==> at < |r|)
    decreases |out|
  {
    if |out| > at + 1 && out[at].role.Tool? then DropResults(out[..at] + out[at + 1..], at) else out
  }

  function DropOldest(out: seq<Message>, protect: nat, budget: int): (r: seq<Message>)
    ensures |r| <= |out|
    decreases |out|
  {
    if MessagesChars(out) > budget && |out| > protect + 2 then DropOldest(DropTurn(out, protect), protect, budget) else out
  }

  function Shrunk(ms: seq<Message>, protect: nat, budget: int): seq<Message> {
    DropOldest(Elided(ms, protect, budget), protect, budget)
  }

  method ComputeShrunk(ms: seq<Message>, protect: nat, budget: int) returns (out: seq<Message>)
    ensures out == Shrunk(ms, protect, budget)
  {
    out := ms;
    var caps := [8000, 2000, 400];
    var c := 0;
    while c < |caps|
      invariant 0 <= c <= |caps| && |out| == |ms|
      invariant Elided(ms, protect, budget) == PassesFrom(out, protect, budget, c)
    {
      var i := protect;
      ghost var before := out;
      while i < |out|
        invariant protect <= i && |out| == |ms|
        invariant ElidePass(out, i, caps[c], budget) == ElidePass(before, protect, caps[c], budget)
      {
        if MessagesChars(out) <= budget {
          FitIsFinal(out, protect, budget, c);
          return;
        }
        out := out[i := Elide(out[i], caps[c])];
        i := i + 1;
      }
      c := c + 1;
    }
    while MessagesChars(out) > budget && |out| > protect + 2
      invariant DropOldest(out, protect, budget) == Shrunk(ms, protect, budget)
      decreases |out|
    {
      ghost var before := out;
      out := out[..protect] + out[protect + 1..];
      while |out| > protect + 1 && out[protect].role.Tool?
        invariant protect < |out| < |before|
        invariant DropResults(out, protect) == DropTurn(before, protect)
        decreases |out|
      {
        out := out[..protect] + out[protect + 1..];
      }
    }
  }

  /** The passes that remain after the first `c`. */
  ghost function PassesFrom(out: seq<Message>, protect: nat, budget: int, c: nat): seq<Message> {
    if c == 0 then Elided(out, protect, budget)
    else if c == 1 then ElidePass(ElidePass(out, protect, 2000, budget), protect, 400, budget)
    else if c == 2 then ElidePass(out, protect, 400, budget)
    else out
  }

  lemma {:induction false} FitIsFinal(out: seq<Message>, protect: nat, budget: int, c: nat)
    requires MessagesChars(out) <= budget
    ensures PassesFrom(out, protect, budget, c) == out && DropOldest(out, protect, budget) == out
  {
  }

  // ---- what is kept ----------------------------------------------------------------

  /** `b` is `a` or `a` with the middle of its text cut out: at least 200 characters stay at each end. */
  predicate Trimmed(a: Message, b: Message) {
    b == a ||
    (b == a.(text := b.text) && a.plain && |a.text| > 400 && |b.text| > 400
     && b.text[..200] == a.text[..200] && b.text[|b.text| - 200..] == a.text[|a.text| - 200..])
  }

  /** `out` is the head of `ms` verbatim and then its messages from `k` on, each perhaps trimmed. */
  ghost predicate KeepsFrom(ms: seq<Message>, protect: nat, k: nat, out: seq<Message>) {
    && protect <= k <= |ms|
    && |out| == protect + |ms| - k
    && out[..protect] == ms[..protect]
    && forall j :: k <= j < |ms| ==> Trimmed(ms[j], out[protect + j - k])
  }

  lemma {:induction false} ElideTrims(m: Message, e: Message, maxChars: nat)
    requires Trimmed(m, e) && maxChars >= 400
    ensures Trimmed(m, Elide(e, maxChars))
  {
    if e.plain && |e.text| > maxChars {
      var r := Elide(e, maxChars).text;
      var half := maxChars / 2;
      assert r[..200] == e.text[..200];
      assert r[|r| - 200..] == e.text[|e.text| - half..][half - 200..] == e.text[|e.text| - 200..];
    }
  }

  lemma {:induction false} PassTrims(ms: seq<Message>, out: seq<Message>, protect: nat, i: nat, maxChars: nat, budget: int)
    requires protect <= |ms| && KeepsFrom(ms, protect, protect, out) && protect <= i && maxChars >= 400
    ensures KeepsFrom(ms, protect, protect, ElidePass(out, i, maxChars, budget))
    decreases |out| - i
  {
    if i < |out| && MessagesChars(out) > budget {
      ElideTrims(ms[i], out[i], maxChars);
      var next := out[i := Elide(out[i], maxChars)];
      assert next[..protect] == out[..protect];
      PassTrims(ms, next, protect, i + 1, maxChars, budget);
    }
  }

  /** Removing the message after the head keeps a later suffix. */
  lemma {:induction false} RemoveKeeps(ms: seq<Message>, protect: nat, k: nat, out: seq<Message>)
    requires KeepsFrom(ms, protect, k, out) && k < |ms|
    ensures KeepsFrom(ms, protect, k + 1, out[..protect] + out[protect + 1..])
  {
    var next := out[..protect] + out[protect + 1..];
    assert next[..protect] == ms[..protect];
    forall j | k + 1 <= j < |ms| ensures Trimmed(ms[j], next[protect + j - (k + 1)]) {
      assert next[protect + j - (k + 1)] == out[protect + j - k];
    }
  }

  lemma {:induction false} DropResultsKeeps(ms: seq<Message>, protect: nat, k: nat, out: seq<Message>) returns (k': nat)
    requires KeepsFrom(ms, protect, k, out) && k < |ms|
    ensures k <= k' < |ms| && KeepsFrom(ms, protect, k', DropResults(out, protect))
    ensures ms[k'].role.Tool? ==> k' == |ms| - 1
    ensures forall j :: k <= j < k' ==> ms[j].role.Tool?
    decreases |ms| - k
  {
    assert out[protect].role == ms[k].role;
    if |out| > protect + 1 && out[protect].role.Tool? {
      RemoveKeeps(ms, protect, k, out);
      k' := DropResultsKeeps(ms, protect, k + 1, out[..protect] + out[protect + 1..]);
    } else {
      k' := k;
    }
  }

  lemma {:induction false} DropKeeps(ms: seq<Message>, protect: nat, k: nat, out: seq<Message>, budget: int) returns (k': nat)
    requires KeepsFrom(ms, protect, k, out)
    ensures k <= k' <= |ms| && KeepsFrom(ms, protect, k', DropOldest(out, protect, budget))
    ensures k < k' < |ms| && ms[k'].role.Tool? ==> k' == |ms| - 1
    ensures k < |ms| ==> k' < |ms|
    decreases |out|
  {
    if MessagesChars(out) > budget && |out| > protect + 2 {
      RemoveKeeps(ms, protect, k, out);
      var mid := DropResultsKeeps(ms, protect, k + 1, out[..protect] + out[protect + 1..]);
      k' := DropKeeps(ms, protect, mid, DropTurn(out, protect), budget);
    } else {
      k' := k;
    }
  }

  lemma {:induction false} DropMeetsBudget(out: seq<Message>, protect: nat, budget: int)
    ensures var r := DropOldest(out, protect, budget); MessagesChars(r) <= budget || |r| <= protect + 2
    decreases |out|
  {
    if MessagesChars(out) > budget && |out| > protect + 2 {
      DropMeetsBudget(DropTurn(out, protect), protect, budget);
    }
  }

  /**
    Shrinking keeps the protected head verbatim and then a contiguous suffix, with only the middles of
    long texts cut; it meets the budget or leaves at most two messages past the head; and what it keeps
    after dropping does not open on a tool result, unless that result is all that is left.
   */
  lemma {:induction false} ShrinkKeepsSuffix(ms: seq<Message>, protect: nat, budget: int) returns (k: nat)
    requires protect <= |ms|
    ensures KeepsFrom(ms, protect, k, Shrunk(ms, protect, budget))
    ensures MessagesChars(Shrunk(ms, protect, budget)) <= budget || |Shrunk(ms, protect, budget)| <= protect + 2
    ensures protect < k < |ms| && ms[k].role.Tool? ==> k == |ms| - 1
    ensures protect < |ms| ==> k < |ms|
    ensures MessagesChars(ms) <= budget ==> Shrunk(ms, protect, budget) == ms
  {
    ElidedKeepsRoles(ms, protect, budget);
    var e := Elided(ms, protect, budget);
    k := DropKeeps(ms, protect, protect, e, budget);
    DropMeetsBudget(e, protect, budget);
  }

  // ---- pairing of the shrunk request -----------------------------------------------

  /** Where the last message that is not a tool result sits, with only results after it. */
  ghost predicate LastTurn(ms: seq<Message>, g: nat) {
    g < |ms| && !ms[g].role.Tool? && forall j :: g < j < |ms| ==> ms[j].role.Tool?
  }

  /** Cutting texts does not touch pairing. */
  lemma {:induction false} TrimmedPairing(a: seq<Message>, b: seq<Message>)
    requires |a| == |b| && forall j :: 0 <= j < |a| ==> Trimmed(a[j], b[j])
    ensures Pending(a) == Pending(b) && OpenCalls(a) == OpenCalls(b)
    ensures Clean(a) == Clean(b) && Grounded(a) == Grounded(b)
  {
    if a != [] {
      TrimmedPairing(a[..|a| - 1], b[..|b| - 1]);
    }
  }

  /** What may follow the protected part once the messages between are gone. */
  predicate MayFollow(head: seq<Message>, m: Message) {
    if m.role.Tool? then m.answers in OpenCalls(head) && Pending(head) <= {m.answers} else Pending(head) == {}
  }

  /** The protected part and a kept suffix are paired exactly when the suffix's first message may follow. */
  lemma {:induction false} KeptPairing(ms: seq<Message>, protect: nat, k: nat, out: seq<Message>)
    requires Paired(ms) && KeepsFrom(ms, protect, k, out) && k < |ms| && (ms[k].role.Tool? ==> k == |ms| - 1)
    ensures Paired(out) <==> MayFollow(ms[..protect], ms[k])
  {
    var head, kept := ms[..protect], out[protect..];
    HeadIsClean(ms, protect);
    Seqs.Cut(out, protect);
    KeptTrimmed(ms, protect, k, out);
    if ms[k].role.Tool? {
      HeadThenResult(head, ms[k], kept);
    } else {
      TurnsKept(ms, k, kept);
      HeadThenTurns(head, kept);
    }
  }

  lemma {:induction false} HeadIsClean(ms: seq<Message>, protect: nat)
    requires Paired(ms) && protect <= |ms|
    ensures Clean(ms[..protect]) && Grounded(ms[..protect])
  {
    Seqs.Cut(ms, protect);
    CleanPrefix(ms[..protect], ms[protect..]);
  }

  lemma {:induction false} KeptTrimmed(ms: seq<Message>, protect: nat, k: nat, out: seq<Message>)
    requires KeepsFrom(ms, protect, k, out)
    ensures forall j :: k <= j < |ms| ==> Trimmed(ms[j], out[protect..][j - k])
  {
    forall j | k <= j < |ms| ensures Trimmed(ms[j], out[protect..][j - k]) {
      assert out[protect..][j - k] == out[protect + j - k];
    }
  }

  lemma {:induction false} HeadThenResult(head: seq<Message>, m: Message, kept: seq<Message>)
    requires Clean(head) && Grounded(head) && |kept| == 1 && Trimmed(m, kept[0]) && m.role.Tool?
    ensures Paired(head + kept) <==> MayFollow(head, m)
  {
    assert kept == [kept[0]];
    Seqs.Snoc(head, kept[0]);
  }

  lemma {:induction false} TurnsKept(ms: seq<Message>, k: nat, kept: seq<Message>)
    requires Paired(ms) && k < |ms| && !ms[k].role.Tool? && |kept| == |ms| - k
    requires forall j :: k <= j < |ms| ==> Trimmed(ms[j], kept[j - k])
    ensures Paired(kept) && kept[0].role == ms[k].role
  {
    Seqs.Cut(ms, k);
    PairedPrefix(ms[..k], ms[k..]);
    PairedConcat(ms[..k], ms[k..]);
    forall j | 0 <= j < |kept| ensures Trimmed(ms[k..][j], kept[j]) {
      assert ms[k..][j] == ms[k + j];
    }
    TrimmedPairing(ms[k..], kept);
    assert Trimmed(ms[k], kept[0]);
  }

  lemma {:induction false} HeadThenTurns(head: seq<Message>, kept: seq<Message>)
    requires Clean(head) && Grounded(head) && Paired(kept) && kept != [] && !kept[0].role.Tool?
    ensures Paired(head + kept) <==> Pending(head) == {}
  {
    if Pending(head) == {} {
      PairedConcat(head, kept);
    } else {
      Seqs.Uncons(kept);
      Seqs.Assoc(head, [kept[0]], kept[1..]);
      Seqs.Snoc(head, kept[0]);
      if Clean(head + kept) {
        CleanPrefix(head + [kept[0]], kept[1..]);
      }
    }
  }

  lemma {:induction false} SameCut(out: seq<Message>, at: nat, q: nat)
    requires at < q <= |out|
    ensures var next := out[..at] + out[at + 1..];
            && next[..at] + next[q - 1..] == out[..at] + out[q..]
            && forall j :: at <= j < |next| ==> next[j] == out[j + 1]
  {
  }

  lemma {:induction false} DropResultsTo(out: seq<Message>, at: nat, q: nat)
    requires at <= q < |out| && (forall j :: at <= j < q ==> out[j].role.Tool?)
    requires out[q].role.Tool? ==> q == |out| - 1
    ensures DropResults(out, at) == out[..at] + out[q..]
    decreases |out|
  {
    if at == q {
      Seqs.Cut(out, at);
    } else {
      var next := out[..at] + out[at + 1..];
      SameCut(out, at, q);
      DropResultsTo(next, at, q - 1);
    }
  }

  lemma {:induction false} DropTurnTo(out: seq<Message>, at: nat, q: nat)
    requires at < q < |out| && (forall j :: at < j < q ==> out[j].role.Tool?)
    requires out[q].role.Tool? ==> q == |out| - 1
    ensures DropTurn(out, at) == out[..at] + out[q..]
  {
    var next := out[..at] + out[at + 1..];
    SameCut(out, at, q);
    DropResultsTo(next, at, q - 1);
  }

  lemma {:induction false} CharsConcat(a: seq<Message>, b: seq<Message>)
    ensures MessagesChars(a + b) == MessagesChars(a) + MessagesChars(b)
  {
    if a == [] {
      assert a + b == b;
    } else {
      assert (a + b)[1..] == a[1..] + b;
      CharsConcat(a[1..], b);
    }
  }

  lemma {:induction false} CutFits(out: seq<Message>, at: nat, q: nat)
    requires at <= q <= |out|
    ensures MessagesChars(out[..at] + out[q..]) <= MessagesChars(out)
  {
    CharsConcat(out[..at], out[q..]);
    CharsConcat(out[..at], out[at..]);
    SuffixShrinks(out, at, q);
    assert out == out[..at] + out[at..];
  }

  /** Dropping ends on a lone tool result exactly when the last turn has two results or more and does not fit. */
  lemma {:induction false} DropOrphans(out: seq<Message>, protect: nat, g: nat, budget: int)
    requires protect <= g && LastTurn(out, g) && !out[protect].role.Tool?
    ensures var r := DropOldest(out, protect, budget);
            && protect < |r|
            && (r[protect].role.Tool? <==> |out| - g >= 3 && MessagesChars(out[..protect] + out[g..]) > budget)
    decreases |out|
  {
    CutFits(out, protect, g);
    if MessagesChars(out) > budget && |out| > protect + 2 {
      var q := if g == protect then |out| - 1 else SkipTools(out, protect + 1);
      if g > protect {
        SkipToolsSkips(out, protect + 1);
      } else {
        assert out == out[..protect] + out[g..];
      }
      DropTurnTo(out, protect, q);
      var next := out[..protect] + out[q..];
      assert next[protect] == out[q];
      if g > protect {
        CutAgain(out, protect, q, g);
        DropOrphans(next, protect, protect + g - q, budget);
      }
    }
  }

  lemma {:induction false} CutAgain(out: seq<Message>, at: nat, q: nat, g: nat)
    requires at <= q <= g && LastTurn(out, g)
    ensures var next := out[..at] + out[q..];
            && LastTurn(next, at + g - q)
            && next[..at] + next[at + g - q..] == out[..at] + out[g..]
  {
  }

  /** Something is dropped after the elision. */
  predicate Drops(e: seq<Message>, protect: nat, budget: int) {
    MessagesChars(e) > budget && |e| > protect + 2
  }

  /** Dropping does not end before a single result is left past the protected part. */
  predicate LeavesLoneResult(e: seq<Message>, protect: nat, g: nat, budget: int)
    requires protect <= |e| && g <= |e|
  {
    |e| - Max(protect, g) >= 3 && MessagesChars(e[..protect] + e[Max(protect, g)..]) > budget
  }

  /** Where dropping ends, whatever the protected part ends on. */
  lemma {:induction false} DropEnds(out: seq<Message>, protect: nat, g: nat, budget: int)
    requires LastTurn(out, g) && Drops(out, protect, budget)
    ensures var r := DropOldest(out, protect, budget);
            protect < |r| < |out| && (r[protect].role.Tool? <==> LeavesLoneResult(out, protect, g, budget))
  {
    if protect < g {
      DropToTurns(out, protect, g, budget);
    } else {
      DropTurnTo(out, protect, |out| - 1);
      Seqs.Cut(out, protect);
    }
  }

  lemma {:induction false} DropToTurns(out: seq<Message>, protect: nat, g: nat, budget: int)
    requires LastTurn(out, g) && Drops(out, protect, budget) && protect < g
    ensures var r := DropOldest(out, protect, budget);
            protect < |r| < |out| && (r[protect].role.Tool? <==> LeavesLoneResult(out, protect, g, budget))
  {
    var q := SkipTools(out, protect + 1);
    SkipToolsSkips(out, protect + 1);
    DropTurnTo(out, protect, q);
    CutAgain(out, protect, q, g);
    DropOrphans(out[..protect] + out[q..], protect, protect + g - q, budget);
  }

  /** The last message that is not a tool result. */
  function LastTurnAt(ms: seq<Message>): nat
    requires ms != []
  {
    BackOverTools(ms, 0, |ms| - 1)
  }

  lemma {:induction false} LastTurnIs(ms: seq<Message>)
    requires ms != [] && Grounded(ms)
    ensures LastTurn(ms, LastTurnAt(ms))
  {
    BackOverToolsStops(ms, 0, |ms| - 1);
    GroundedAt(ms, 0);
  }

  /** What a caller can tell beforehand: the protected part leaves no call open, or only the one the last result answers. */
  predicate KeepsPairing(ms: seq<Message>, protect: nat, budget: int) {
    var e := Elided(ms, protect, budget);
    Drops(e, protect, budget) ==>
      if LeavesLoneResult(e, protect, LastTurnAt(ms), budget) then MayFollow(ms[..protect], ms[|ms| - 1])
      else Pending(ms[..protect]) == {}
  }

  /** A paired request is paired after shrinking exactly when `KeepsPairing` says so, whatever part of it is protected. */
  lemma {:induction false} ShrinkPairing(ms: seq<Message>, protect: nat, budget: int)
    requires Paired(ms)
    ensures Paired(Shrunk(ms, protect, budget)) <==> KeepsPairing(ms, protect, budget)
  {
    if Drops(Elided(ms, protect, budget), protect, budget) {
      var k := DroppedTo(ms, protect, budget);
      KeptPairing(ms, protect, k, Shrunk(ms, protect, budget));
    } else {
      ElidedPairing(ms, protect, budget);
    }
  }

  /** Which message comes first after a drop. */
  lemma {:induction false} DroppedTo(ms: seq<Message>, protect: nat, budget: int) returns (k: nat)
    requires Paired(ms) && Drops(Elided(ms, protect, budget), protect, budget)
    ensures k < |ms| && KeepsFrom(ms, protect, k, Shrunk(ms, protect, budget)) && (ms[k].role.Tool? ==> k == |ms| - 1)
    ensures ms[k].role.Tool? <==> LeavesLoneResult(Elided(ms, protect, budget), protect, LastTurnAt(ms), budget)
  {
    LastTurnIs(ms);
    SameLastTurn(ms, protect, budget, LastTurnAt(ms));
    DropEnds(Elided(ms, protect, budget), protect, LastTurnAt(ms), budget);
    k := ShrinkKeepsSuffix(ms, protect, budget);
    assert Trimmed(ms[k], Shrunk(ms, protect, budget)[protect + k - k]);
  }

  lemma {:induction false} SameLastTurn(ms: seq<Message>, protect: nat, budget: int, g: nat)
    requires LastTurn(ms, g) && protect <= |ms|
    ensures LastTurn(Elided(ms, protect, budget), g)
  {
    ElidedKeepsRoles(ms, protect, budget);
    var e := Elided(ms, protect, budget);
    forall j | 0 <= j < |ms| ensures e[j].role == ms[j].role {
      assert j < protect ==> e[..protect][j] == ms[..protect][j];
    }
  }

  lemma {:induction false} ElidedPairing(ms: seq<Message>, protect: nat, budget: int)
    ensures Paired(Elided(ms, protect, budget)) <==> Paired(ms)
  {
    if protect <= |ms| {
      ElidedKeepsRoles(ms, protect, budget);
      var e := Elided(ms, protect, budget);
      forall j | 0 <= j < |ms| ensures Trimmed(ms[j], e[j]) {
        assert j < protect ==> e[..protect][j] == ms[..protect][j];
      }
      TrimmedPairing(ms, e);
    }
  }

  /** The last message is never dropped: an open call stays open. */
  lemma {:induction false} OpenStaysOpen(ms: seq<Message>, protect: nat, budget: int)
    requires ms != [] && protect <= |ms| && ms[|ms| - 1].role.Assistant? && CallIds(ms[|ms| - 1]) != {}
    ensures var out := Shrunk(ms, protect, budget);
            && out != [] && out[|out| - 1].role.Assistant? && CallIds(out[|out| - 1]) != {}
            && protect <= |out| && !Paired(out)
  {
    var k := ShrinkKeepsSuffix(ms, protect, budget);
    OpenLast(ms, protect, k, Shrunk(ms, protect, budget));
  }

  lemma {:induction false} OpenLast(ms: seq<Message>, protect: nat, k: nat, out: seq<Message>)
    requires ms != [] && KeepsFrom(ms, protect, k, out) && (protect < |ms| ==> k < |ms|)
    requires ms[|ms| - 1].role.Assistant? && CallIds(ms[|ms| - 1]) != {}
    ensures out != [] && out[|out| - 1].role.Assistant? && CallIds(out[|out| - 1]) != {}
    ensures protect <= |out| && !Paired(out)
  {
    LastOfSuffix(ms, protect, k, out);
    assert CallIds(out[|out| - 1]) == CallIds(ms[|ms| - 1]);
    assert Pending(out) != {};
  }

  lemma {:induction false} LastOfSuffix(ms: seq<Message>, protect: nat, k: nat, out: seq<Message>)
    requires ms != [] && KeepsFrom(ms, protect, k, out) && (protect < |ms| ==> k < |ms|)
    ensures out != [] && protect <= |out| && Trimmed(ms[|ms| - 1], out[|out| - 1])
  {
    if protect == |ms| {
      assert out == out[..protect] == ms[..protect] == ms;
    } else {
      assert Trimmed(ms[|ms| - 1], out[protect + (|ms| - 1) - k]);
    }
  }

  /** With nothing open in the protected part, a lone result is all that can go wrong. */
  lemma {:induction false} ClosedHeadPairing(ms: seq<Message>, protect: nat, budget: int)
    requires Paired(ms) && ms != [] && protect <= |ms| && OpenCalls(ms[..protect]) == {}
    ensures Paired(Shrunk(ms, protect, budget)) <==>
              !LeavesLoneResult(Elided(ms, protect, budget), protect, LastTurnAt(ms), budget)
  {
    var e, g := Elided(ms, protect, budget), LastTurnAt(ms);
    ShrinkPairing(ms, protect, budget);
    PendingIsOpen(ms[..protect]);
    CutFits(e, protect, Max(protect, g));
  }

  lemma {:induction false} ElidedKeepsRoles(ms: seq<Message>, protect: nat, budget: int)
    requires protect <= |ms|
    ensures KeepsFrom(ms, protect, protect, Elided(ms, protect, budget))
    ensures forall j :: protect <= j < |ms| ==> Elided(ms, protect, budget)[j].role == ms[j].role
  {
    var p1 := ElidePass(ms, protect, 8000, budget);
    var p2 := ElidePass(p1, protect, 2000, budget);
    PassTrims(ms, ms, protect, protect, 8000, budget);
    PassTrims(ms, p1, protect, protect, 2000, budget);
    PassTrims(ms, p2, protect, protect, 400, budget);
    var e := Elided(ms, protect, budget);
    forall j | protect <= j < |ms| ensures e[j].role == ms[j].role {
      assert Trimmed(ms[j], e[protect + j - protect]);
    }
  }

  const TWO_RESULT_TURN := [
    Message(User, "t"),
    Message(Assistant, "", calls := ["a", "b"]),
    Message(Tool, "x", answers := "a"),
    Message(Tool, "y", answers := "b")]

  lemma {:induction false} TwoResultTurnPaired()
    ensures Paired(TWO_RESULT_TURN)
  {
    var ms := TWO_RESULT_TURN;
    assert ms[..3][..2] == ms[..2] && ms[..2][..1] == ms[..1] && ms[..1][..0] == [];
    assert CallIds(ms[1]) == {"a", "b"};
    assert Pending(ms[..3]) == {"b"};
    assert Clean(ms[..2]) && Grounded(ms[..2]);
    assert Clean(ms[..3]) && Grounded(ms[..3]);
  }

  /** Two results too long for the budget: the request ends on a result whose call is gone. */
  lemma {:induction false} ShrinkCanOrphan()
    ensures Paired(TWO_RESULT_TURN)
    ensures Shrunk(TWO_RESULT_TURN, 1, 0) == [TWO_RESULT_TURN[0], TWO_RESULT_TURN[3]]
    ensures !Paired(Shrunk(TWO_RESULT_TURN, 1, 0))
  {
    var ms := TWO_RESULT_TURN;
    TwoResultTurnPaired();
    NoPass(ms, 1, 8000, 0);
    NoPass(ms, 1, 2000, 0);
    NoPass(ms, 1, 400, 0);
    TwoResultTurnDropped();
    LoneResult(ms[0], ms[3]);
  }

  lemma {:induction false} TwoResultTurnDropped()
    ensures DropOldest(TWO_RESULT_TURN, 1, 0) == [TWO_RESULT_TURN[0], TWO_RESULT_TURN[3]]
  {
    var ms := TWO_RESULT_TURN;
    DropTurnTo(ms, 1, 3);
    assert ms[..1] + ms[3..] == [ms[0], ms[3]];
    assert MessagesChars(ms) > 0;
  }

  lemma {:induction false} LoneResult(task: Message, result: Message)
    requires task.role.User? && result.role.Tool?
    ensures !Paired([task, result])
  {
    if Grounded([task, result]) {
      GroundedAt([task, result], 1);
    }
  }

  lemma {:induction false} NoPass(ms: seq<Message>, i: nat, maxChars: nat, budget: int)
    requires forall m :: m in ms ==> |m.text| <= maxChars
    ensures ElidePass(ms, i, maxChars, budget) == ms
    decreases |ms| - i
  {
    if i < |ms| {
      assert ms[i := Elide(ms[i], maxChars)] == ms;
      NoPass(ms, i + 1, maxChars, budget);
    }
  }
}
