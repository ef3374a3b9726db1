/** Choosing what a compaction keeps. */
module Compaction {
  import opened Transcript
  import opened Numbers

  /** How long a message is when sent, in code points. */
  function MessageChars(m: Message): nat {
    |m.text| + 16 + (if m.calls != [] then m.callChars else 0)
  }

  function MessagesChars(ms: seq<Message>): nat {
    if ms == [] then 0 else MessageChars(ms[0]) + MessagesChars(ms[1..])
  }

  // ---- the head --------------------------------------------------------------------

  function SystemPrefix(ms: seq<Message>): (n: nat)
    ensures n <= |ms|
    ensures forall i :: 0 <= i < n ==> ms[i].role.System?
    ensures n < |ms| ==> !ms[n].role.System?
  {
    if ms == [] || !ms[0].role.System? then 0 else 1 + SystemPrefix(ms[1..])
  }

  /** The part kept at the front: the system messages, and the task behind them if it is short enough. */
  function HeadLength(ms: seq<Message>, maxChars: int): (n: nat)
    ensures n <= |ms|
    ensures forall i :: 0 <= i < n ==> ms[i].role.System? || ms[i].role.User?
  {
    var n := SystemPrefix(ms);
    if n < |ms| && ms[n].role.User? && MessageChars(ms[n]) <= maxChars then n + 1 else n
  }

  method ComputeHeadLength(ms: seq<Message>, maxChars: int) returns (n: nat)
    ensures n == HeadLength(ms, maxChars)
  {
    n := 0;
    while n < |ms| && ms[n].role.System?
      invariant n <= |ms|
      invariant forall i :: 0 <= i < n ==> ms[i].role.System?
    {
      n := n + 1;
    }
    assert n == SystemPrefix(ms);
    if n < |ms| && ms[n].role.User? && MessageChars(ms[n]) <= maxChars {
      n := n + 1;
    }
  }

  // ---- the tail --------------------------------------------------------------------

  /** Walk back from `start` while the suffix fits. */
  function FitStart(ms: seq<Message>, lower: nat, keep: int, start: nat): (r: nat)
    requires start <= |ms|
    ensures r <= start && (lower <= start ==> lower <= r)
  {
    if start > lower && MessagesChars(ms[start - 1..]) <= keep then FitStart(ms, lower, keep, start - 1) else start
  }

  /** Walk forward over tool results. */
  function SkipTools(ms: seq<Message>, start: nat): (r: nat)
    requires start <= |ms|
    ensures start <= r <= |ms|
    decreases |ms| - start
  {
    if start < |ms| && ms[start].role.Tool? then SkipTools(ms, start + 1) else start
  }

  /** Walk back over tool results. */
  function BackOverTools(ms: seq<Message>, lower: nat, start: nat): (r: nat)
    requires start < |ms| || start == 0
    ensures r <= start
  {
    if start > lower && ms[start].role.Tool? then BackOverTools(ms, lower, start - 1) else start
  }

  function TailStart(ms: seq<Message>, lower: nat, keep: int): nat {
    var start := SkipTools(ms, FitStart(ms, lower, keep, |ms|));
    if start < |ms| then Max(start, lower)
    else Max(BackOverTools(ms, lower, Max(|ms| - 1, 0)), lower)
  }

  method ComputeTailStart(ms: seq<Message>, lower: nat, keep: int) returns (r: nat)
    ensures r == TailStart(ms, lower, keep)
  {
    var start := WalkBack(ms, lower, keep);
    ghost var fit := start;
    while start < |ms| && ms[start].role.Tool?
      invariant 0 <= start <= |ms|
      invariant SkipTools(ms, start) == SkipTools(ms, fit)
    {
      start := start + 1;
    }
    if start >= |ms| {
      start := Max(|ms| - 1, 0);
      while start > lower && ms[start].role.Tool?
        invariant 0 <= start < |ms| || start == 0
        invariant BackOverTools(ms, lower, start) == BackOverTools(ms, lower, Max(|ms| - 1, 0))
      {
        start := start - 1;
      }
    }
    r := Max(start, lower);
  }

  /** The first loop: how far back the messages fit, with their running total. */
  method WalkBack(ms: seq<Message>, lower: nat, keep: int) returns (start: nat)
    ensures start == FitStart(ms, lower, keep, |ms|)
  {
    start := |ms|;
    var total := 0;
    while start > lower && total + MessageChars(ms[start - 1]) <= keep
      invariant 0 <= start <= |ms|
      invariant total == MessagesChars(ms[start..])
      invariant FitStart(ms, lower, keep, start) == FitStart(ms, lower, keep, |ms|)
    {
      SuffixStep(ms, start);
      start := start - 1;
      total := total + MessageChars(ms[start]);
    }
    if start > lower {
      SuffixStep(ms, start);
    }
  }

  lemma {:induction false} SuffixStep(ms: seq<Message>, start: nat)
    requires 0 < start <= |ms|
    ensures MessagesChars(ms[start - 1..]) == MessageChars(ms[start - 1]) + MessagesChars(ms[start..])
  {
    assert ms[start - 1..][1..] == ms[start..];
  }

  /** A place where the tail may begin, with everything from there on within `keep`. */
  predicate Fits(ms: seq<Message>, s: nat, keep: int)
    requires s < |ms|
  {
    !ms[s].role.Tool? && MessagesChars(ms[s..]) <= keep
  }

  /**
    The tail is the longest suffix past `lower` that fits and does not open on a tool result; when no
    such suffix exists it is the last message that is not a tool result, with the results after it.
   */
  lemma {:induction false} TailIsLongestFit(ms: seq<Message>, lower: nat, keep: int)
    requires lower <= |ms|
    ensures var r := TailStart(ms, lower, keep);
            && lower <= r <= |ms|
            && (r == |ms| <==> lower == |ms|)
            && (forall s :: lower <= s < r ==> !Fits(ms, s, keep))
            && (r < |ms| && !Fits(ms, r, keep) ==>
                  && (forall s :: r < s < |ms| ==> ms[s].role.Tool?)
                  && (ms[r].role.Tool? ==> r == lower))
  {
    var fit := FitStart(ms, lower, keep, |ms|);
    FitStartIsLeast(ms, lower, keep, |ms|);
    SkipToolsSkips(ms, fit);
    if SkipTools(ms, fit) < |ms| {
      SuffixShrinks(ms, fit, SkipTools(ms, fit));
    } else if |ms| > 0 {
      BackOverToolsStops(ms, lower, |ms| - 1);
    }
  }

  lemma {:induction false} FitStartIsLeast(ms: seq<Message>, lower: nat, keep: int, start: nat)
    requires lower <= start <= |ms|
    requires start < |ms| ==> MessagesChars(ms[start..]) <= keep
    ensures var r := FitStart(ms, lower, keep, start);
            && (r < |ms| ==> MessagesChars(ms[r..]) <= keep)
            && (forall s :: lower <= s < r ==> MessagesChars(ms[s..]) > keep)
  {
    if start > lower {
      if MessagesChars(ms[start - 1..]) <= keep {
        FitStartIsLeast(ms, lower, keep, start - 1);
      } else {
        forall s | lower <= s < start ensures MessagesChars(ms[s..]) > keep {
          SuffixShrinks(ms, s, start - 1);
        }
      }
    }
  }

  lemma {:induction false} SuffixShrinks(ms: seq<Message>, a: nat, b: nat)
    requires a <= b <= |ms|
    ensures MessagesChars(ms[b..]) <= MessagesChars(ms[a..])
    decreases b - a
  {
    if a < b {
      assert ms[a..][1..] == ms[a + 1..];
      SuffixShrinks(ms, a + 1, b);
    }
  }

  lemma {:induction false} SkipToolsSkips(ms: seq<Message>, start: nat)
    requires start <= |ms|
    ensures var r := SkipTools(ms, start);
            && (forall s :: start <= s < r ==> ms[s].role.Tool?)
            && (r < |ms| ==> !ms[r].role.Tool?)
    decreases |ms| - start
  {
    if start < |ms| && ms[start].role.Tool? {
      SkipToolsSkips(ms, start + 1);
    }
  }

  lemma {:induction false} BackOverToolsStops(ms: seq<Message>, lower: nat, start: nat)
    requires start < |ms|
    ensures var r := BackOverTools(ms, lower, start);
            && (forall s :: r < s <= start ==> ms[s].role.Tool?)
            && (r > lower ==> !ms[r].role.Tool?)
            && (start >= lower ==> r >= lower)
  {
    if start > lower && ms[start].role.Tool? {
      BackOverToolsStops(ms, lower, start - 1);
    }
  }

  /** In a grounded history whose protected part ends on a system or user message, the tail never opens on a tool result. */
  lemma {:induction false} TailOpensOnNoResult(ms: seq<Message>, lower: nat, keep: int)
    requires lower <= |ms| && Grounded(ms)
    requires lower > 0 ==> ms[lower - 1].role.System? || ms[lower - 1].role.User?
    ensures var r := TailStart(ms, lower, keep); r < |ms| ==> !ms[r].role.Tool?
  {
    TailIsLongestFit(ms, lower, keep);
    var r := TailStart(ms, lower, keep);
    if r < |ms| && ms[r].role.Tool? {
      assert r == lower;
      GroundedAt(ms, lower);
      assert false;
    }
  }

  lemma {:induction false} GroundedAt(ms: seq<Message>, i: nat)
    requires Grounded(ms) && i < |ms|
    ensures ms[i].role.Tool? ==> ms[i].answers in OpenCalls(ms[..i])
  {
    if i == |ms| - 1 {
    } else {
      var init := ms[..|ms| - 1];
      GroundedAt(init, i);
      assert init[..i] == ms[..i];
    }
  }
}
