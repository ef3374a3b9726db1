/** The chain of models that take over after a provider failure. */
module Fallback {
  import opened Transcript
  import Seqs

  function Position(chain: seq<string>, name: string): (r: nat)
    ensures r <= |chain|
    ensures name in chain <==> r < |chain|
    ensures r < |chain| ==> chain[r] == name
  {
    if chain == [] || chain[0] == name then 0 else 1 + Position(chain[1..], name)
  }

  /** Where the chain goes on after the current model: behind its first place, or from the top. */
  function Resume(chain: seq<string>, current: string): (r: nat)
    ensures r <= |chain|
  {
    if current in chain then Position(chain, current) + 1 else 0
  }

  function FirstUntried(chain: seq<string>, tried: set<string>): (r: Option<string>)
    ensures r.Some? ==> r.value in chain && r.value !in tried
    ensures r.None? <==> forall m :: m in chain ==> m in tried
  {
    if chain == [] then None
    else if chain[0] !in tried then Some(chain[0])
    else FirstUntried(chain[1..], tried)
  }

  function NextModel(chain: seq<string>, current: string, tried: set<string>): Option<string> {
    FirstUntried(chain[Resume(chain, current)..], tried + {current})
  }

  function Names(chain: seq<string>): set<string> {
    set m | m in chain
  }

  /** What happens when a fallback takes over the call. */
  datatype Attempt = CannotBuild | Answers | Overflows | FailsAgain

  /** How the loop over the chain ends. */
  datatype Ending = Answered | Overflowed | Exhausted

  class Chain {
    const chain: seq<string>
    var requestedModel: string
    var fallbacksTried: set<string>

    constructor (chain: seq<string>, model: string)
      ensures this.chain == chain && requestedModel == model && fallbacksTried == {}
    {
      this.chain := chain;
      requestedModel, fallbacksTried := model, {};
    }

    /** The next model of the chain that this run has not tried, which is then counted as tried. */
    method NextFallbackModel() returns (next: Option<string>)
      modifies this`fallbacksTried
      ensures next == NextModel(chain, requestedModel, old(fallbacksTried))
      ensures next.Some? ==> next.value in chain && next.value !in old(fallbacksTried) && next.value != requestedModel
      ensures fallbacksTried == old(fallbacksTried) + {requestedModel} + (if next.Some? then {next.value} else {})
    {
      fallbacksTried := fallbacksTried + {requestedModel};
      var i := Resume(chain, requestedModel);
      ghost var left := FirstUntried(chain[i..], fallbacksTried);
      while i < |chain| && chain[i] in fallbacksTried
        invariant i <= |chain| && FirstUntried(chain[i..], fallbacksTried) == left
      {
        assert chain[i..][1..] == chain[i + 1..];
        i := i + 1;
      }
      if i < |chain| {
        next := Some(chain[i]);
        fallbacksTried := fallbacksTried + {chain[i]};
      } else {
        next := None;
      }
    }

    /**
      The failure loop: every pass takes a model of the chain that was never tried, whether or not its
      client can be built, so it ends, and gives up only when the rest of the chain has been tried.
     */
    method TakeOver(attempt: string -> Attempt) returns (tried: seq<string>, ending: Ending)
      modifies this
      ensures Progress(tried, chain, old(fallbacksTried), fallbacksTried)
      ensures ending.Exhausted? ==> forall m :: m in chain[Resume(chain, requestedModel)..] ==> m in fallbacksTried
      ensures Ends(tried, attempt, ending)
      ensures requestedModel == LastBuilt(old(requestedModel), tried, attempt)
    {
      tried := [];
      while true
        invariant Progress(tried, chain, old(fallbacksTried), fallbacksTried) && AllPassedOn(tried, attempt)
        invariant requestedModel == LastBuilt(old(requestedModel), tried, attempt)
        decreases |Names(chain) - fallbacksTried|
      {
        ghost var before := fallbacksTried;
        var next := NextFallbackModel();
        if next.None? {
          ending := Exhausted;
          ProgressOn(tried, chain, old(fallbacksTried), before, fallbacksTried);
          return;
        }
        ProgressMore(tried, chain, old(fallbacksTried), before, fallbacksTried, next.value);
        OneMoreTried(tried, next.value, attempt, old(requestedModel));
        tried := tried + [next.value];
        match attempt(next.value) {
          case CannotBuild =>
          case Answers =>
            requestedModel := next.value;
            ending := Answered;
            return;
          case Overflows =>
            requestedModel := next.value;
            ending := Overflowed;
            return;
          case FailsAgain =>
            requestedModel := next.value;
        }
      }
    }
  }

  /** The models tried are of the chain, none of them tried before, each once; so there is an end to them. */
  ghost predicate Progress(tried: seq<string>, chain: seq<string>, was: set<string>, now: set<string>) {
    && was <= now
    && (forall i, j :: 0 <= i < j < |tried| ==> tried[i] != tried[j])
    && (forall m :: m in tried ==> m in chain && m !in was && m in now)
    && |tried| + |Names(chain) - now| <= |Names(chain) - was|
  }

  lemma {:induction false} ProgressOn(tried: seq<string>, chain: seq<string>, was: set<string>, now: set<string>, next: set<string>)
    requires Progress(tried, chain, was, now) && now <= next
    ensures Progress(tried, chain, was, next)
  {
    Smaller(Names(chain) - next, Names(chain) - now);
  }

  lemma {:induction false} ProgressMore(tried: seq<string>, chain: seq<string>, was: set<string>, now: set<string>, next: set<string>, m: string)
    requires Progress(tried, chain, was, now) && now <= next && m in chain && m !in now && m in next
    ensures Progress(tried + [m], chain, was, next) && |Names(chain) - next| < |Names(chain) - now|
  {
    var before, left := Names(chain) - now, Names(chain) - next;
    assert left <= before - {m} && |before - {m}| == |before| - 1;
    Smaller(left, before - {m});
  }

  /** The next model takes over. */
  predicate PassedOn(a: Attempt) {
    a.CannotBuild? || a.FailsAgain?
  }

  predicate AllPassedOn(tried: seq<string>, attempt: string -> Attempt) {
    forall i :: 0 <= i < |tried| ==> PassedOn(attempt(tried[i]))
  }

  /** The loop ends with the first model that answers or overflows, or when the next model always had to take over. */
  predicate Ends(tried: seq<string>, attempt: string -> Attempt, ending: Ending) {
    if ending.Exhausted? then AllPassedOn(tried, attempt)
    else
      && tried != [] && AllPassedOn(tried[..|tried| - 1], attempt)
      && if ending.Answered? then attempt(tried[|tried| - 1]).Answers? else attempt(tried[|tried| - 1]).Overflows?
  }

  lemma {:induction false} OneMoreTried(tried: seq<string>, m: string, attempt: string -> Attempt, current: string)
    requires AllPassedOn(tried, attempt)
    ensures LastBuilt(current, tried + [m], attempt) == if attempt(m).CannotBuild? then LastBuilt(current, tried, attempt) else m
    ensures PassedOn(attempt(m)) ==> AllPassedOn(tried + [m], attempt)
    ensures attempt(m).Answers? ==> Ends(tried + [m], attempt, Answered)
    ensures attempt(m).Overflows? ==> Ends(tried + [m], attempt, Overflowed)
  {
    Seqs.Snoc(tried, m);
  }

  /** The model that is current after these attempts: the last one whose client could be built. */
  function LastBuilt(current: string, tried: seq<string>, attempt: string -> Attempt): string {
    if tried == [] then current
    else if attempt(tried[|tried| - 1]).CannotBuild? then LastBuilt(current, tried[..|tried| - 1], attempt)
    else tried[|tried| - 1]
  }

  lemma {:induction false} Smaller(a: set<string>, b: set<string>)
    requires a <= b
    ensures |a| <= |b|
  {
    assert b == a + (b - a);
  }

  /**
    Where the next model stands: behind the first place of the current one, or anywhere when the chain does
    not name it, and everything passed over was tried. `k` at the end of the chain means there is none.
   */
  lemma {:induction false} NextModelIs(chain: seq<string>, current: string, tried: set<string>) returns (from: nat, k: nat)
    ensures from <= k <= |chain|
    ensures if current in chain then from > 0 && chain[from - 1] == current && current !in chain[..from - 1] else from == 0
    ensures forall i :: from <= i < k ==> chain[i] in tried || chain[i] == current
    ensures k < |chain| ==> chain[k] !in tried && chain[k] != current
    ensures NextModel(chain, current, tried) == if k < |chain| then Some(chain[k]) else None
  {
    from := Resume(chain, current);
    if current in chain {
      PositionIsFirst(chain, current);
    }
    var n := FirstUntriedIs(chain[from..], tried + {current});
    k := from + n;
    InChain(chain, from, n);
  }

  lemma {:induction false} InChain(chain: seq<string>, from: nat, n: nat)
    requires from <= |chain| && n <= |chain[from..]|
    ensures forall i :: from <= i < from + n ==> chain[i] == chain[from..][i - from]
    ensures n < |chain[from..]| ==> chain[from + n] == chain[from..][n]
  {
  }

  lemma {:induction false} PositionIsFirst(chain: seq<string>, name: string)
    ensures name !in chain[..Position(chain, name)]
  {
    if chain != [] && chain[0] != name {
      PositionIsFirst(chain[1..], name);
      var p := Position(chain[1..], name);
      assert chain[..p + 1] == [chain[0]] + chain[1..][..p];
    }
  }

  lemma {:induction false} FirstUntriedIs(chain: seq<string>, tried: set<string>) returns (n: nat)
    ensures n <= |chain| && (forall i :: 0 <= i < n ==> chain[i] in tried) && (n < |chain| ==> chain[n] !in tried)
    ensures FirstUntried(chain, tried) == if n < |chain| then Some(chain[n]) else None
  {
    n := 0;
    if chain != [] && chain[0] in tried {
      var m := FirstUntriedIs(chain[1..], tried);
      n := m + 1;
      assert forall i :: 1 <= i < n ==> chain[i] == chain[1..][i - 1];
      assert n < |chain| ==> chain[n] == chain[1..][m];
    }
  }

  // ---- over a whole run ------------------------------------------------------------

  /** The models the chain hands out in a run, whatever model is current at each failure (switches included). */
  function HandedOut(chain: seq<string>, currents: seq<string>, tried: set<string>): seq<string>
    decreases |currents|
  {
    if currents == [] then []
    else
      var next := NextModel(chain, currents[0], tried);
      var tried' := tried + {currents[0]} + (if next.Some? then {next.value} else {});
      (if next.Some? then [next.value] else []) + HandedOut(chain, currents[1..], tried')
  }

  /** No model is handed out twice in a run, and never more than the chain names. */
  lemma {:induction false} NeverTwice(chain: seq<string>, currents: seq<string>, tried: set<string>)
    ensures var out := HandedOut(chain, currents, tried);
            && (forall i, j :: 0 <= i < j < |out| ==> out[i] != out[j])
            && (forall m :: m in out ==> m in chain && m !in tried)
            && |out| <= |Names(chain) - tried|
    decreases |currents|
  {
    if currents != [] {
      var next := NextModel(chain, currents[0], tried);
      var tried' := tried + {currents[0]} + (if next.Some? then {next.value} else {});
      NeverTwice(chain, currents[1..], tried');
      var left, before := Names(chain) - tried', Names(chain) - tried;
      if next.Some? {
        Smaller(left, before - {next.value});
      } else {
        Smaller(left, before);
      }
    }
  }
}
