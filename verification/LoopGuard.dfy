/** The guard that stops a model from repeating one action for ever. */
module LoopGuard {

  const LIMIT: nat := 12

  /** The signature of the previous action step and how often it has been repeated. */
  datatype Streak = Streak(signature: string, repeats: nat)

  function Counted(s: Streak, signature: string): Streak {
    Streak(signature, if signature != "" && signature == s.signature then s.repeats + 1 else 0)
  }

  /** An action step: its signature, and whether the judge is on (then the streak starts over after a cut). */
  datatype Action = Action(signature: string, judged: bool)

  predicate Executes(s: Streak, a: Action) {
    Counted(s, a.signature).repeats < LIMIT
  }

  function Next(s: Streak, a: Action): Streak {
    if !Executes(s, a) && a.judged then Streak("", 0) else Counted(s, a.signature)
  }

  class Guard {
    var lastActionSig: string
    var repeatStreak: nat

    constructor ()
      ensures Value() == Streak("", 0)
    {
      lastActionSig, repeatStreak := "", 0;
    }

    function Value(): Streak
      reads this
    {
      Streak(lastActionSig, repeatStreak)
    }

    /** Whether the step's actions run; if not, it is cut, or interrupted and counted from zero. */
    method Admit(a: Action) returns (runs: bool)
      modifies this
      ensures runs == Executes(old(Value()), a) && Value() == Next(old(Value()), a)
    {
      if a.signature != "" && a.signature == lastActionSig {
        repeatStreak := repeatStreak + 1;
      } else {
        repeatStreak := 0;
      }
      lastActionSig := a.signature;
      runs := repeatStreak < LIMIT;
      if !runs && a.judged {
        repeatStreak := 0;
        lastActionSig := "";
      }
    }
  }

  /** The streak before action step `n` of a run. */
  function Before(start: Streak, run: seq<Action>, n: nat): Streak
    requires n <= |run|
  {
    if n == 0 then start else Next(Before(start, run, n - 1), run[n - 1])
  }

  predicate Ran(start: Streak, run: seq<Action>, i: nat)
    requires i < |run|
  {
    Executes(Before(start, run, i), run[i])
  }

  /** `k` steps in a row from `i` on were executed with one signature: the streak counted every one of them. */
  lemma {:induction false} StreakCounts(start: Streak, run: seq<Action>, i: nat, k: nat)
    requires 1 <= k && i + k <= |run| && run[i].signature != ""
    requires forall j :: i <= j < i + k ==> run[j].signature == run[i].signature && Ran(start, run, j)
    ensures Before(start, run, i + k).signature == run[i].signature
    ensures k - 1 <= Before(start, run, i + k).repeats < LIMIT
    decreases k
  {
    var last := i + k - 1;
    assert Ran(start, run, last);
    if k > 1 {
      StreakCounts(start, run, i, k - 1);
    }
  }

  /** In every run, of thirteen action steps in a row with one signature at least one is not executed. */
  lemma {:induction false} ThirteenNeverRun(start: Streak, run: seq<Action>, i: nat)
    requires i + LIMIT + 1 <= |run| && run[i].signature != ""
    requires forall j :: i <= j <= i + LIMIT ==> run[j].signature == run[i].signature
    ensures exists j :: i <= j <= i + LIMIT && !Ran(start, run, j)
  {
    if forall j :: i <= j <= i + LIMIT ==> Ran(start, run, j) {
      StreakCounts(start, run, i, LIMIT + 1);
    }
  }

  /** The guard is no stricter than that: wherever a signature changes, twelve identical steps are executed, and the thirteenth is not. */
  lemma {:induction false} TwelveRun(start: Streak, run: seq<Action>, i: nat, k: nat)
    requires i + k < |run| && k <= 12 && run[i].signature != "" && Before(start, run, i).signature != run[i].signature
    requires forall j :: i <= j <= i + k ==> run[j].signature == run[i].signature
    ensures Ran(start, run, i + k) <==> k < 12
    ensures k < 12 ==> Before(start, run, i + k + 1) == Streak(run[i].signature, k)
  {
    if k > 0 {
      TwelveRun(start, run, i, k - 1);
    }
  }

  /** The streak is over after a step with another signature, and after a cut that a judge answers for; a step without one always runs. */
  lemma {:induction false} StreakEnds(s: Streak, a: Action)
    ensures a.signature != s.signature || a.signature == "" ==> Executes(s, a) && Next(s, a) == Streak(a.signature, 0)
    ensures !Executes(s, a) ==> Next(s, a) == (if a.judged then Streak("", 0) else Streak(s.signature, s.repeats + 1))
  {
  }
}
