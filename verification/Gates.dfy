/** The two gates a proposed success passes: the task's own checker and the judge. */
module Gates {
  import opened Transcript
  import opened Numbers
  import Seqs

  /** The checker found at the start of the run; the hash is empty when it could not be computed. */
  datatype Checker = Checker(path: string, hash: string)

  /** What running the checker showed: its code, an explicit failure line, an independent PASS line. */
  datatype Output = Output(returncode: Option<int>, failureLine: bool, passLine: bool)

  datatype Ran = Ran(output: Output) | SubmitMarker | RunStopped

  /** One answer of the judge; `Halt` is a stop signal while it is asked or waited for. */
  datatype Reply = Complete | Incomplete(gap: set<string>) | Unavailable | Halt

  /** What becomes of a proposed success. */
  datatype Verdict = Accepted | SentBack | Failed

  /** The counters of a run. */
  datatype Gate = Gate(
    checker: Option<Checker>, closed: bool, failures: nat, rejections: nat, errors: nat, lastGap: set<string>)

  predicate NeedsPassLine(path: string) {
    path == "./verify.sh" || Seqs.EndsWith(path, "/verify.sh")
  }

  /** An exit code of 0 is not enough: no failure line, and `verify.sh` must print PASS on a line of its own. */
  predicate CheckerPassed(path: string, o: Output) {
    && o.returncode == Some(0)
    && !o.failureLine
    && (NeedsPassLine(path) ==> o.passLine)
  }

  // ---- the checker -----------------------------------------------------------------

  function RejectTask(g: Gate, cap: nat): (Gate, Verdict) {
    var failures := g.failures + 1;
    (g.(failures := failures), if cap > 0 && failures >= cap then Failed else SentBack)
  }

  function CheckTask(g: Gate, cap: nat, hashNow: string, ran: Ran): (Gate, Verdict) {
    if g.closed || g.checker.None? then (g, Accepted)
    else
      var c := g.checker.value;
      if c.hash == "" || hashNow != c.hash then RejectTask(g, cap)
      else
        match ran
        case Ran(o) => if CheckerPassed(c.path, o) then (g, Accepted) else RejectTask(g, cap)
        case SubmitMarker => RejectTask(g, cap)
        case RunStopped => (g, Accepted)
  }

  /** How a part is joined to those before it: `;`, a line end, `|` or `&` (the later decides), `&&`, or `||`. */
  datatype Join = Then | And | Or

  /** A command in its parts, each naming the checker or not. */
  datatype Shape = One(isChecker: bool) | Joined(before: Shape, join: Join, isChecker: bool)

  predicate Names(c: Shape) {
    c.isChecker || (c.Joined? && Names(c.before))
  }

  /** A step's last command, the output it shows as a whole, and what an eager run of the checker shows. */
  datatype Glance = Glance(enabled: bool, hashNow: string, command: Option<Shape>, output: Output, eager: Option<Ran>)

  predicate NamesChecker(v: Glance) {
    v.command.Some? && Names(v.command.value)
  }

  /** The command names the checker and as a whole looks like a pass, or an eager run of the checker passes. */
  predicate LookPasses(path: string, v: Glance) {
    if NamesChecker(v) then CheckerPassed(path, v.output)
    else v.eager.Some? && v.eager.value.Ran? && CheckerPassed(path, v.eager.value.output)
  }

  predicate ClosesFast(g: Gate, v: Glance) {
    && !g.closed && v.enabled && g.checker.Some? && v.hashNow == g.checker.value.hash
    && LookPasses(g.checker.value.path, v)
  }

  function GlanceAt(g: Gate, v: Glance): Gate {
    if ClosesFast(g, v) then g.(closed := true) else g
  }

  // ---- the judge -------------------------------------------------------------------

  /** The judge names mostly the words it named before. */
  predicate SameComplaint(gap: set<string>, last: set<string>) {
    gap != {} && last != {} && 2 * |gap * last| >= |gap + last|
  }

  function OnIncomplete(g: Gate, cap: nat, gap: set<string>): (Gate, Verdict) {
    var rejections := g.rejections + 1;
    var repeated := rejections >= 2 && SameComplaint(gap, g.lastGap);
    (g.(errors := 0, rejections := rejections, lastGap := gap),
     if repeated || (cap > 0 && rejections >= cap) then Accepted else SentBack)
  }

  /** The judge is asked again while it is unavailable, up to three failures in a row. */
  function Judge(g: Gate, cap: nat, reply: nat -> Reply, attempt: nat): (Gate, Verdict)
    decreases if g.errors < 3 then 3 - g.errors else 0
  {
    match reply(attempt)
    case Halt => (g, Accepted)
    case Complete => (g.(errors := 0), Accepted)
    case Incomplete(gap) => OnIncomplete(g, cap, gap)
    case Unavailable =>
      var next := g.(errors := g.errors + 1);
      if next.errors >= 3 then (next, Failed) else Judge(next, cap, reply, attempt + 1)
  }

  // ---- a run -----------------------------------------------------------------------

  /** Limits of the two gates; 0 lifts one. */
  datatype Caps = Caps(task: nat, judge: nat)

  /**
    One event of a run at its gates: the step ends on a proposed success, with what the checker and the
    judge then say (`judged` is false when the judge is off, a handoff is pending, or the workspace has
    its own verifier); a step is looked at for fast closure; or a fast answer goes to the judge alone.
   */
  datatype Event =
    | Propose(hashNow: string, ran: Ran, judged: bool, reply: nat -> Reply)
    | Look(glance: Glance)
    | FastAnswer(answer: nat -> Reply)

  function Verdicts(g: Gate, caps: Caps, e: Event): (Gate, Verdict) {
    match e
    case Look(v) => (GlanceAt(g, v), Accepted)
    case FastAnswer(answer) => Judge(g, caps.judge, answer, 0)
    case Propose(hashNow, ran, judged, reply) =>
      var (g1, v1) := CheckTask(g, caps.task, hashNow, ran);
      if v1.Accepted? && judged then Judge(g1, caps.judge, reply, 0) else (g1, v1)
  }

  function After(g: Gate, caps: Caps, es: seq<Event>): Gate
    decreases |es|
  {
    if es == [] then g else After(Verdicts(g, caps, es[0]).0, caps, es[1..])
  }

  /** How often a success was sent back to the model. */
  function SentBacks(g: Gate, caps: Caps, es: seq<Event>): nat
    decreases |es|
  {
    if es == [] then 0
    else
      var (next, v) := Verdicts(g, caps, es[0]);
      (if v.SentBack? then 1 else 0) + SentBacks(next, caps, es[1..])
  }

  // ---- how often work is sent back -------------------------------------------------

  /** How many send-backs the gates still have. */
  function Left(g: Gate, caps: Caps): nat
    requires caps.task > 0 && caps.judge > 0
  {
    (caps.task - 1 - Min(g.failures, caps.task - 1)) + (caps.judge - 1 - Min(g.rejections, caps.judge - 1))
  }

  lemma {:induction false} JudgeSpends(g: Gate, caps: Caps, reply: nat -> Reply, attempt: nat)
    requires caps.task > 0 && caps.judge > 0
    ensures var (next, v) := Judge(g, caps.judge, reply, attempt);
            && Left(next, caps) + (if v.SentBack? then 1 else 0) <= Left(g, caps)
            && next.checker == g.checker && next.closed == g.closed && next.failures == g.failures
    decreases if g.errors < 3 then 3 - g.errors else 0
  {
    if reply(attempt).Unavailable? && g.errors + 1 < 3 {
      JudgeSpends(g.(errors := g.errors + 1), caps, reply, attempt + 1);
    }
  }

  lemma {:induction false} EventSpends(g: Gate, caps: Caps, e: Event)
    requires caps.task > 0 && caps.judge > 0
    ensures var (next, v) := Verdicts(g, caps, e); Left(next, caps) + (if v.SentBack? then 1 else 0) <= Left(g, caps)
  {
    match e
    case Look(_) =>
    case FastAnswer(answer) => JudgeSpends(g, caps, answer, 0);
    case Propose(hashNow, ran, judged, reply) =>
      var (g1, v1) := CheckTask(g, caps.task, hashNow, ran);
      JudgeSpends(g1, caps, reply, 0);
  }

  /** With both caps set, the two gates together send a success back at most (c1 - 1) + (c2 - 1) times in a run. */
  lemma {:induction false} SentBackBound(g: Gate, caps: Caps, es: seq<Event>)
    requires caps.task > 0 && caps.judge > 0
    ensures SentBacks(g, caps, es) <= Left(g, caps)
    ensures g.failures == 0 && g.rejections == 0 ==> SentBacks(g, caps, es) <= (caps.task - 1) + (caps.judge - 1)
    decreases |es|
  {
    if es != [] {
      EventSpends(g, caps, es[0]);
      SentBackBound(Verdicts(g, caps, es[0]).0, caps, es[1..]);
    }
  }

  // ---- what a surviving success rests on -------------------------------------------

  /** The output shows a pass: it ends with 0, no line names a failure, and where the file is called verify.sh a line says PASS. */
  ghost predicate Green(path: string, o: Output) {
    && o.returncode == Some(0) && !o.failureLine
    && (path == "./verify.sh" || (exists dir :: path == dir + "/verify.sh") ==> o.passLine)
  }

  lemma {:induction false} PassedIsGreen(path: string, o: Output)
    ensures CheckerPassed(path, o) <==> Green(path, o)
  {
    if Seqs.EndsWith(path, "/verify.sh") {
      Seqs.Cut(path, |path| - |"/verify.sh"|);
      assert path == path[..|path| - |"/verify.sh"|] + "/verify.sh";
    }
    if dir :| path == dir + "/verify.sh" {
      assert path[|path| - |"/verify.sh"|..] == "/verify.sh";
    }
  }

  /** The checker just ran intact and passed, or the run was being stopped. */
  ghost predicate Proven(c: Checker, hashNow: string, ran: Ran) {
    c.hash != "" && hashNow == c.hash && (ran.RunStopped? || (ran.Ran? && Green(c.path, ran.output)))
  }

  /** Up to the first fast closure, a proposed success passes the checker's gate exactly when it is proven. */
  lemma {:induction false} TaskGateIffProven(g: Gate, cap: nat, hashNow: string, ran: Ran)
    requires g.checker.Some? && !g.closed
    ensures CheckTask(g, cap, hashNow, ran).1.Accepted? <==> Proven(g.checker.value, hashNow, ran)
  {
    assert RejectTask(g, cap).1 != Accepted;
    if ran.Ran? {
      PassedIsGreen(g.checker.value.path, ran.output);
    }
  }

  // ---- what the gates do with what they do not accept ------------------------------

  /** What the checker's gate does with a success that it has to judge and that is not proven: it counts, and gives up at the cap. */
  lemma {:induction false} UnprovenIsRejected(g: Gate, caps: Caps, e: Event)
    requires g.checker.Some? && !g.closed && e.Propose? && !Proven(g.checker.value, e.hashNow, e.ran)
    ensures Verdicts(g, caps, e) ==
              (g.(failures := g.failures + 1), if caps.task > 0 && g.failures + 1 >= caps.task then Failed else SentBack)
  {
    TaskGateIffProven(g, caps.task, e.hashNow, e.ran);
  }

  /** Success after success that is not proven: each is sent back until the cap, and from there on each fails. */
  lemma {:induction false} UnprovenUntilCap(g: Gate, caps: Caps, es: seq<Event>)
    requires g.checker.Some? && !g.closed
    requires forall e :: e in es ==> e.Propose? && !Proven(g.checker.value, e.hashNow, e.ran)
    ensures After(g, caps, es) == g.(failures := g.failures + |es|)
    ensures SentBacks(g, caps, es) == if caps.task == 0 then |es| else Min(|es|, if g.failures < caps.task then caps.task - 1 - g.failures else 0)
    decreases |es|
  {
    if es != [] {
      assert es[0] in es;
      UnprovenIsRejected(g, caps, es[0]);
      UnprovenUntilCap(g.(failures := g.failures + 1), caps, es[1..]);
    }
  }

  /** At least half of all the words named now or before were named both times. */
  ghost predicate Repeats(gap: set<string>, last: set<string>) {
    gap != {} && last != {} && |gap * last| >= |gap + last| - |gap * last|
  }

  /** A rejecting judge is overruled when it repeats its last complaint or has rejected often enough; otherwise the work goes back. */
  lemma {:induction false} RejectionMeans(g: Gate, cap: nat, reply: nat -> Reply, attempt: nat)
    requires reply(attempt).Incomplete?
    ensures var (next, v) := Judge(g, cap, reply, attempt);
            && next == g.(errors := 0, rejections := g.rejections + 1, lastGap := reply(attempt).gap)
            && (v.Accepted? <==> (g.rejections > 0 && Repeats(reply(attempt).gap, g.lastGap)) || (cap > 0 && g.rejections + 1 >= cap))
            && (!v.Accepted? ==> v.SentBack?)
  {
  }

  /** While the judge cannot be asked it is asked again, and the first reply it gives decides. */
  lemma {:induction false} JudgeAsksAgain(g: Gate, cap: nat, reply: nat -> Reply, attempt: nat, n: nat)
    requires g.errors + n < 3 && forall i :: attempt <= i < attempt + n ==> reply(i).Unavailable?
    ensures Judge(g, cap, reply, attempt) == Judge(g.(errors := g.errors + n), cap, reply, attempt + n)
    decreases n
  {
    if n > 0 {
      JudgeAsksAgain(g.(errors := g.errors + 1), cap, reply, attempt + 1, n - 1);
    }
  }

  /** Exactly: judging fails when the outages, those of before counted in, reach three in a row; a reply of "complete" or a stop accepts. */
  lemma {:induction false} JudgeFailsIff(g: Gate, cap: nat, reply: nat -> Reply, attempt: nat)
    requires g.errors < 3
    ensures Judge(g, cap, reply, attempt).1.Failed? <==> forall i :: attempt <= i < attempt + 3 - g.errors ==> reply(i).Unavailable?
    ensures reply(attempt).Complete? ==> Judge(g, cap, reply, attempt) == (g.(errors := 0), Accepted)
    ensures reply(attempt).Halt? ==> Judge(g, cap, reply, attempt) == (g, Accepted)
    decreases 3 - g.errors
  {
    if reply(attempt).Unavailable? && g.errors < 2 {
      JudgeFailsIff(g.(errors := g.errors + 1), cap, reply, attempt + 1);
    }
  }

  /** After fewer than three outages in a row the judge accepts, or is stopped, or is overruled. */
  ghost predicate JudgeAccepts(g: Gate, cap: nat, reply: nat -> Reply) {
    exists n: nat :: g.errors + n < 3 && (forall i :: 0 <= i < n ==> reply(i).Unavailable?) && Lets(g, cap, reply(n))
  }

  ghost predicate Lets(g: Gate, cap: nat, r: Reply) {
    match r
    case Complete => true
    case Halt => true
    case Incomplete(gap) => (g.rejections > 0 && Repeats(gap, g.lastGap)) || (cap > 0 && g.rejections + 1 >= cap)
    case Unavailable => false
  }

  /** Exactly: a proposed success survives both gates when the checker's gate is lifted or it is proven, and the judge, if asked, accepts. */
  lemma {:induction false} ProposalSurvivesIff(g: Gate, caps: Caps, e: Event)
    requires e.Propose? && g.errors < 3
    ensures Verdicts(g, caps, e).1.Accepted? <==>
              && (g.closed || g.checker.None? || Proven(g.checker.value, e.hashNow, e.ran))
              && (e.judged ==> JudgeAccepts(g, caps.judge, e.reply))
  {
    var (g1, v1) := CheckTask(g, caps.task, e.hashNow, e.ran);
    if g.checker.Some? && !g.closed {
      TaskGateIffProven(g, caps.task, e.hashNow, e.ran);
    }
    if v1.Accepted? {
      assert g1 == g;
      JudgeAcceptsIff(g, caps.judge, e.reply);
    }
  }

  lemma {:induction false} JudgeAcceptsIff(g: Gate, cap: nat, reply: nat -> Reply)
    requires g.errors < 3
    ensures Judge(g, cap, reply, 0).1.Accepted? <==> JudgeAccepts(g, cap, reply)
  {
    var n := FirstReply(g, cap, reply, 0);
    if g.errors + n < 3 {
      assert Lets(g, cap, reply(n)) ==> JudgeAccepts(g, cap, reply);
    }
    if JudgeAccepts(g, cap, reply) {
      var m: nat :| g.errors + m < 3 && (forall i :: 0 <= i < m ==> reply(i).Unavailable?) && Lets(g, cap, reply(m));
      assert m == n;
    }
  }

  /** The first attempt that is no outage, or the one at which judging gives up. */
  lemma {:induction false} FirstReply(g: Gate, cap: nat, reply: nat -> Reply, attempt: nat) returns (n: nat)
    requires g.errors < 3
    ensures g.errors + n <= 3 && forall i :: attempt <= i < attempt + n ==> reply(i).Unavailable?
    ensures g.errors + n < 3 ==> !reply(attempt + n).Unavailable? && (Judge(g, cap, reply, attempt).1.Accepted? <==> Lets(g, cap, reply(attempt + n)))
    ensures g.errors + n == 3 ==> Judge(g, cap, reply, attempt).1.Failed?
    decreases 3 - g.errors
  {
    n := 0;
    if reply(attempt).Unavailable? {
      if g.errors == 2 {
        n := 1;
      } else {
        var m := FirstReply(g.(errors := g.errors + 1), cap, reply, attempt + 1);
        n := m + 1;
      }
    } else if reply(attempt).Incomplete? {
      RejectionMeans(g, cap, reply, attempt);
    }
  }

  /** Fast answers that the judge rejects at once, none with the complaint of the one before. */
  ghost predicate NewComplaints(es: seq<Event>, last: set<string>)
    decreases |es|
  {
    es != [] ==>
      && es[0].FastAnswer? && es[0].answer(0).Incomplete? && !Repeats(es[0].answer(0).gap, last)
      && NewComplaints(es[1..], es[0].answer(0).gap)
  }

  /** Fast answers that the judge rejects, each time with another complaint: each is sent back until the cap, and then accepted. */
  lemma {:induction false} RejectedUntilCap(g: Gate, caps: Caps, es: seq<Event>)
    requires NewComplaints(es, g.lastGap)
    ensures SentBacks(g, caps, es) == if caps.judge == 0 then |es| else Min(|es|, if g.rejections < caps.judge then caps.judge - 1 - g.rejections else 0)
    decreases |es|
  {
    if es != [] {
      var (next, v) := Verdicts(g, caps, es[0]);
      RejectionMeans(g, caps.judge, es[0].answer, 0);
      RejectedUntilCap(next, caps, es[1..]);
    }
  }

  /** The first look of a run that closed it, if any did. */
  predicate Closing(g: Gate, caps: Caps, es: seq<Event>)
    decreases |es|
  {
    es != [] &&
    ((es[0].Look? && ClosesFast(g, es[0].glance)) || Closing(Verdicts(g, caps, es[0]).0, caps, es[1..]))
  }

  lemma {:induction false} CheckerStays(g: Gate, caps: Caps, es: seq<Event>)
    ensures After(g, caps, es).checker == g.checker
    ensures !g.closed ==> (After(g, caps, es).closed <==> Closing(g, caps, es))
    ensures g.closed ==> After(g, caps, es).closed
    decreases |es|
  {
    if es != [] {
      EventKeepsChecker(g, caps, es[0]);
      CheckerStays(Verdicts(g, caps, es[0]).0, caps, es[1..]);
    }
  }

  lemma {:induction false} EventKeepsChecker(g: Gate, caps: Caps, e: Event)
    ensures var next := Verdicts(g, caps, e).0;
            && next.checker == g.checker
            && next.closed == (g.closed || (e.Look? && ClosesFast(g, e.glance)))
  {
    match e
    case Look(_) =>
    case FastAnswer(answer) => JudgeKeepsChecker(g, caps.judge, answer, 0);
    case Propose(hashNow, ran, judged, reply) =>
      JudgeKeepsChecker(CheckTask(g, caps.task, hashNow, ran).0, caps.judge, reply, 0);
  }

  lemma {:induction false} JudgeKeepsChecker(g: Gate, cap: nat, reply: nat -> Reply, attempt: nat)
    ensures var next := Judge(g, cap, reply, attempt).0; next.checker == g.checker && next.closed == g.closed
    decreases if g.errors < 3 then 3 - g.errors else 0
  {
    if reply(attempt).Unavailable? && g.errors + 1 < 3 {
      JudgeKeepsChecker(g.(errors := g.errors + 1), cap, reply, attempt + 1);
    }
  }

  /**
    In every run with a captured checker, a success that survives the gates was proven at that moment, or
    an earlier step of the run had already closed it on a look that passed.
   */
  lemma {:induction false} SurvivorsAreProven(g: Gate, caps: Caps, es: seq<Event>, e: Event)
    requires g.checker.Some? && !g.closed && e.Propose?
    requires Verdicts(After(g, caps, es), caps, e).1.Accepted?
    ensures Proven(g.checker.value, e.hashNow, e.ran) || Closing(g, caps, es)
  {
    CheckerStays(g, caps, es);
    var now := After(g, caps, es);
    if !now.closed {
      TaskGateIffProven(now, caps.task, e.hashNow, e.ran);
    }
  }

  // ---- a checker whose hash was not captured ----------------------------------------

  /** The submission gate fails closed when no hash was captured ... */
  lemma {:induction false} NoHashNeverSubmits(g: Gate, cap: nat, hashNow: string, ran: Ran)
    requires g.checker.Some? && !g.closed && g.checker.value.hash == ""
    ensures !CheckTask(g, cap, hashNow, ran).1.Accepted?
  {
    TaskGateIffProven(g, cap, hashNow, ran);
  }

  /** ... and a closing look saw the captured hash, whatever that was, and passed ... */
  lemma {:induction false} ClosingMeans(g: Gate, caps: Caps, es: seq<Event>) returns (k: nat)
    requires g.checker.Some? && Closing(g, caps, es)
    ensures ClosesAt(g, es, k)
    decreases |es|
  {
    if es[0].Look? && ClosesFast(g, es[0].glance) {
      PassesIsSeen(g.checker.value.path, es[0].glance);
      k := 0;
    } else {
      EventKeepsChecker(g, caps, es[0]);
      var rest := ClosingMeans(Verdicts(g, caps, es[0]).0, caps, es[1..]);
      k := rest + 1;
    }
  }

  /** What a look that passes has seen: a command with the checker in it, green as a whole, or else an eager run of it that is. */
  ghost predicate SeesPass(path: string, v: Glance) {
    if v.command.Some? && Mentions(v.command.value) then Green(path, v.output)
    else exists o :: v.eager == Some(Ran(o)) && Green(path, o)
  }

  /** Some part of the command is the checker. */
  ghost predicate Mentions(c: Shape) {
    exists i :: 0 <= i < |Parts(c)| && Parts(c)[i]
  }

  /** Which parts of the command are the checker, from first to last. */
  function Parts(c: Shape): (r: seq<bool>)
    ensures r != []
  {
    match c
    case One(isChecker) => [isChecker]
    case Joined(before, _, isChecker) => Parts(before) + [isChecker]
  }

  lemma {:induction false} NamesIsMentions(c: Shape)
    ensures Names(c) <==> Mentions(c)
    decreases c
  {
    if c.Joined? {
      var parts := Parts(c.before);
      NamesIsMentions(c.before);
      assert Parts(c)[|parts|] == c.isChecker && forall i :: 0 <= i < |parts| ==> Parts(c)[i] == parts[i];
    } else {
      assert Parts(c)[0] == c.isChecker;
    }
  }

  lemma {:induction false} PassesIsSeen(path: string, v: Glance)
    ensures LookPasses(path, v) <==> SeesPass(path, v)
  {
    PassedIsGreen(path, v.output);
    if v.command.Some? {
      NamesIsMentions(v.command.value);
    }
    if v.eager.Some? && v.eager.value.Ran? {
      PassedIsGreen(path, v.eager.value.output);
    }
  }

  /** The look is allowed, the checker has its captured hash, and a pass is seen. */
  ghost predicate Sees(g: Gate, v: Glance) {
    v.enabled && g.checker.Some? && v.hashNow == g.checker.value.hash && SeesPass(g.checker.value.path, v)
  }

  /** Exactly: a look closes the run when it is allowed to, the checker has its captured hash, and it sees a pass; and that is all it does. */
  lemma {:induction false} LookClosesIff(g: Gate, caps: Caps, v: Glance)
    ensures var (next, verdict) := Verdicts(g, caps, Look(v));
            && next == g.(closed := next.closed) && verdict.Accepted?
            && next.closed == (g.closed || Sees(g, v))
  {
    if g.checker.Some? {
      PassesIsSeen(g.checker.value.path, v);
    }
  }

  /** Event `k` is a look that sees a pass, with the captured hash. */
  ghost predicate ClosesAt(g: Gate, es: seq<Event>, k: nat)
    requires g.checker.Some?
  {
    k < |es| && es[k].Look? && es[k].glance.hashNow == g.checker.value.hash && SeesPass(g.checker.value.path, es[k].glance)
  }

  /**
    ... so without a captured hash, any passing look that cannot compute one either closes the run, and from
    then on every success passes, whatever the checker would say.
   */
  lemma {:induction false} UncapturedCheckerCloses(g: Gate, caps: Caps, v: Glance, es: seq<Event>, e: Event)
    requires g.checker.Some? && g.checker.value.hash == "" && !g.closed
    requires v.enabled && v.hashNow == "" && SeesPass(g.checker.value.path, v)
    requires e.Propose? && !e.judged
    ensures var next := Verdicts(g, caps, Look(v)).0; Verdicts(After(next, caps, es), caps, e).1.Accepted?
  {
    LookClosesIff(g, caps, v);
    CheckerStays(Verdicts(g, caps, Look(v)).0, caps, es);
  }

  /** The success was proven at that moment, or a passing look with a hash to its name had closed the run. */
  ghost predicate Vouched(g: Gate, es: seq<Event>, e: Event)
    requires g.checker.Some? && e.Propose?
  {
    Proven(g.checker.value, e.hashNow, e.ran) || exists k: nat :: ClosesAt(g, es, k) && es[k].glance.hashNow != ""
  }

  /** Exactly: a success that survives is vouched for if and only if a hash was captured. */
  lemma {:induction false} SurvivorsVouchedIff(g: Gate, caps: Caps, es: seq<Event>, e: Event)
    requires g.checker.Some? && !g.closed && e.Propose? && Verdicts(After(g, caps, es), caps, e).1.Accepted?
    ensures Vouched(g, es, e) <==> g.checker.value.hash != ""
  {
    SurvivorsAreProven(g, caps, es, e);
    if g.checker.value.hash != "" && !Proven(g.checker.value, e.hashNow, e.ran) {
      var k := ClosingMeans(g, caps, es);
    }
  }

  // ---- whose pass a look saw ---------------------------------------------------------

  function Size(c: Shape): nat {
    if c.One? then 1 else Size(c.before) + 1
  }

  predicate Ok(o: Output) {
    o.returncode == Some(0)
  }

  /** What a command shows when its parts would show these outputs, and whether a part that is the checker ran and passed. */
  function Run(path: string, c: Shape, shows: seq<Output>): (r: (Output, bool))
    requires |shows| == Size(c)
  {
    match c
    case One(isChecker) => (shows[0], isChecker && CheckerPassed(path, shows[0]))
    case Joined(before, join, isChecker) =>
      var n := |shows| - 1;
      var (sofar, own) := Run(path, before, shows[..n]);
      if join.Then? || (join.And? && Ok(sofar)) || (join.Or? && !Ok(sofar))
      then (Output(shows[n].returncode, sofar.failureLine || shows[n].failureLine, sofar.passLine || shows[n].passLine),
            own || (isChecker && CheckerPassed(path, shows[n])))
      else (sofar, own)
  }

  /** The command cannot succeed unless a part that is the checker does. */
  predicate Forces(c: Shape) {
    match c
    case One(isChecker) => isChecker
    case Joined(before, Then, isChecker) => isChecker
    case Joined(before, And, isChecker) => Forces(before) || isChecker
    case Joined(before, Or, isChecker) => Forces(before) && isChecker
  }

  /** Every part is the checker, and each runs only if all before it succeeded. */
  predicate AllChecker(c: Shape) {
    c.isChecker && (c.Joined? ==> c.join.And? && AllChecker(c.before))
  }

  /** The commands whose pass is the checker's own; where a PASS line is asked for, another part could have printed it. */
  predicate Vouches(path: string, c: Shape) {
    if NeedsPassLine(path) then AllChecker(c) else Forces(c)
  }

  /** The checker itself ran and passed, whatever its parts did to look like this; or an eager run of it passed. */
  ghost predicate OwnPass(path: string, v: Glance) {
    if v.command.Some? && Mentions(v.command.value)
    then forall shows :: |shows| == Size(v.command.value) && Run(path, v.command.value, shows).0 == v.output
                         ==> Run(path, v.command.value, shows).1
    else exists o :: v.eager == Some(Ran(o)) && Green(path, o)
  }

  /** Every way this command can look like a pass has a part that is the checker pass. */
  ghost predicate PassIsOwn(path: string, c: Shape) {
    forall shows :: |shows| == Size(c) && CheckerPassed(path, Run(path, c, shows).0) ==> Run(path, c, shows).1
  }

  /** Exactly: a command that looks like a pass shows the checker's own pass, whatever its parts show, if and only if it vouches. */
  lemma {:induction false} PassIsOwnIff(path: string, c: Shape)
    ensures PassIsOwn(path, c) <==> Vouches(path, c)
  {
    if Vouches(path, c) {
      forall shows | |shows| == Size(c) && CheckerPassed(path, Run(path, c, shows).0) ensures Run(path, c, shows).1 {
        if NeedsPassLine(path) {
          ChainPasses(path, c, shows);
        } else {
          ForcedPasses(path, c, shows);
        }
      }
    } else if Forces(c) {
      var shows := Borrowed(path, c);
    } else {
      Unforced(path, c);
    }
  }

  /** A forced success is a checker's; with no failure line anywhere it is a pass where no PASS line is asked for. */
  lemma {:induction false} ForcedPasses(path: string, c: Shape, shows: seq<Output>)
    requires Forces(c) && !NeedsPassLine(path) && |shows| == Size(c)
    ensures var (o, own) := Run(path, c, shows); Ok(o) && !o.failureLine ==> own
    decreases c
  {
    if c.Joined? && Forces(c.before) {
      ForcedPasses(path, c.before, shows[..|shows| - 1]);
    }
  }

  /** In a chain that succeeds every part is a checker that did, and one of them printed the PASS line. */
  lemma {:induction false} ChainPasses(path: string, c: Shape, shows: seq<Output>)
    requires AllChecker(c) && |shows| == Size(c)
    ensures var (o, own) := Run(path, c, shows); Ok(o) && !o.failureLine && (NeedsPassLine(path) ==> o.passLine) ==> own
    decreases c
  {
    if c.Joined? {
      ChainPasses(path, c.before, shows[..|shows| - 1]);
    }
  }

  const SUCCEEDS := Output(Some(0), false, true)
  const FAILS := Output(Some(1), false, true)

  /** The parts that are not the checker succeed, and the checker fails. */
  function Against(c: Shape): (shows: seq<Output>)
    ensures |shows| == Size(c)
  {
    var last := [if c.isChecker then FAILS else SUCCEEDS];
    if c.One? then last else Against(c.before) + last
  }

  /** Against these parts a command succeeds exactly when nothing forces the checker. */
  lemma {:induction false} AgainstRuns(path: string, c: Shape)
    ensures var (o, own) := Run(path, c, Against(c));
            !own && !o.failureLine && o.passLine && (Ok(o) <==> !Forces(c))
    decreases c
  {
    if c.Joined? {
      Seqs.Snoc(Against(c.before), if c.isChecker then FAILS else SUCCEEDS);
      AgainstRuns(path, c.before);
    }
  }

  lemma {:induction false} Unforced(path: string, c: Shape)
    requires !Forces(c)
    ensures !PassIsOwn(path, c)
  {
    AgainstRuns(path, c);
  }

  /** A part that succeeds without a PASS line. */
  const QUIET := Output(Some(0), false, false)

  function Quiet(n: nat): (shows: seq<Output>)
    ensures |shows| == n && forall i :: 0 <= i < n ==> shows[i] == QUIET
  {
    seq(n, i => QUIET)
  }

  /**
    Where a PASS line is asked for and the command is no chain of checkers, some part prints it that is not a
    checker that passes: a part that is none, or a checker that fails where that does not matter.
   */
  lemma {:induction false} Borrowed(path: string, c: Shape) returns (shows: seq<Output>)
    requires NeedsPassLine(path) && !AllChecker(c)
    ensures |shows| == Size(c)
    ensures var (o, own) := Run(path, c, shows); Ok(o) && !o.failureLine && o.passLine && !own
    ensures !PassIsOwn(path, c)
    decreases c
  {
    match c
    case One(_) =>
      shows := [SUCCEEDS];
    case Joined(before, And, isChecker) =>
      if !isChecker {
        shows := Quiet(Size(before)) + [SUCCEEDS];
        Seqs.Snoc(Quiet(Size(before)), SUCCEEDS);
        QuietRuns(path, before);
      } else {
        var front := Borrowed(path, before);
        shows := front + [QUIET];
        Seqs.Snoc(front, QUIET);
      }
    case Joined(before, _, _) =>
      var front := Failing(Size(before));
      shows := front + [QUIET];
      Seqs.Snoc(front, QUIET);
      FailingRuns(path, before);
  }

  lemma {:induction false} QuietRuns(path: string, c: Shape)
    requires NeedsPassLine(path)
    ensures var (o, own) := Run(path, c, Quiet(Size(c))); Ok(o) && !o.failureLine && !o.passLine && !own
    decreases c
  {
    if c.Joined? {
      assert Quiet(Size(c))[..Size(c) - 1] == Quiet(Size(c.before));
      QuietRuns(path, c.before);
    }
  }

  function Failing(n: nat): (shows: seq<Output>)
    ensures |shows| == n && forall i :: 0 <= i < n ==> shows[i] == FAILS
  {
    seq(n, i => FAILS)
  }

  lemma {:induction false} FailingRuns(path: string, c: Shape)
    ensures var (o, own) := Run(path, c, Failing(Size(c))); !Ok(o) && !o.failureLine && o.passLine && !own
    decreases c
  {
    if c.Joined? {
      assert Failing(Size(c))[..Size(c) - 1] == Failing(Size(c.before));
      FailingRuns(path, c.before);
    }
  }

  // ---- a masked checker ----------------------------------------------------------------

  /** The checker, failing without a failure line, and behind it a part that makes the command succeed. */
  function Masked(path: string, hash: string, failing: Output): Glance {
    var c := Joined(One(true), Or, false);
    Glance(true, hash, Some(c), Run(path, c, [failing, QUIET]).0, None)
  }

  lemma {:induction false} MaskedRuns(path: string, failing: Output)
    requires !Ok(failing) && !failing.failureLine
    ensures Run(path, Joined(One(true), Or, false), [failing, QUIET]) == (Output(Some(0), false, failing.passLine), false)
  {
    var shows := [failing, QUIET];
    assert shows[..1] == [failing] && shows[1] == QUIET;
    assert Run(path, One(true), [failing]) == (failing, false);
  }

  /** Such a command closes the run with an intact checker that failed, and every success after it passes. */
  lemma {:induction false} MaskedCheckerCloses(g: Gate, caps: Caps, failing: Output, es: seq<Event>, e: Event)
    requires g.checker.Some? && !g.closed && e.Propose? && !e.judged
    requires !Ok(failing) && !failing.failureLine && (NeedsPassLine(g.checker.value.path) ==> failing.passLine)
    ensures var path := g.checker.value.path;
            var v := Masked(path, g.checker.value.hash, failing);
            && Verdicts(g, caps, Look(v)).0.closed && !OwnPass(path, v)
            && Verdicts(After(Verdicts(g, caps, Look(v)).0, caps, es), caps, e).1.Accepted?
  {
    var path := g.checker.value.path;
    var v := Masked(path, g.checker.value.hash, failing);
    MaskedRuns(path, failing);
    NamesIsMentions(v.command.value);
    CheckerStays(Verdicts(g, caps, Look(v)).0, caps, es);
  }

  /** The success was proven at that moment, or the checker's own pass under a named hash had closed the run. */
  ghost predicate Owned(g: Gate, es: seq<Event>, e: Event)
    requires g.checker.Some? && e.Propose?
  {
    || Proven(g.checker.value, e.hashNow, e.ran)
    || exists k: nat :: ClosesAt(g, es, k) && es[k].glance.hashNow != "" && OwnPass(g.checker.value.path, es[k].glance)
  }

  /** Where the commands that name the checker vouch for it, a surviving success is its own if and only if a hash was captured. */
  lemma {:induction false} SurvivorsOwnedIff(g: Gate, caps: Caps, es: seq<Event>, e: Event)
    requires g.checker.Some? && !g.closed && e.Propose? && Verdicts(After(g, caps, es), caps, e).1.Accepted?
    requires forall k :: 0 <= k < |es| && es[k].Look? && es[k].glance.command.Some? && Mentions(es[k].glance.command.value) ==>
               Vouches(g.checker.value.path, es[k].glance.command.value)
    ensures Owned(g, es, e) <==> g.checker.value.hash != ""
  {
    SurvivorsAreProven(g, caps, es, e);
    if g.checker.value.hash != "" && !Proven(g.checker.value, e.hashNow, e.ran) {
      var k := ClosingMeans(g, caps, es);
      if es[k].glance.command.Some? && Mentions(es[k].glance.command.value) {
        PassIsOwnIff(g.checker.value.path, es[k].glance.command.value);
        PassedIsGreen(g.checker.value.path, es[k].glance.output);
      }
      assert OwnPass(g.checker.value.path, es[k].glance);
    }
  }
}
