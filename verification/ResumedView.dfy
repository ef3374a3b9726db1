/** What a resumed session shows first: its view, when the frame survives and when it does not. */
module ResumedView {
  import opened Transcript
  import opened Repair
  import opened Compaction
  import opened ContextView
  import opened ViewHistory
  import opened ViewPairing
  import opened Conversation
  import opened Resume
  import opened ResumedFrame
  import J = Journal
  import Seqs

  // ---- the view of a resumed session -----------------------------------------------

  /** With its frame kept, a resumed session shows what it showed, the dropped copies aside. */
  lemma {:induction false} ResumedViewIs(stored: seq<Message>, wanted: set<string>)
    requires var h := WithoutExits(stored); HasFrame(h, wanted) && FrameKept(h, Resumed(stored, wanted))
    ensures ShowsTheSame(WithoutExits(stored), Resumed(stored, wanted), wanted)
  {
    CollapsedViewIs(WithoutExits(stored), wanted);
  }

  /** Up to the latest summary `c` shows what `h` shows, and after it what a collapse leaves of that. */
  ghost predicate ShowsTheSame(h: seq<Message>, c: seq<Message>, wanted: set<string>) {
    var last := LastSummary(h);
    && last >= 0 && Viewable(h) && Viewable(h[..last + 1]) && Viewable(c)
    && View(h) == View(h[..last + 1]) + h[last + 1..]
    && View(c) == View(h[..last + 1]) + Collapsed(h[last + 1..], wanted)
  }

  lemma {:induction false} CollapsedViewIs(h: seq<Message>, wanted: set<string>)
    requires HasFrame(h, wanted) && FrameKept(h, Collapsed(h, wanted))
    ensures ShowsTheSame(h, Collapsed(h, wanted), wanted)
  {
    var last := LastSummary(h);
    var e, s, d := h[..last], h[last], h[last + 1..];
    FrameOfCollapse(h, wanted, e, s, d);
    SplitAt(h, last);
    CollapseAround(e, s, d, wanted);
    CollapseShrinks(d, wanted);
    assert h[..last + 1] == e + [s];
    ViewPast(e, s, d);
    SameFrameSameView(e, KeptBefore(e, d, wanted), s);
    ViewPast(KeptBefore(e, d, wanted), s, Collapsed(d, wanted));
  }

  lemma {:induction false} SameFrameSameView(e: seq<Message>, k: seq<Message>, s: Message)
    requires !Plain(s) && s.compaction.value.head <= |e| && SameFrame(e, k, s.compaction.value)
    ensures Viewable(e + [s]) && Viewable(k + [s]) && View(e + [s]) == View(k + [s])
  {
    ViewAtSummary(e, s);
    ViewAtSummary(k, s);
  }

  // ---- pairing ---------------------------------------------------------------------

  /** Taking out a user message leaves a paired history paired. */
  lemma {:induction false} RemoveUser(a: seq<Message>, m: Message, b: seq<Message>)
    requires m.role.User? && Clean(a + [m] + b) && Grounded(a + [m] + b)
    ensures Clean(a + b) && Grounded(a + b) && Pending(a + b) == Pending(a + [m] + b)
  {
    CleanPrefix(a + [m], b);
    Seqs.Snoc(a, m);
    PairedConcat(a + [m], b);
    PairedConcat(a, b);
    if b != [] {
      GroundedAt(a + [m] + b, |a| + 1);
      assert (a + [m] + b)[..|a| + 1] == a + [m];
      assert (a + [m] + b)[|a| + 1] == b[0];
    }
  }

  lemma {:induction false} CollapsePaired(a: seq<Message>, ms: seq<Message>, wanted: set<string>)
    requires Clean(a + ms) && Grounded(a + ms)
    ensures var c := a + Collapsed(ms, wanted); Clean(c) && Grounded(c) && Pending(c) == Pending(a + ms)
    decreases |ms|
  {
    if ms != [] {
      var rest := Collapsed(ms[1..], wanted);
      Seqs.Uncons(ms);
      Seqs.Assoc(a, [ms[0]], ms[1..]);
      if First(ms, wanted) == [] {
        RemoveUser(a, ms[0], ms[1..]);
        CollapsePaired(a, ms[1..], wanted);
        Seqs.Empty(rest);
      } else {
        CollapsePaired(a + [ms[0]], ms[1..], wanted);
        KeptFirstOf(ms, wanted);
        Seqs.Assoc(a, [ms[0]], rest);
      }
    }
  }

  /** A history with nothing open in the middle is repaired at its end alone. */
  lemma {:induction false} RepairAtEnd(done: seq<Message>, ms: seq<Message>)
    requires Clean(done + ms)
    ensures RepairFrom(ms, Pending(done)) == ms + SyntheticResults(Pending(done + ms))
    decreases |ms|
  {
    if ms == [] {
      Seqs.Empty(done);
      Seqs.Empty(SyntheticResults(Pending(done)));
    } else {
      var next := done + [ms[0]];
      Seqs.Uncons(ms);
      Seqs.Assoc(done, [ms[0]], ms[1..]);
      Seqs.Snoc(done, ms[0]);
      CleanPrefix(next, ms[1..]);
      RepairAtEnd(next, ms[1..]);
      Seqs.Assoc([ms[0]], ms[1..], SyntheticResults(Pending(done + ms)));
      assert Owed(ms[0], Pending(done)) == [];
      Seqs.Empty([ms[0]]);
    }
  }

  lemma {:induction false} StartIs(stored: seq<Message>, wanted: set<string>, task: Message)
    requires Clean(WithoutExits(stored)) && Grounded(WithoutExits(stored))
    ensures var h, c := WithoutExits(stored), Resumed(stored, wanted);
            && Clean(c) && Grounded(c) && Pending(c) == Pending(h)
            && StartOf(stored, wanted, task) == c + (SyntheticResults(Pending(h)) + [task])
  {
    var h, c := WithoutExits(stored), Resumed(stored, wanted);
    Seqs.Empty(h);
    Seqs.Empty(c);
    CollapsePaired([], h, wanted);
    RepairAtEnd([], c);
    RepairAnswersEveryCall(c);
    NothingOpenNothingAdded(Repaired(c), [task]);
    Seqs.Assoc(c, SyntheticResults(Pending(h)), [task]);
  }

  /** A paired view, its open calls closed and a user message added. */
  lemma {:induction false} ClosedAndAsked(view: seq<Message>, task: Message)
    requires Clean(view) && Grounded(view) && task.role.User?
    ensures Paired(view + (SyntheticResults(Pending(view)) + [task]))
  {
    var closed := view + SyntheticResults(Pending(view));
    ClosersAnswer(view);
    Seqs.Assoc(view, SyntheticResults(Pending(view)), [task]);
    Seqs.Snoc(closed, task);
  }

  // ---- the first query of a resumed session ----------------------------------------

  /** Plain messages behind a history leave its seams as they are. */
  lemma {:induction false} SeamsStay(ms: seq<Message>, more: seq<Message>)
    requires Viewable(ms) && forall m :: m in more ==> Plain(m)
    ensures Viewable(ms + more) && (SeamsHold(ms + more) <==> SeamsHold(ms))
  {
    ViewExtends(ms, more);
    var last := LastSummary(ms);
    if last >= 0 {
      assert (ms + more)[..last] == ms[..last] && (ms + more)[last] == ms[last];
    }
  }

  lemma {:induction false} SummariesLeft(h: seq<Message>, wanted: set<string>, more: seq<Message>)
    requires UserSummaries(h) && forall m :: m in more ==> Plain(m)
    ensures UserSummaries(Collapsed(h, wanted) + more)
  {
    var c := Collapsed(h, wanted);
    CollapseShrinks(h, wanted);
    forall i | 0 <= i < |c + more| ensures Plain((c + more)[i]) || (c + more)[i].role.User? {
      if i < |c| {
        assert c[i] in c && c[i] in h;
      } else {
        assert (c + more)[i] == more[i - |c|];
      }
    }
  }

  /**
    The first query of a resumed session is paired if and only if the seams of its latest summary hold
    once the copies are dropped: the head leaves no call open, and the tail does not open on a result.
   */
  lemma {:induction false} ResumedQueryPairedIff(stored: seq<Message>, wanted: set<string>, task: Message)
    requires task.role.User? && Plain(task)
    requires var h := WithoutExits(stored); Clean(h) && Grounded(h) && UserSummaries(h)
    requires Viewable(Resumed(stored, wanted))
    ensures var start := StartOf(stored, wanted, task);
            Viewable(start) && Paired(start) && (Paired(View(start)) <==> SeamsHold(Resumed(stored, wanted)))
  {
    var h, c := WithoutExits(stored), Resumed(stored, wanted);
    var more := SyntheticResults(Pending(h)) + [task];
    StartIs(stored, wanted, task);
    ClosedAndAsked(c, task);
    SeamsStay(c, more);
    SummariesLeft(h, wanted, more);
    ViewPairedIff(c + more);
  }

  /** A kept frame keeps the seams. */
  lemma {:induction false} FrameKeepsSeams(h: seq<Message>, c: seq<Message>)
    requires Viewable(h) && LastSummary(h) >= 0 && FrameKept(h, c)
    ensures Viewable(c) && (SeamsHold(c) <==> SeamsHold(h))
  {
    SameSeams(h[..LastSummary(h)], c[..LastSummary(c)], h[LastSummary(h)].compaction.value);
  }

  lemma {:induction false} SameSeams(e: seq<Message>, k: seq<Message>, info: Record)
    requires info.head <= |e| && SameFrame(e, k, info)
    ensures SeamsBefore(k, info) <==> SeamsBefore(e, info)
  {
  }

  /** A view that mirrors its history has seams that hold. */
  lemma {:induction false} MirrorsHold(h: seq<Message>)
    requires Clean(h) && Grounded(h) && Viewable(h) && UserSummaries(h) && Mirrors(View(h), h)
    ensures SeamsHold(h)
  {
    var closers := SyntheticResults(Pending(h));
    ClosersAnswer(h);
    ClosersAnswer(View(h));
    ViewExtends(h, closers);
    SeamsStay(h, closers);
    ClosedSummaries(h, closers);
    ViewPairedIff(h + closers);
  }

  /**
    A resumed session whose recorded head and tail hold no unanswered copy begins with a paired query:
    no call without its result, no result without its call.
   */
  lemma {:induction false} ResumedQueryIsPaired(stored: seq<Message>, wanted: set<string>, task: Message)
    requires task.role.User? && Plain(task)
    requires var h := WithoutExits(stored);
             && Clean(h) && Grounded(h) && UserSummaries(h) && Viewable(h) && SeamsHold(h)
             && (LastSummary(h) >= 0 ==> HasFrame(h, wanted) && FrameUntouched(h, wanted))
    ensures var start := StartOf(stored, wanted, task); Viewable(start) && Paired(View(start))
  {
    var h, c := WithoutExits(stored), Resumed(stored, wanted);
    if LastSummary(h) >= 0 {
      CollapseKeepsFrameIff(h, wanted);
      FrameKeepsSeams(h, c);
    } else {
      NoSummariesLeft(h, wanted);
    }
    ResumedQueryPairedIff(stored, wanted, task);
  }

  lemma {:induction false} NoSummariesLeft(h: seq<Message>, wanted: set<string>)
    requires LastSummary(h) < 0
    ensures Viewable(Collapsed(h, wanted)) && LastSummary(Collapsed(h, wanted)) < 0
  {
    PlainFrom(h, 0);
    assert h[0..] == h;
    CollapseShrinks(h, wanted);
    ViewOfPlain(Collapsed(h, wanted));
  }

  // ---- a sound start ---------------------------------------------------------------

  /** The history up to its latest summary, and what follows. */
  ghost predicate SplitsAtSummary(a: seq<Message>, d: seq<Message>) {
    (a == [] || (!Plain(a[|a| - 1]) && a[|a| - 1].role.User?)) && forall m :: m in d ==> Plain(m)
  }

  lemma {:induction false} SplitAtSummary(h: seq<Message>) returns (a: seq<Message>, d: seq<Message>)
    requires WellFormed(h)
    ensures h == a + d && |a| == LastSummary(h) + 1 && SplitsAtSummary(a, d)
  {
    var last := LastSummary(h);
    a, d := h[..last + 1], h[last + 1..];
    Seqs.Cut(h, last + 1);
    PlainFrom(h, last + 1);
  }

  /** What holds of a history already held when its latest summary was appended. */
  lemma {:induction false} AtSummary(a: seq<Message>, d: seq<Message>)
    requires SplitsAtSummary(a, d) && WellFormed(a + d)
    ensures WellFormed(a) && (Carried(a + d) ==> Carried(a))
  {
    if a == [] {
      ViewOfPlain(a);
    } else {
      var e, s := a[..|a| - 1], a[|a| - 1];
      Seqs.LastApart(a, e, s);
      WellFormedAtSummary(e, s, d);
      if Carried(a + d) {
        AskedAgree(e + [s], d, s.compaction.value.head, TailAt(|e|, s.compaction.value));
      }
    }
  }

  lemma {:induction false} WellFormedAtSummary(e: seq<Message>, s: Message, d: seq<Message>)
    requires !Plain(s) && s.role.User? && (forall m :: m in d ==> Plain(m)) && WellFormed(e + [s] + d)
    ensures WellFormed(e + [s]) && LastSummary(e + [s]) == |e| == LastSummary(e + [s] + d)
    ensures (e + [s] + d)[|e|] == s == (e + [s])[|e|]
  {
    SummaryAtPlace(e, s, d);
    Seqs.Empty(e + [s]);
    SummaryAtPlace(e, s, []);
    Seqs.Snoc(e, s);
    SystemPrefixStable(e + [s], d);
  }

  lemma {:induction false} CollapseAfter(a: seq<Message>, d: seq<Message>, wanted: set<string>)
    requires NoneDoomed(a + d, wanted, 0, |a|)
    ensures Collapsed(a + d, wanted) == a + Collapsed(d, wanted)
  {
    CollapseConcat(a, d, wanted);
    NoneDoomedIn(a, d, wanted, 0, |a|);
    PrefixKeptIff(a, wanted, |a|);
    CollapseShrinks(a, wanted);
    assert a[..|a|] == a;
    assert Collapsed(a, wanted)[..|Collapsed(a, wanted)|] == Collapsed(a, wanted);
  }

  /** Dropping copies behind the latest summary alone. */
  lemma {:induction false} CollapseBehind(a: seq<Message>, d: seq<Message>, wanted: set<string>)
    requires SplitsAtSummary(a, d) && WellFormed(a + d) && NoneDoomed(a + d, wanted, 0, |a|)
    ensures var c := Collapsed(a + d, wanted);
            && WellFormed(c) && (SeamsHold(c) <==> SeamsHold(a + d)) && (Carried(a + d) ==> Carried(c))
  {
    AtSummary(a, d);
    CollapseAfter(a, d, wanted);
    CollapseShrinks(d, wanted);
    SeamsStay(a, d);
    SeamsStay(a, Collapsed(d, wanted));
    ViewExtends(a, Collapsed(d, wanted));
    if Carried(a) {
      AppendCarriesRequests(a, Collapsed(d, wanted));
    }
  }

  /**
    With no unanswered copy up to the latest summary a resumed run starts as the stored one left off:
    sound if and only if the seams held, and telling if every request was carried.
   */
  lemma {:induction false} ResumedRunIsSound(stored: seq<Message>, wanted: set<string>, task: Message)
    requires task.role.User? && Plain(task)
    requires var h := WithoutExits(stored);
             && Clean(h) && Grounded(h) && UserSummaries(h) && WellFormed(h)
             && NoneDoomed(h, wanted, 0, LastSummary(h) + 1)
    ensures var h, start := WithoutExits(stored), State(StartOf(stored, wanted, task), Ready, None);
            (Sound(start) <==> SeamsHold(h)) && (Carried(h) ==> Telling(start))
  {
    var h, c := WithoutExits(stored), Resumed(stored, wanted);
    var more := SyntheticResults(Pending(h)) + [task];
    var a, d := SplitAtSummary(h);
    CollapseBehind(a, d, wanted);
    StartFacts(stored, wanted, task, more);
    SoundStart(c, more, task);
  }

  lemma {:induction false} StartFacts(stored: seq<Message>, wanted: set<string>, task: Message, more: seq<Message>)
    requires task.role.User? && Plain(task)
    requires var h := WithoutExits(stored);
             Clean(h) && Grounded(h) && UserSummaries(h) && more == SyntheticResults(Pending(h)) + [task]
    ensures var start := Resumed(stored, wanted) + more;
            start == StartOf(stored, wanted, task) && Paired(start) && UserSummaries(start) && NoExits(start)
  {
    StartIs(stored, wanted, task);
    ClosedAndAsked(Resumed(stored, wanted), task);
    SummariesLeft(WithoutExits(stored), wanted, more);
    NoExitsLeft(stored, wanted, more);
  }

  /** What is added behind a well-formed history for a paired start. */
  lemma {:induction false} SoundStart(c: seq<Message>, more: seq<Message>, task: Message)
    requires WellFormed(c) && Paired(c + more) && UserSummaries(c + more) && NoExits(c + more)
    requires more != [] && more[|more| - 1] == task && task.role.User? && forall m :: m in more ==> Plain(m)
    ensures var start := State(c + more, Ready, None);
            (Sound(start) <==> SeamsHold(c)) && (Carried(c) ==> Telling(start))
  {
    ViewExtends(c, more);
    SeamsStay(c, more);
    ViewPairedIff(c + more);
    if Carried(c) {
      AppendCarriesRequests(c, more);
    }
    StartEnds(c, more, task);
  }

  lemma {:induction false} NoExitsLeft(stored: seq<Message>, wanted: set<string>, more: seq<Message>)
    requires forall m :: m in more ==> !m.role.Exit?
    ensures NoExits(Resumed(stored, wanted) + more)
  {
    var h, c := WithoutExits(stored), Resumed(stored, wanted);
    ExitsGone(stored);
    CollapseShrinks(h, wanted);
    forall i | 0 <= i < |c + more| ensures !(c + more)[i].role.Exit? {
      if i < |c| {
        assert c[i] in c && c[i] in h;
      } else {
        assert (c + more)[i] == more[i - |c|];
      }
    }
  }

  lemma {:induction false} ExitsGone(ms: seq<Message>)
    ensures forall m :: m in WithoutExits(ms) ==> !m.role.Exit?
  {
    if ms != [] {
      ExitsGone(ms[..|ms| - 1]);
    }
  }

  /** A paired start that ends on a user message is sound exactly when its view is paired. */
  lemma {:induction false} StartEnds(c: seq<Message>, more: seq<Message>, task: Message)
    requires WellFormed(c + more) && Paired(c + more) && UserSummaries(c + more) && NoExits(c + more)
    requires more != [] && more[|more| - 1] == task && task.role.User?
    ensures var start := State(c + more, Ready, None);
            && (Sound(start) <==> Paired(View(c + more))) && (Carried(c + more) ==> Telling(start))
  {
    assert (c + more)[|c + more| - 1] == task;
  }

  // ---- stopped and resumed ---------------------------------------------------------

  /** Nothing but a last exit is filtered from the history of a sound state. */
  lemma {:induction false} BodyIsStored(s: State)
    requires NoExits(Body(s))
    ensures WithoutExits(s.messages) == Body(s)
  {
    NothingFiltered(Body(s));
    if Body(s) != s.messages {
      Seqs.LastApart(s.messages, Body(s), s.messages[|s.messages| - 1]);
    }
  }

  lemma {:induction false} NothingFiltered(ms: seq<Message>)
    requires NoExits(ms)
    ensures WithoutExits(ms) == ms
  {
    if ms != [] {
      NothingFiltered(ms[..|ms| - 1]);
      Seqs.LastApart(ms, ms[..|ms| - 1], ms[|ms| - 1]);
    }
  }

  /**
    A run stopped in any phase: what was stored is the history without the exit being judged, and it meets
    what resuming asks for.
   */
  lemma {:induction false} StoppedMeets(s: State, stored: seq<Message>)
    requires Sound(s) && WithoutExits(stored) == WithoutExits(s.messages)
    ensures var h := WithoutExits(stored);
            && h == Body(s) && Clean(h) && Grounded(h) && UserSummaries(h) && WellFormed(h) && SeamsHold(h)
            && (Telling(s) ==> Carried(h))
  {
    BodyIsStored(s);
    CleanBody(s);
    MirrorsHold(Body(s));
  }

  /** Stopped and resumed: with no unanswered copy in the frame the first query is paired. */
  lemma {:induction false} StoppedQueryIsPaired(s: State, stored: seq<Message>, wanted: set<string>, task: Message)
    requires Sound(s) && WithoutExits(stored) == WithoutExits(s.messages) && task.role.User? && Plain(task)
    requires var h := WithoutExits(stored);
             Viewable(h) && (LastSummary(h) >= 0 ==> HasFrame(h, wanted) && FrameUntouched(h, wanted))
    ensures var start := StartOf(stored, wanted, task); Viewable(start) && Paired(View(start))
  {
    StoppedMeets(s, stored);
    ResumedQueryIsPaired(stored, wanted, task);
  }

  /** Stopped and resumed: with no unanswered copy up to the latest summary the new run is sound, and telling if the old one was. */
  lemma {:induction false} StoppedRunIsSound(s: State, stored: seq<Message>, wanted: set<string>, task: Message)
    requires Sound(s) && WithoutExits(stored) == WithoutExits(s.messages) && task.role.User? && Plain(task)
    requires var h := WithoutExits(stored); NoneDoomed(h, wanted, 0, LastSummary(h) + 1)
    ensures var start := State(StartOf(stored, wanted, task), Ready, None); Sound(start) && (Telling(s) ==> Telling(start))
  {
    StoppedMeets(s, stored);
    ResumedRunIsSound(stored, wanted, task);
  }

  lemma {:induction false} CleanBody(s: State)
    requires Answered(s)
    ensures Clean(Body(s))
  {
  }

  // ---- from the journal ------------------------------------------------------------

  /**
    Saved and resumed: whatever a run did to its history and its journal, after a successful save a session
    resumed from the file starts as one resumed from the history, if no torn note swallowed a message.
   */
  lemma {:induction false} ResumedFromJournal(ops: seq<J.Op>, wanted: set<string>, task: Message)
    requires var l := J.ApplyAll(J.NEW_LOG, ops); J.LostAfter(l, J.LostAll(J.NEW_LOG, 0, ops), J.Save(J.Succeeds)) == 0
    ensures var l := J.ApplyAll(J.NEW_LOG, ops);
            StartOf(J.Read(J.Saved(l, J.Succeeds).file), wanted, task) == StartOf(l.messages, wanted, task)
  {
    J.EverySaveAgreesIff(ops);
  }
}
