/** The user's requests that a summary carries: `user_requests` and `cap_requests`. */
module Requests {
  import opened Transcript
  import Seqs

  const TASK_PREFIX := "The user added a new task: "
  const PER_REQUEST: nat := 3000
  const ALL_REQUESTS: nat := 30000

  function StripTask(text: string): string {
    if TASK_PREFIX <= text then text[|TASK_PREFIX|..] else text
  }

  /** What one message says the user asked for: a summary passes its own list on. */
  function RequestsOf(m: Message): seq<string> {
    if m.compaction.Some? then m.compaction.value.userMessages
    else if m.role.User? && (m.interrupt.UserNewTask? || m.interrupt.UserInterruption?) then [StripTask(m.text)]
    else []
  }

  function UserRequests(ms: seq<Message>): seq<string> {
    if ms == [] then [] else UserRequests(ms[..|ms| - 1]) + RequestsOf(ms[|ms| - 1])
  }

  method ComputeUserRequests(ms: seq<Message>) returns (out: seq<string>)
    ensures out == UserRequests(ms)
  {
    out := [];
    for i := 0 to |ms|
      invariant out == UserRequests(ms[..i])
    {
      assert ms[..i + 1][..i] == ms[..i];
      if ms[i].compaction.Some? {
        out := out + ms[i].compaction.value.userMessages;
      } else if ms[i].role.User? && (ms[i].interrupt.UserNewTask? || ms[i].interrupt.UserInterruption?) {
        out := out + [StripTask(ms[i].text)];
      }
    }
    assert ms[..|ms|] == ms;
  }

  lemma {:induction false} UserRequestsConcat(a: seq<Message>, b: seq<Message>)
    ensures UserRequests(a + b) == UserRequests(a) + UserRequests(b)
  {
    if b == [] {
      Seqs.Empty(a);
      Seqs.Empty(UserRequests(a));
    } else {
      Seqs.Init(a, b);
      UserRequestsConcat(a, b[..|b| - 1]);
      Seqs.Assoc(UserRequests(a), UserRequests(b[..|b| - 1]), RequestsOf(b[|b| - 1]));
    }
  }

  /**
    What one message adds to the requests: a summary its own list; a task or an interruption of the user its
    text, without the opening of the note that brought the task; any other message nothing.
   */
  lemma {:induction false} MessageAsks(m: Message)
    ensures m.compaction.Some? ==> UserRequests([m]) == m.compaction.value.userMessages
    ensures m.compaction.None? && m.role.User? && m.interrupt in {UserNewTask, UserInterruption} ==>
              && (forall t :: m.text == "The user added a new task: " + t ==> UserRequests([m]) == [t])
              && (!("The user added a new task: " <= m.text) ==> UserRequests([m]) == [m.text])
    ensures m.compaction.None? && (!m.role.User? || m.interrupt in {NoInterrupt, OtherInterrupt}) ==> UserRequests([m]) == []
  {
    assert [m][..0] == [];
    Seqs.Empty(RequestsOf(m));
    forall t | m.text == TASK_PREFIX + t ensures StripTask(m.text) == t {
      assert m.text[|TASK_PREFIX|..] == t;
    }
  }

  // ---- the cap ---------------------------------------------------------------------

  function Clip(r: string): string {
    if |r| <= PER_REQUEST then r else r[..PER_REQUEST] + " [...]"
  }

  function ClipAll(rs: seq<string>): (out: seq<string>)
    ensures |out| == |rs|
    ensures forall i :: 0 <= i < |rs| ==> out[i] == Clip(rs[i])
  {
    seq(|rs|, i requires 0 <= i < |rs| => Clip(rs[i]))
  }

  /** The requests from the end that fit into `room`, stopping at the first that does not. */
  function RecentRun(rs: seq<string>, room: nat): seq<string> {
    if rs == [] then []
    else
      var r := rs[|rs| - 1];
      if |r| > room then [] else RecentRun(rs[..|rs| - 1], room - |r|) + [r]
  }

  function Capped(rs: seq<string>): seq<string> {
    if rs == [] then [] else [Clip(rs[0])] + RecentRun(ClipAll(rs[1..]), ALL_REQUESTS)
  }

  /** Walk back from the latest request while the total fits. */
  method KeepRecent(later: seq<string>) returns (kept: seq<string>)
    ensures kept == RecentRun(later, ALL_REQUESTS)
  {
    kept := [];
    var size := 0;
    var i := |later|;
    assert later[..i] == later;
    Seqs.Empty(RecentRun(later, ALL_REQUESTS));
    while i > 0
      invariant 0 <= i <= |later| && size <= ALL_REQUESTS
      invariant RecentRun(later, ALL_REQUESTS) == RecentRun(later[..i], ALL_REQUESTS - size) + kept
    {
      var r := later[i - 1];
      assert later[..i][..i - 1] == later[..i - 1];
      if size + |r| > ALL_REQUESTS {
        break;
      }
      Seqs.Assoc(RecentRun(later[..i - 1], ALL_REQUESTS - size - |r|), [r], kept);
      kept := [r] + kept;
      size := size + |r|;
      i := i - 1;
    }
    Seqs.Empty(kept);
  }

  method CapRequests(requests: seq<string>) returns (out: seq<string>)
    ensures out == Capped(requests)
  {
    var clipped := ClipAll(requests);
    if clipped == [] {
      return [];
    }
    ClipAllTail(requests);
    var kept := KeepRecent(clipped[1..]);
    out := [clipped[0]] + kept;
  }

  function TotalLength(rs: seq<string>): nat {
    if rs == [] then 0 else TotalLength(rs[..|rs| - 1]) + |rs[|rs| - 1]|
  }

  /** A request of up to 3000 characters is kept whole; of a longer one its first 3000, marked. */
  lemma {:induction false} ClipKeeps(r: string)
    ensures |r| <= 3000 ==> Clip(r) == r
    ensures |r| > 3000 ==> |Clip(r)| == 3006 && Clip(r)[..3000] == r[..3000] && Clip(r)[3000..] == " [...]"
  {
    if |r| > 3000 {
      assert (r[..3000] + " [...]")[..3000] == r[..3000];
    }
  }

  /** A list whose requests are short enough, and whose later ones are together, passes as it is. */
  lemma {:induction false} ShortListPasses(rs: seq<string>)
    requires forall i :: 0 <= i < |rs| ==> |rs[i]| <= 3000
    requires rs != [] ==> TotalLength(rs[1..]) <= 30000
    ensures Capped(rs) == rs
  {
    if rs != [] {
      var later := rs[1..];
      assert ClipAll(later) == later;
      var k := CapKeepsFirstAndRecent(rs);
      if k > 0 {
        SuffixTotal(later, k - 1);
      }
      Seqs.Uncons(rs);
    }
  }

  lemma {:induction false} SuffixTotal(rs: seq<string>, k: nat)
    requires k <= |rs|
    ensures TotalLength(rs[k..]) <= TotalLength(rs)
    decreases |rs|
  {
    if k < |rs| {
      TotalOfSlice(rs, k);
      SuffixTotal(rs[..|rs| - 1], k);
    }
  }

  /** The first request is kept, and after it the longest run of recent ones within the limit. */
  lemma {:induction false} CapKeepsFirstAndRecent(rs: seq<string>) returns (k: nat)
    requires rs != []
    ensures var later := ClipAll(rs[1..]);
            && k <= |later|
            && Capped(rs) == [Clip(rs[0])] + later[k..]
            && TotalLength(later[k..]) <= ALL_REQUESTS
            && (k > 0 ==> TotalLength(later[k - 1..]) > ALL_REQUESTS)
  {
    k := RecentRunIsLongest(ClipAll(rs[1..]), ALL_REQUESTS);
  }

  lemma {:induction false} ClipAllTail(rs: seq<string>)
    requires rs != []
    ensures ClipAll(rs)[1..] == ClipAll(rs[1..])
  {
  }

  lemma {:induction false} TotalOfSlice(rs: seq<string>, k: nat)
    requires k < |rs|
    ensures TotalLength(rs[k..]) == TotalLength(rs[..|rs| - 1][k..]) + |rs[|rs| - 1]|
  {
    Seqs.Slice(rs, k);
  }

  lemma {:induction false} RecentRunIsLongest(rs: seq<string>, room: nat) returns (k: nat)
    ensures k <= |rs| && RecentRun(rs, room) == rs[k..]
    ensures TotalLength(rs[k..]) <= room
    ensures k > 0 ==> TotalLength(rs[k - 1..]) > room
  {
    k := |rs|;
    if rs != [] {
      var r := rs[|rs| - 1];
      if |r| > room {
        TotalOfSlice(rs, |rs| - 1);
      } else {
        k := RecentRunIsLongest(rs[..|rs| - 1], room - |r|);
        RunGrows(rs, r, room, k);
      }
    }
  }

  lemma {:induction false} RunGrows(rs: seq<string>, r: string, room: nat, k: nat)
    requires rs != [] && r == rs[|rs| - 1] && |r| <= room && k < |rs|
    requires RecentRun(rs[..|rs| - 1], room - |r|) == rs[..|rs| - 1][k..]
    requires TotalLength(rs[..|rs| - 1][k..]) <= room - |r|
    requires k > 0 ==> TotalLength(rs[..|rs| - 1][k - 1..]) > room - |r|
    ensures RecentRun(rs, room) == rs[k..]
    ensures TotalLength(rs[k..]) <= room
    ensures k > 0 ==> TotalLength(rs[k - 1..]) > room
  {
    Seqs.Slice(rs, k);
    TotalOfSlice(rs, k);
    if k > 0 {
      TotalOfSlice(rs, k - 1);
    }
  }

  /** Capping at every compaction is capping the whole list once. */
  lemma {:induction false} CapOfCap(a: seq<string>, b: seq<string>)
    ensures Capped(Capped(a) + b) == Capped(a + b)
  {
    if a == [] {
      assert Capped(a) + b == a + b;
    } else {
      var later := a[1..];
      var run := RecentRun(ClipAll(later), ALL_REQUESTS);
      assert a + b == [a[0]] + (later + b) && Capped(a) + b == [Clip(a[0])] + (run + b);
      CappedCons(a[0], later + b);
      CappedCons(Clip(a[0]), run + b);
      ClipTwice(a[0]);
      ClippedRun(later, run);
      ClipAllConcat(later, b);
      ClipAllConcat(run, b);
      RunOfRun(ClipAll(later), ClipAll(b), ALL_REQUESTS, ALL_REQUESTS);
    }
  }

  lemma {:induction false} CappedCons(first: string, later: seq<string>)
    ensures Capped([first] + later) == [Clip(first)] + RecentRun(ClipAll(later), ALL_REQUESTS)
  {
    assert ([first] + later)[1..] == later;
  }

  lemma {:induction false} ClipAllConcat(a: seq<string>, b: seq<string>)
    ensures ClipAll(a + b) == ClipAll(a) + ClipAll(b)
  {
  }

  /** What the cap kept is already clipped. */
  lemma {:induction false} ClippedRun(rs: seq<string>, run: seq<string>)
    requires run == RecentRun(ClipAll(rs), ALL_REQUESTS)
    ensures ClipAll(run) == run
  {
    var k := RecentRunIsLongest(ClipAll(rs), ALL_REQUESTS);
    forall i | 0 <= i < |run| ensures Clip(run[i]) == run[i] {
      assert run[i] == Clip(rs[k + i]);
      ClipTwice(rs[k + i]);
    }
  }

  lemma {:induction false} ClipTwice(r: string)
    ensures Clip(Clip(r)) == Clip(r)
  {
    if |r| > PER_REQUEST {
      assert Clip(r)[..PER_REQUEST] == r[..PER_REQUEST];
    }
  }

  lemma {:induction false} RunOfRun(x: seq<string>, y: seq<string>, limit: nat, room: nat)
    requires room <= limit
    ensures RecentRun(RecentRun(x, limit) + y, room) == RecentRun(x + y, room)
    decreases |x| + |y|
  {
    if y != [] {
      var r := y[|y| - 1];
      var run := RecentRun(x, limit);
      assert (run + y)[..|run + y| - 1] == run + y[..|y| - 1];
      assert (x + y)[..|x + y| - 1] == x + y[..|y| - 1];
      if |r| <= room {
        RunOfRun(x, y[..|y| - 1], limit, room - |r|);
      }
    } else {
      assert x + y == x && RecentRun(x, limit) + y == RecentRun(x, limit);
      if x != [] {
        var r := x[|x| - 1];
        var x' := x[..|x| - 1];
        if |r| <= room {
          RunOfRun(x', [], limit - |r|, room - |r|);
          assert x' + [] == x' && RecentRun(x', limit - |r|) + [] == RecentRun(x', limit - |r|);
          assert RecentRun(x, limit)[..|RecentRun(x, limit)| - 1] == RecentRun(x', limit - |r|);
        }
      }
    }
  }
}
