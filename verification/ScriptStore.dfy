/** The small store that scripts of one run share, committed only when a script succeeds. */
module ScriptStore {
  import opened Transcript
  import Seqs

  newtype byte = x: int | 0 <= x < 256
  type Bytes = seq<byte>

  const KEYS: nat := 64
  const VALUE_BYTES: nat := 16 * 1024
  const TOTAL_BYTES: nat := 128 * 1024
  const KEY_BYTES: nat := 128
  const REQUEST_BYTES: nat := 20 * 1024

  /** A key and its value, serialized. */
  datatype Entry = Entry(key: Bytes, value: Bytes)

  type Store = seq<Entry>

  predicate Has(s: Store, key: Bytes) {
    exists i :: 0 <= i < |s| && s[i].key == key
  }

  function Lookup(s: Store, key: Bytes): Option<Bytes> {
    if s == [] then None else if s[0].key == key then Some(s[0].value) else Lookup(s[1..], key)
  }

  function Without(s: Store, key: Bytes): Store {
    if s == [] then [] else (if s[0].key == key then [] else [s[0]]) + Without(s[1..], key)
  }

  /** Keys and values together. */
  function Size(s: Store): nat {
    if s == [] then 0 else |s[0].key| + |s[0].value| + Size(s[1..])
  }

  function Put(s: Store, key: Bytes, value: Bytes): Store {
    Without(s, key) + [Entry(key, value)]
  }

  /** The limits a committed store keeps. */
  ghost predicate Bounded(s: Store) {
    && |s| <= KEYS && Size(s) <= TOTAL_BYTES
    && (forall i :: 0 <= i < |s| ==> 0 < |s[i].key| <= KEY_BYTES && |s[i].value| <= VALUE_BYTES)
    && DistinctKeys(s)
  }

  ghost predicate DistinctKeys(s: Store) {
    forall i, j :: 0 <= i < j < |s| ==> s[i].key != s[j].key
  }

  /** One call of the script into the store; `late` says that the run was stopped or its time is up. */
  datatype Call =
    | Load(key: Bytes, requestBytes: nat, late: bool)
    | Delete(key: Bytes, requestBytes: nat, late: bool)
    | Set(key: Bytes, value: Bytes, requestBytes: nat, late: bool)

  predicate Refused(c: Call) {
    c.late || c.requestBytes > REQUEST_BYTES || |c.key| == 0 || |c.key| > KEY_BYTES
  }

  predicate Fits(s: Store, key: Bytes, value: Bytes) {
    && |value| <= VALUE_BYTES
    && (Has(s, key) || |s| < KEYS)
    && Size(Without(s, key)) + |key| + |value| <= TOTAL_BYTES
  }

  /** The store after a call; a call that throws changes nothing, and the script may go on. */
  function Called(s: Store, c: Call): Store {
    if Refused(c) then s
    else
      match c
      case Load(_, _, _) => s
      case Delete(key, _, _) => Without(s, key)
      case Set(key, value, _, _) => if Fits(s, key, value) then Put(s, key, value) else s
  }

  function CalledAll(s: Store, calls: seq<Call>): Store
    decreases |calls|
  {
    if calls == [] then s else CalledAll(Called(s, calls[0]), calls[1..])
  }

  /** One execution: its calls, and whether it ended well and in time. */
  datatype Execution = Execution(calls: seq<Call>, succeeded: bool, cancelled: bool)

  function Executed(s: Store, x: Execution): Store {
    if x.succeeded && !x.cancelled then CalledAll(s, x.calls) else s
  }

  function ExecutedAll(s: Store, xs: seq<Execution>): Store
    decreases |xs|
  {
    if xs == [] then s else ExecutedAll(Executed(s, xs[0]), xs[1..])
  }

  class Scripts {
    /** The committed store of this agent run. */
    var state: Store

    constructor ()
      ensures state == []
    {
      state := [];
    }

    /** Calls work on a copy that replaces the store only when the execution succeeded in time. */
    method Outcome(x: Execution)
      modifies this
      ensures state == Executed(old(state), x)
    {
      var candidate := state;
      var i := 0;
      while i < |x.calls|
        invariant 0 <= i <= |x.calls|
        invariant CalledAll(candidate, x.calls[i..]) == CalledAll(state, x.calls)
        invariant state == old(state)
      {
        assert x.calls[i..][0] == x.calls[i] && x.calls[i..][1..] == x.calls[i + 1..];
        var c := x.calls[i];
        if !Refused(c) {
          match c {
            case Load(_, _, _) =>
            case Delete(key, _, _) => candidate := Without(candidate, key);
            case Set(key, value, _, _) =>
              if Fits(candidate, key, value) {
                candidate := Put(candidate, key, value);
              }
          }
        }
        i := i + 1;
      }
      if x.succeeded && !x.cancelled {
        state := candidate;
      }
    }
  }

  // ---- the limits ------------------------------------------------------------------

  /** Removing a key removes its entry and nothing else. */
  lemma {:induction false} WithoutKeeps(s: Store, key: Bytes)
    ensures var r := Without(s, key);
            && Size(r) <= Size(s) && |r| <= |s|
            && (forall i :: 0 <= i < |r| ==> r[i] in s && r[i].key != key)
            && (!Has(s, key) ==> r == s)
  {
    if s != [] {
      WithoutKeeps(s[1..], key);
      var rest := Without(s[1..], key);
      Seqs.Empty(rest);
      Seqs.Uncons(s);
      if s[0].key != key {
        HasTail(s, key);
        assert ([s[0]] + rest)[1..] == rest;
      }
    }
  }

  lemma {:induction false} WithoutCounts(s: Store, key: Bytes)
    requires DistinctKeys(s)
    ensures DistinctKeys(Without(s, key))
    ensures |Without(s, key)| == if Has(s, key) then |s| - 1 else |s|
  {
    if s != [] {
      var rest := Without(s[1..], key);
      assert DistinctKeys(s[1..]);
      WithoutCounts(s[1..], key);
      if s[0].key == key {
        assert !Has(s[1..], key);
        assert Without(s, key) == [] + rest == rest;
      } else {
        HasTail(s, key);
        WithoutKeeps(s[1..], key);
        DistinctCons(s, rest);
      }
    }
  }

  lemma {:induction false} DistinctCons(s: Store, rest: Store)
    requires s != [] && DistinctKeys(s) && DistinctKeys(rest) && forall i :: 0 <= i < |rest| ==> rest[i] in s[1..]
    ensures DistinctKeys([s[0]] + rest)
  {
    forall j | 0 <= j < |rest| ensures rest[j].key != s[0].key {
      var k :| 0 <= k < |s[1..]| && s[1..][k] == rest[j];
      assert s[k + 1] == rest[j];
    }
  }

  lemma {:induction false} HasTail(s: Store, key: Bytes)
    requires s != [] && s[0].key != key
    ensures Has(s, key) <==> Has(s[1..], key)
  {
    if Has(s, key) {
      var i :| 0 <= i < |s| && s[i].key == key;
      assert s[1..][i - 1].key == key;
    }
  }

  lemma {:induction false} SizeAppend(s: Store, e: Entry)
    ensures Size(s + [e]) == Size(s) + |e.key| + |e.value|
  {
    if s == [] {
      assert s + [e] == [e];
    } else {
      assert (s + [e])[1..] == s[1..] + [e];
      SizeAppend(s[1..], e);
    }
  }

  lemma {:induction false} WithoutBounded(s: Store, key: Bytes)
    requires Bounded(s)
    ensures Bounded(Without(s, key))
  {
    WithoutKeeps(s, key);
    WithoutCounts(s, key);
  }

  /** A value is taken exactly when the store with it, the old value of that key replaced, is within the limits. */
  lemma {:induction false} SetFitsIffBounded(s: Store, key: Bytes, value: Bytes)
    requires Bounded(s) && 0 < |key| <= KEY_BYTES
    ensures Fits(s, key, value) <==> Bounded(Put(s, key, value))
    ensures Lookup(Put(s, key, value), key) == Some(value)
  {
    WithoutKeeps(s, key);
    WithoutCounts(s, key);
    WithoutBounded(s, key);
    AppendBounded(Without(s, key), Entry(key, value));
    LookupLast(Without(s, key), Entry(key, value));
  }

  lemma {:induction false} AppendBounded(s: Store, e: Entry)
    requires Bounded(s) && 0 < |e.key| <= KEY_BYTES && forall i :: 0 <= i < |s| ==> s[i].key != e.key
    ensures Bounded(s + [e]) <==> |s| < KEYS && |e.value| <= VALUE_BYTES && Size(s) + |e.key| + |e.value| <= TOTAL_BYTES
  {
    SizeAppend(s, e);
    assert (s + [e])[|s|] == e;
  }

  lemma {:induction false} LookupLast(s: Store, e: Entry)
    requires forall i :: 0 <= i < |s| ==> s[i].key != e.key
    ensures Lookup(s + [e], e.key) == Some(e.value)
  {
    if s != [] {
      assert (s + [e])[1..] == s[1..] + [e];
      LookupLast(s[1..], e);
    }
  }

  lemma {:induction false} CallKeeps(s: Store, c: Call)
    requires Bounded(s)
    ensures Bounded(Called(s, c))
  {
    if c.Delete? {
      WithoutBounded(s, c.key);
    } else if c.Set? && !Refused(c) {
      SetFitsIffBounded(s, c.key, c.value);
    }
  }

  lemma {:induction false} CallsKeep(s: Store, calls: seq<Call>)
    requires Bounded(s)
    ensures Bounded(CalledAll(s, calls))
    decreases |calls|
  {
    if calls != [] {
      CallKeeps(s, calls[0]);
      CallsKeep(Called(s, calls[0]), calls[1..]);
    }
  }

  // ---- what scripts read -----------------------------------------------------------

  /** The call is made in time, its request is small enough, and its key has between 1 and 128 bytes. */
  predicate Admitted(c: Call) {
    !c.late && c.requestBytes <= 20480 && 1 <= |c.key| <= 128
  }

  /**
    What a call changes, as scripts read the store: a deletion takes its key away, a value that keeps the store
    within its limits is there afterwards, and every other key reads as before; any other call changes nothing.
   */
  lemma {:induction false} CallMeans(s: Store, c: Call)
    requires Bounded(s)
    ensures forall k :: k != c.key ==> Lookup(Called(s, c), k) == Lookup(s, k)
    ensures Admitted(c) && c.Delete? ==> Lookup(Called(s, c), c.key) == None
    ensures Admitted(c) && c.Set? && Bounded(Put(s, c.key, c.value)) ==> Lookup(Called(s, c), c.key) == Some(c.value)
    ensures c.Load? || !Admitted(c) || (c.Set? && !Bounded(Put(s, c.key, c.value))) ==> Called(s, c) == s
  {
    if Admitted(c) {
      WithoutReads(s, c.key);
      WithoutKeeps(s, c.key);
      if c.Set? {
        SetFitsIffBounded(s, c.key, c.value);
        LookupOthers(Without(s, c.key), Entry(c.key, c.value));
      }
    }
  }

  lemma {:induction false} WithoutReads(s: Store, key: Bytes)
    ensures Lookup(Without(s, key), key) == None
    ensures forall k :: k != key ==> Lookup(Without(s, key), k) == Lookup(s, k)
  {
    if s != [] {
      WithoutReads(s[1..], key);
      var rest := Without(s[1..], key);
      if s[0].key == key {
        assert Without(s, key) == rest by { Seqs.Empty(rest); }
      } else {
        assert ([s[0]] + rest)[1..] == rest;
      }
    }
  }

  lemma {:induction false} LookupOthers(s: Store, e: Entry)
    ensures forall k :: k != e.key ==> Lookup(s + [e], k) == Lookup(s, k)
  {
    if s == [] {
      assert s + [e] == [e] && [e][1..] == [];
    } else {
      assert (s + [e])[1..] == s[1..] + [e];
      LookupOthers(s[1..], e);
    }
  }

  /** No later call sets or deletes the key. */
  predicate Untouched(calls: seq<Call>, key: Bytes) {
    forall i :: 0 <= i < |calls| ==> calls[i].Load? || calls[i].key != key
  }

  lemma {:induction false} UntouchedReads(s: Store, calls: seq<Call>, key: Bytes)
    requires Bounded(s) && Untouched(calls, key)
    ensures Lookup(CalledAll(s, calls), key) == Lookup(s, key)
    decreases |calls|
  {
    if calls != [] {
      CallMeans(s, calls[0]);
      CallKeeps(s, calls[0]);
      UntouchedReads(Called(s, calls[0]), calls[1..], key);
    }
  }

  lemma {:induction false} CallsApart(s: Store, calls: seq<Call>, i: nat)
    requires i <= |calls|
    ensures CalledAll(s, calls) == CalledAll(CalledAll(s, calls[..i]), calls[i..])
    decreases |calls|
  {
    if i == 0 {
      assert calls[0..] == calls;
    } else {
      assert calls[..i][0] == calls[0] && calls[..i][1..] == calls[1..][..i - 1] && calls[1..][i - 1..] == calls[i..];
      CallsApart(Called(s, calls[0]), calls[1..], i - 1);
    }
  }

  /**
    The last value that an execution sets, if it was within the limits then, is what the next execution
    reads when this one succeeds in time; when it does not, every key reads as before.
   */
  lemma {:induction false} LastSetIsRead(s: Store, x: Execution, i: nat)
    requires Bounded(s) && i < |x.calls| && x.calls[i].Set? && Admitted(x.calls[i]) && Untouched(x.calls[i + 1..], x.calls[i].key)
    requires Bounded(Put(CalledAll(s, x.calls[..i]), x.calls[i].key, x.calls[i].value))
    ensures x.succeeded && !x.cancelled ==> Lookup(Executed(s, x), x.calls[i].key) == Some(x.calls[i].value)
    ensures !x.succeeded || x.cancelled ==> Executed(s, x) == s
  {
    var before := CalledAll(s, x.calls[..i]);
    CallsKeep(s, x.calls[..i]);
    CallsApart(s, x.calls, i);
    assert x.calls[i..][0] == x.calls[i] && x.calls[i..][1..] == x.calls[i + 1..];
    CallMeans(before, x.calls[i]);
    CallKeeps(before, x.calls[i]);
    UntouchedReads(Called(before, x.calls[i]), x.calls[i + 1..], x.calls[i].key);
  }

  /** Over any executions the committed store stays within its limits. */
  lemma {:induction false} CommittedStoreIsBounded(s: Store, xs: seq<Execution>)
    requires Bounded(s)
    ensures Bounded(ExecutedAll(s, xs))
    decreases |xs|
  {
    if xs != [] {
      CallsKeep(s, xs[0].calls);
      CommittedStoreIsBounded(Executed(s, xs[0]), xs[1..]);
    }
  }

  /** Executions that failed, were stopped or ran out of time leave no trace in a run. */
  lemma {:induction false} FailuresLeaveNoTrace(s: Store, xs: seq<Execution>)
    ensures ExecutedAll(s, xs) == ExecutedAll(s, Committed(xs))
    decreases |xs|
  {
    if xs != [] {
      FailuresLeaveNoTrace(Executed(s, xs[0]), xs[1..]);
      var rest := Committed(xs[1..]);
      if xs[0].succeeded && !xs[0].cancelled {
        assert ([xs[0]] + rest)[1..] == rest;
      } else {
        assert [] + rest == rest;
      }
    }
  }

  function Committed(xs: seq<Execution>): seq<Execution> {
    if xs == [] then []
    else (if xs[0].succeeded && !xs[0].cancelled then [xs[0]] else []) + Committed(xs[1..])
  }
}
