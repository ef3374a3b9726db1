/** The coverage manifest: what a contract check read, and whether it may still be delivered. */
module Staleness {
  import opened Transcript

  const FILES_PER_PART: nat := 256
  const DELIVERED_FILES: nat := 512
  const CORPUS_BYTES: nat := 4 * 1024 * 1024

  type Text = string

  /** What can be read safely now: inside the root, a file, at most 512 KB. */
  type Tree = string -> Option<Text>

  type Hash = Text -> string

  datatype Entry = Entry(path: string, digest: string)

  datatype Manifest = Manifest(
    files: seq<Entry>, unreadClaims: seq<string>, unreadIndex: seq<string>, changed: set<string>, orientation: string)

  function DigestOf(files: seq<Entry>, path: string): Option<string> {
    if files == [] then None
    else if files[|files| - 1].path == path then Some(files[|files| - 1].digest)
    else DigestOf(files[..|files| - 1], path)
  }

  function Bytes(files: seq<Entry>, tree: Tree): nat {
    if files == [] then 0
    else
      var text := tree(files[|files| - 1].path);
      Bytes(files[..|files| - 1], tree) + if text.Some? then |text.value| else 0
  }

  // ---- the check -------------------------------------------------------------------

  /** Every entry is what the tree holds now. */
  ghost predicate Current(files: seq<Entry>, tree: Tree, hash: Hash) {
    forall i :: 0 <= i < |files| ==>
      tree(files[i].path).Some? && files[i].digest == hash(tree(files[i].path).value)
  }

  ghost predicate Covers(files: seq<Entry>, path: string) {
    exists i :: 0 <= i < |files| && files[i].path == path
  }

  lemma {:induction false} DigestIffCovered(files: seq<Entry>, path: string)
    ensures DigestOf(files, path).Some? <==> Covers(files, path)
    ensures DigestOf(files, path).Some? ==>
              exists i :: 0 <= i < |files| && files[i] == Entry(path, DigestOf(files, path).value)
  {
    if files != [] {
      var front := files[..|files| - 1];
      DigestIffCovered(front, path);
      if files[|files| - 1].path == path {
        assert files[|files| - 1] == Entry(path, DigestOf(files, path).value);
      } else if DigestOf(front, path).Some? {
        var i :| 0 <= i < |front| && front[i] == Entry(path, DigestOf(front, path).value);
        assert files[i] == front[i];
      }
      if Covers(files, path) && files[|files| - 1].path != path {
        var i :| 0 <= i < |files| && files[i].path == path;
        assert front[i].path == path;
      }
    }
  }

  /** Each of these is covered or was reported as not examined. */
  ghost predicate Accounted(paths: seq<string>, files: seq<Entry>, unread: seq<string>) {
    forall p :: p in paths ==> Covers(files, p) || p in unread
  }

  lemma {:induction false} AccountedMore(paths: seq<string>, i: nat, files: seq<Entry>, unread: seq<string>, files': seq<Entry>, unread': seq<string>)
    requires i < |paths| && Accounted(paths[..i], files, unread) && unread <= unread'
    requires forall p :: Covers(files, p) ==> Covers(files', p)
    requires Covers(files', paths[i]) || paths[i] in unread'
    ensures Accounted(paths[..i + 1], files', unread')
  {
    forall p | p in paths[..i + 1] ensures Covers(files', p) || p in unread' {
      assert p in paths[..i] || p == paths[i];
    }
  }

  /** A file goes into the snapshot with its digest; a path that is there already keeps the digest it has, which is the same. */
  method Inserted(files: seq<Entry>, path: string, text: Text, tree: Tree, hash: Hash) returns (out: seq<Entry>)
    requires Current(files, tree, hash) && tree(path) == Some(text)
    ensures Current(out, tree, hash) && files <= out && |out| <= |files| + 1 && Bytes(out, tree) <= Bytes(files, tree) + |text|
    ensures Covers(out, path) && CoversAll(files, out)
    ensures |out| > |files| ==> out[|files|].path == path
  {
    out := files;
    DigestIffCovered(files, path);
    if DigestOf(files, path).None? {
      var e := Entry(path, hash(text));
      OneMoreEntry(files, e, tree, hash);
      out := files + [e];
    }
  }

  lemma {:induction false} OneMoreEntry(files: seq<Entry>, e: Entry, tree: Tree, hash: Hash)
    requires Current(files, tree, hash) && tree(e.path).Some? && e.digest == hash(tree(e.path).value)
    ensures Current(files + [e], tree, hash) && Bytes(files + [e], tree) == Bytes(files, tree) + |tree(e.path).value|
    ensures Covers(files + [e], e.path) && CoversAll(files, files + [e]) && (files + [e])[|files|] == e
  {
    CoverMore(files, e);
    BytesMore(files, e, tree);
  }

  /** The claimed files, each read once, within 256 files and 4 MB; the rest is reported as not examined. */
  method ReadClaims(claims: seq<string>, tree: Tree, hash: Hash)
    returns (files: seq<Entry>, unread: seq<string>, corpus: nat)
    ensures Current(files, tree, hash)
    ensures |files| <= FILES_PER_PART && Bytes(files, tree) <= CORPUS_BYTES && Bytes(files, tree) <= corpus
    ensures Accounted(claims, files, unread)
    ensures Roomy(claims, tree, 0) ==> Unreadable(unread, tree)
    ensures corpus <= TotalBytes(claims, tree) + |claims|
  {
    files, unread, corpus := [], [], 0;
    var bytes := 0;
    for i := 0 to |claims|
      invariant Current(files, tree, hash)
      invariant |files| <= i && |files| <= FILES_PER_PART
      invariant Bytes(files, tree) <= bytes <= CORPUS_BYTES && bytes <= corpus
      invariant Accounted(claims[..i], files, unread)
      invariant bytes <= TotalBytes(claims[..i], tree) && corpus <= bytes + i
      invariant Roomy(claims, tree, 0) ==> Unreadable(unread, tree)
    {
      TotalGrows(claims, tree, i);
      ghost var files0, unread0 := files, unread;
      var text := tree(claims[i]);
      if i >= FILES_PER_PART || text.None? || bytes + |text.value| > CORPUS_BYTES {
        if Roomy(claims, tree, 0) {
          OneMoreUnread(unread, claims[i], tree);
        }
        unread := unread + [claims[i]];
      } else {
        bytes := bytes + |text.value|;
        corpus := corpus + |text.value| + 1;
        files := Inserted(files, claims[i], text.value, tree, hash);
      }
      AccountedMore(claims, i, files0, unread0, files, unread);
    }
    assert claims[..|claims|] == claims;
  }

  /** The size of everything that can be read at these paths, a path counted as often as it is named. */
  function TotalBytes(paths: seq<string>, tree: Tree): nat {
    if paths == [] then 0
    else
      var text := tree(paths[|paths| - 1]);
      TotalBytes(paths[..|paths| - 1], tree) + if text.Some? then |text.value| else 0
  }

  /** These paths are within the limits, even with so many bytes more. */
  predicate Roomy(paths: seq<string>, tree: Tree, more: nat) {
    |paths| <= 256 && TotalBytes(paths, tree) + more <= 4 * 1024 * 1024
  }

  /** What was not read could not be read. */
  predicate Unreadable(unread: seq<string>, tree: Tree) {
    forall p :: p in unread ==> tree(p).None?
  }

  lemma {:induction false} OneMoreUnread(unread: seq<string>, p: string, tree: Tree)
    requires Unreadable(unread, tree) && tree(p).None?
    ensures Unreadable(unread + [p], tree)
  {
  }

  lemma {:induction false} TotalGrows(paths: seq<string>, tree: Tree, i: nat)
    requires i < |paths|
    ensures var text := tree(paths[i]);
            && TotalBytes(paths[..i + 1], tree) == TotalBytes(paths[..i], tree) + (if text.Some? then |text.value| else 0)
            && TotalBytes(paths[..i + 1], tree) <= TotalBytes(paths, tree)
            && paths[..|paths|] == paths
  {
    assert paths[..i + 1][..i] == paths[..i];
    TotalIsMore(paths, tree, i + 1);
  }

  lemma {:induction false} TotalIsMore(paths: seq<string>, tree: Tree, n: nat)
    requires n <= |paths|
    ensures TotalBytes(paths[..n], tree) <= TotalBytes(paths, tree)
    decreases |paths|
  {
    if n == |paths| {
      assert paths[..n] == paths;
    } else {
      TotalIsMore(paths[..|paths| - 1], tree, n);
      assert paths[..|paths| - 1][..n] == paths[..n];
    }
  }

  lemma {:induction false} BytesMore(files: seq<Entry>, e: Entry, tree: Tree)
    requires tree(e.path).Some?
    ensures Bytes(files + [e], tree) == Bytes(files, tree) + |tree(e.path).value|
  {
    assert (files + [e])[..|files|] == files;
  }

  lemma {:induction false} CoverMore(files: seq<Entry>, e: Entry)
    ensures (files + [e])[..|files|] == files && (files + [e])[|files|] == e
    ensures Covers(files + [e], e.path)
    ensures forall p :: Covers(files, p) ==> Covers(files + [e], p)
  {
    assert (files + [e])[|files|].path == e.path;
    forall p | Covers(files, p) ensures Covers(files + [e], p) {
      var i :| 0 <= i < |files| && files[i].path == p;
      assert (files + [e])[i].path == p;
    }
  }

  /** One file of the index: read into the snapshot when there is room for it. */
  method ReadHit(h: string, full: bool, tree: Tree, hash: Hash, files: seq<Entry>, corpus: nat)
    returns (read: bool, out: seq<Entry>, corpus': nat)
    requires Current(files, tree, hash) && Bytes(files, tree) <= CORPUS_BYTES && Bytes(files, tree) <= corpus
    ensures read <==> !full && corpus < CORPUS_BYTES && tree(h).Some? && corpus + |tree(h).value| <= CORPUS_BYTES
    ensures Current(out, tree, hash) && Bytes(out, tree) <= CORPUS_BYTES && Bytes(out, tree) <= corpus'
    ensures CoversAll(files, out) && |out| <= |files| + if read then 1 else 0
    ensures if read then Covers(out, h) && corpus' == corpus + |tree(h).value| else out == files && corpus' == corpus
  {
    var text := tree(h);
    out, corpus', read := files, corpus, false;
    if !full && corpus < CORPUS_BYTES && text.Some? && corpus + |text.value| <= CORPUS_BYTES {
      read := true;
      corpus' := corpus + |text.value|;
      out := Inserted(files, h, text.value, tree, hash);
    }
  }

  ghost predicate CoversAll(files: seq<Entry>, out: seq<Entry>) {
    forall p :: Covers(files, p) ==> Covers(out, p)
  }

  lemma {:induction false} CoversOn(a: seq<Entry>, b: seq<Entry>, c: seq<Entry>)
    requires CoversAll(a, b) && CoversAll(b, c)
    ensures CoversAll(a, c)
  {
  }

  /** Each file of the index adds one file at most, and all are within the budget of a delivery. */
  predicate WithinBudget(files: seq<Entry>, looked: nat, corpus: nat, tree: Tree) {
    |files| <= FILES_PER_PART + looked && |files| <= DELIVERED_FILES && Bytes(files, tree) <= CORPUS_BYTES && Bytes(files, tree) <= corpus
  }

  /** Each of these was looked at, or is a claim. */
  ghost predicate Seen(hits: seq<string>, indexed: set<string>, claims: seq<string>) {
    forall h :: h in hits ==> h in indexed || h in claims
  }

  /** Files that the findings index names: leads that must be read in the same tree, or reported. */
  method ReadIndex(claims: seq<string>, hits: seq<string>, tree: Tree, hash: Hash, claimed: seq<Entry>, claimedCorpus: nat)
    returns (files: seq<Entry>, unread: seq<string>)
    requires Current(claimed, tree, hash) && |claimed| <= FILES_PER_PART
    requires Bytes(claimed, tree) <= CORPUS_BYTES && Bytes(claimed, tree) <= claimedCorpus
    ensures Current(files, tree, hash)
    ensures |files| <= DELIVERED_FILES && Bytes(files, tree) <= CORPUS_BYTES
    ensures CoversAll(claimed, files)
    ensures Accounted(hits, files, unread + claims)
    ensures Roomy(hits, tree, claimedCorpus + 1) ==> Unreadable(unread, tree)
    ensures Leads(unread, hits, claims)
  {
    files, unread := claimed, [];
    var indexed: set<string> := {};
    var corpus := claimedCorpus;
    for i := 0 to |hits|
      invariant Current(files, tree, hash) && CoversAll(claimed, files)
      invariant WithinBudget(files, |indexed|, corpus, tree)
      invariant Looked(hits, i, claims, claimedCorpus, tree, indexed, files, unread, corpus)
    {
      if hits[i] !in claims && hits[i] !in indexed {
        indexed, files, unread, corpus := LookAt(hits, i, claims, tree, hash, claimed, claimedCorpus, indexed, files, unread, corpus);
      } else {
        LookedPast(hits, i, claims, claimedCorpus, tree, indexed, files, unread, corpus);
      }
    }
    LookedAll(hits, claims, claimedCorpus, tree, indexed, files, unread, corpus);
  }

  /** The body of the loop: a file that is no claim and was not looked at yet is read, or reported. */
  method LookAt(
      hits: seq<string>, i: nat, claims: seq<string>, tree: Tree, hash: Hash, ghost claimed: seq<Entry>, ghost claimedCorpus: nat,
      indexed: set<string>, files: seq<Entry>, unread: seq<string>, corpus: nat)
    returns (indexed': set<string>, files': seq<Entry>, unread': seq<string>, corpus': nat)
    requires i < |hits| && hits[i] !in claims && hits[i] !in indexed
    requires Current(files, tree, hash) && CoversAll(claimed, files) && WithinBudget(files, |indexed|, corpus, tree)
    requires Looked(hits, i, claims, claimedCorpus, tree, indexed, files, unread, corpus)
    ensures Current(files', tree, hash) && CoversAll(claimed, files') && WithinBudget(files', |indexed'|, corpus', tree)
    ensures Looked(hits, i + 1, claims, claimedCorpus, tree, indexed', files', unread', corpus')
  {
    indexed' := indexed + {hits[i]};
    var read;
    read, files', corpus' := ReadHit(hits[i], |indexed'| > FILES_PER_PART, tree, hash, files, corpus);
    unread' := if read then unread else unread + [hits[i]];
    CoversOn(claimed, files, files');
    LookedAt(hits, i, claims, claimedCorpus, tree, indexed, files, unread, corpus, read, files', corpus');
  }

  /** What holds when the first `i` files of the index were looked at. */
  ghost predicate Looked(
      hits: seq<string>, i: nat, claims: seq<string>, claimedCorpus: nat, tree: Tree,
      indexed: set<string>, files: seq<Entry>, unread: seq<string>, corpus: nat)
    requires i <= |hits|
  {
    && Settled(indexed, files, unread) && Seen(hits[..i], indexed, claims) && Leads(unread, hits, claims)
    && |indexed| <= i && corpus <= claimedCorpus + TotalBytes(hits[..i], tree)
    && (Roomy(hits, tree, claimedCorpus + 1) ==> Unreadable(unread, tree))
  }

  lemma {:induction false} LookedPast(
      hits: seq<string>, i: nat, claims: seq<string>, claimedCorpus: nat, tree: Tree,
      indexed: set<string>, files: seq<Entry>, unread: seq<string>, corpus: nat)
    requires i < |hits| && Looked(hits, i, claims, claimedCorpus, tree, indexed, files, unread, corpus)
    requires hits[i] in claims || hits[i] in indexed
    ensures Looked(hits, i + 1, claims, claimedCorpus, tree, indexed, files, unread, corpus)
  {
    TotalGrows(hits, tree, i);
    SeenMore(hits, i, indexed, claims);
  }

  lemma {:induction false} LookedAt(
      hits: seq<string>, i: nat, claims: seq<string>, claimedCorpus: nat, tree: Tree,
      indexed: set<string>, files: seq<Entry>, unread: seq<string>, corpus: nat, read: bool, files': seq<Entry>, corpus': nat)
    requires i < |hits| && Looked(hits, i, claims, claimedCorpus, tree, indexed, files, unread, corpus)
    requires hits[i] !in claims && hits[i] !in indexed && CoversAll(files, files')
    requires read <==> |indexed| < FILES_PER_PART && corpus < CORPUS_BYTES && tree(hits[i]).Some? && corpus + |tree(hits[i]).value| <= CORPUS_BYTES
    requires if read then Covers(files', hits[i]) && corpus' == corpus + |tree(hits[i]).value| else corpus' == corpus
    ensures Looked(hits, i + 1, claims, claimedCorpus, tree, indexed + {hits[i]}, files', if read then unread else unread + [hits[i]], corpus')
  {
    TotalGrows(hits, tree, i);
    SeenMore(hits, i, indexed, claims);
    ReportMore(unread, hits[i], hits, claims, tree);
    SettledMore(indexed, hits[i], files, unread, files', if read then unread else unread + [hits[i]]);
  }

  lemma {:induction false} LookedAll(
      hits: seq<string>, claims: seq<string>, claimedCorpus: nat, tree: Tree,
      indexed: set<string>, files: seq<Entry>, unread: seq<string>, corpus: nat)
    requires Looked(hits, |hits|, claims, claimedCorpus, tree, indexed, files, unread, corpus)
    ensures Accounted(hits, files, unread + claims) && Leads(unread, hits, claims)
    ensures Roomy(hits, tree, claimedCorpus + 1) ==> Unreadable(unread, tree)
  {
    assert hits[..|hits|] == hits;
  }

  /** Each of these is covered or reported. */
  ghost predicate Settled(indexed: set<string>, files: seq<Entry>, unread: seq<string>) {
    forall h :: h in indexed ==> Covers(files, h) || h in unread
  }

  /** Only files that the index names and that are no claims are reported. */
  ghost predicate Leads(unread: seq<string>, hits: seq<string>, claims: seq<string>) {
    forall h :: h in unread ==> h in hits && h !in claims
  }

  lemma {:induction false} ReportMore(unread: seq<string>, h: string, hits: seq<string>, claims: seq<string>, tree: Tree)
    requires Leads(unread, hits, claims) && h in hits && h !in claims
    ensures Leads(unread + [h], hits, claims)
    ensures Unreadable(unread, tree) && tree(h).None? ==> Unreadable(unread + [h], tree)
  {
  }

  lemma {:induction false} SettledMore(indexed: set<string>, h: string, files: seq<Entry>, unread: seq<string>, files': seq<Entry>, unread': seq<string>)
    requires Settled(indexed, files, unread) && CoversAll(files, files') && unread <= unread' && (Covers(files', h) || h in unread')
    ensures Settled(indexed + {h}, files', unread')
  {
  }

  lemma {:induction false} SeenMore(hits: seq<string>, i: nat, indexed: set<string>, claims: seq<string>)
    requires i < |hits| && Seen(hits[..i], indexed, claims)
    ensures Seen(hits[..i + 1], indexed + {hits[i]}, claims)
    ensures hits[i] in indexed || hits[i] in claims ==> Seen(hits[..i + 1], indexed, claims)
  {
    assert forall h :: h in hits[..i + 1] ==> h in hits[..i] || h == hits[i];
  }

  /** The paths whose content differs from what the previous manifest recorded. */
  function Changed(prior: Manifest, files: seq<Entry>): set<string> {
    set i | 0 <= i < |files| && DigestOf(prior.files, files[i].path).Some?
            && DigestOf(prior.files, files[i].path).value != files[i].digest :: files[i].path
  }

  /** One contract check of a scope: what it read, the digest of findings and contracts, whether the manifest was stored. */
  datatype Check = Check(files: seq<Entry>, unreadClaims: seq<string>, unreadIndex: seq<string>, orientation: string, stored: bool)

  /** A change stays recorded until findings or contracts change. */
  function Recorded(prior: Option<Manifest>, c: Check): Option<Manifest> {
    if !c.stored then prior
    else
      var changed := if prior.None? then {} else
        Changed(prior.value, c.files) + (if prior.value.orientation == c.orientation then prior.value.changed else {});
      Some(Manifest(c.files, c.unreadClaims, c.unreadIndex, changed, c.orientation))
  }

  function RecordedAll(prior: Option<Manifest>, cs: seq<Check>): Option<Manifest>
    decreases |cs|
  {
    if cs == [] then prior else RecordedAll(Recorded(prior, cs[0]), cs[1..])
  }

  class ContextStore {
    /** The manifest of the scope, if a check has stored one. */
    var manifest: Option<Manifest>

    constructor ()
      ensures manifest == None
    {
      manifest := None;
    }

    /** The snapshot part of a contract check. */
    method ContractCheck(claims: seq<string>, hits: seq<string>, tree: Tree, hash: Hash, orientation: string, stored: bool)
      returns (files: seq<Entry>, unreadClaims: seq<string>, unreadIndex: seq<string>)
      modifies this
      ensures manifest == Recorded(old(manifest), Check(files, unreadClaims, unreadIndex, orientation, stored))
      ensures Current(files, tree, hash) && |files| <= DELIVERED_FILES && Bytes(files, tree) <= CORPUS_BYTES
      ensures Accounted(claims, files, unreadClaims)
      ensures Accounted(hits, files, unreadIndex + claims)
      ensures Roomy(claims, tree, 0) ==> Unreadable(unreadClaims, tree)
      ensures Roomy(hits, tree, TotalBytes(claims, tree) + |claims| + 1) ==> Unreadable(unreadIndex, tree)
    {
      var claimed, corpus;
      claimed, unreadClaims, corpus := ReadClaims(claims, tree, hash);
      files, unreadIndex := ReadIndex(claims, hits, tree, hash, claimed, corpus);
      if stored {
        var changed: set<string> := {};
        if manifest.Some? {
          changed := Changed(manifest.value, files);
          var carried := if manifest.value.orientation == orientation then manifest.value.changed else {};
          changed := changed + carried;
        }
        manifest := Some(Manifest(files, unreadClaims, unreadIndex, changed, orientation));
      }
    }

    /** Why the stored coverage may not be delivered now; nothing when it may, or when there is none. */
    method DeliveryStaleness(tree: Tree, hash: Hash, relative: string -> bool, readable: bool) returns (reason: Option<string>)
      ensures reason.None? <==> manifest.None? || Deliverable(manifest.value, tree, hash, relative, readable)
    {
      if manifest.None? {
        return None;
      }
      var m := manifest.value;
      if !readable {
        return Some("coverage manifest or delivery root is unreadable");
      }
      if m.files == [] || |m.files| > DELIVERED_FILES {
        return Some("coverage snapshot is empty or over budget");
      }
      reason := FirstStale(m.files, tree, hash, relative);
      if reason.Some? {
        return;
      }
      if m.unreadClaims != [] || m.unreadIndex != [] || m.changed != {} {
        return Some("coverage manifest has missing or unresolved entries");
      }
      return None;
    }
  }

  /** The loop over the covered files, with its running total. */
  method FirstStale(files: seq<Entry>, tree: Tree, hash: Hash, relative: string -> bool) returns (reason: Option<string>)
    ensures reason.None? <==> AllFresh(files, tree, hash, relative)
  {
    var total := 0;
    for i := 0 to |files|
      invariant total == Bytes(files[..i], tree) <= CORPUS_BYTES
      invariant forall j :: 0 <= j < i ==> Fresh(files[j], tree, hash, relative)
    {
      var e := files[i];
      assert files[..i + 1][..i] == files[..i];
      BytesGrow(files, tree, i + 1);
      if !relative(e.path) {
        return Some("invalid covered path: " + e.path);
      }
      var text := tree(e.path);
      if text.None? {
        return Some("covered file is no longer safely readable: " + e.path);
      }
      total := total + |text.value|;
      if total > CORPUS_BYTES {
        return Some("delivery snapshot exceeds 4MB budget");
      }
      if e.digest != hash(text.value) {
        return Some("covered file changed after orientation snapshot: " + e.path);
      }
    }
    assert files[..|files|] == files;
    return None;
  }

  /** Every covered file reads as recorded, within the delivery's budget. */
  ghost predicate AllFresh(files: seq<Entry>, tree: Tree, hash: Hash, relative: string -> bool) {
    (forall i :: 0 <= i < |files| ==> Fresh(files[i], tree, hash, relative)) && Bytes(files, tree) <= CORPUS_BYTES
  }

  predicate Fresh(e: Entry, tree: Tree, hash: Hash, relative: string -> bool) {
    relative(e.path) && tree(e.path).Some? && e.digest == hash(tree(e.path).value)
  }

  /** What delivery asks of a manifest and of the tree as it is now. */
  ghost predicate Deliverable(m: Manifest, tree: Tree, hash: Hash, relative: string -> bool, readable: bool) {
    && readable
    && 0 < |m.files| <= DELIVERED_FILES
    && AllFresh(m.files, tree, hash, relative)
    && m.unreadClaims == [] && m.unreadIndex == [] && m.changed == {}
  }

  lemma {:induction false} BytesGrow(files: seq<Entry>, tree: Tree, n: nat)
    requires n <= |files|
    ensures Bytes(files[..n], tree) <= Bytes(files, tree)
    decreases |files|
  {
    if n == |files| {
      assert files[..n] == files;
    } else {
      var front := files[..|files| - 1];
      BytesGrow(front, tree, n);
      assert front[..n] == files[..n];
    }
  }

  // ---- what the protocol guarantees ------------------------------------------------

  /** While findings and contracts stay the same, the recorded changes never shrink and delivery stays refused. */
  lemma {:induction false} StalenessIsSticky(prior: Manifest, cs: seq<Check>, tree: Tree, hash: Hash, relative: string -> bool, readable: bool)
    requires forall c :: c in cs ==> c.orientation == prior.orientation
    ensures var m := RecordedAll(Some(prior), cs);
            && m.Some? && m.value.orientation == prior.orientation && prior.changed <= m.value.changed
            && (prior.changed != {} ==> !Deliverable(m.value, tree, hash, relative, readable))
    decreases |cs|
  {
    if cs != [] {
      assert cs[0] in cs;
      var next := Recorded(Some(prior), cs[0]).value;
      StalenessIsSticky(next, cs[1..], tree, hash, relative, readable);
    }
  }

  /**
    Once findings or contracts were refreshed, a check that could read everything and finds no file other than
    the last one recorded it makes the coverage deliverable again, whatever had changed before.
   */
  lemma {:induction false} RefreshRestores(prior: Manifest, c: Check, tree: Tree, hash: Hash, relative: string -> bool)
    requires c.stored && c.orientation != prior.orientation && c.unreadClaims == [] && c.unreadIndex == []
    requires 0 < |c.files| <= DELIVERED_FILES && Bytes(c.files, tree) <= CORPUS_BYTES && Current(c.files, tree, hash)
    requires forall i :: 0 <= i < |c.files| ==> relative(c.files[i].path)
    requires forall i :: 0 <= i < |c.files| ==> DigestOf(prior.files, c.files[i].path) in {None, Some(c.files[i].digest)}
    ensures Recorded(Some(prior), c).Some? && Deliverable(Recorded(Some(prior), c).value, tree, hash, relative, true)
  {
    assert Changed(prior, c.files) == {};
  }

  /** Digests tell contents apart. */
  ghost predicate Distinguishes(hash: Hash) {
    forall a, b :: hash(a) == hash(b) ==> a == b
  }

  /**
    What a check stored may be delivered, now or later, exactly when it covered something, left nothing
    unread, found nothing changed, and every covered file still reads as it did: the budgets of a check
    keep it within those of a delivery.
   */
  lemma {:induction false} DeliveredIffUnchanged(prior: Option<Manifest>, c: Check, before: Tree, now: Tree, hash: Hash, relative: string -> bool)
    requires Distinguishes(hash) && c.stored
    requires Current(c.files, before, hash) && |c.files| <= DELIVERED_FILES && Bytes(c.files, before) <= CORPUS_BYTES
    ensures var m := Recorded(prior, c).value;
            Deliverable(m, now, hash, relative, true) <==>
              && c.files != [] && c.unreadClaims == [] && c.unreadIndex == [] && m.changed == {}
              && forall i :: 0 <= i < |c.files| ==> relative(c.files[i].path) && now(c.files[i].path) == before(c.files[i].path)
  {
    forall i | 0 <= i < |c.files|
      ensures Fresh(c.files[i], now, hash, relative) <==>
                relative(c.files[i].path) && now(c.files[i].path) == before(c.files[i].path)
    {
      var read, again := before(c.files[i].path), now(c.files[i].path);
      assert read.Some? && c.files[i].digest == hash(read.value);
      assert again.Some? && hash(again.value) == hash(read.value) ==> again.value == read.value;
    }
    if forall i :: 0 <= i < |c.files| ==> now(c.files[i].path) == before(c.files[i].path) {
      SameBytes(c.files, before, now);
    }
  }

  lemma {:induction false} SameBytes(files: seq<Entry>, a: Tree, b: Tree)
    requires forall i :: 0 <= i < |files| ==> b(files[i].path) == a(files[i].path)
    ensures Bytes(files, a) == Bytes(files, b)
  {
    if files != [] {
      var front := files[..|files| - 1];
      assert forall i :: 0 <= i < |front| ==> front[i] == files[i];
      SameBytes(front, a, b);
    }
  }

  /** The paths that differ between two checks in a row that both read them. */
  function Jumps(cs: seq<Check>): set<string> {
    if |cs| < 2 then {}
    else
      var n := |cs| - 1;
      Jumps(cs[..n]) + Changed(Manifest(cs[n - 1].files, [], [], {}, ""), cs[n].files)
  }

  lemma {:induction false} RecordedLast(prior: Option<Manifest>, cs: seq<Check>, c: Check)
    ensures RecordedAll(prior, cs + [c]) == Recorded(RecordedAll(prior, cs), c)
    decreases |cs|
  {
    if cs == [] {
      assert cs + [c] == [c] && [c][1..] == [];
    } else {
      assert (cs + [c])[1..] == cs[1..] + [c];
      RecordedLast(Recorded(prior, cs[0]), cs[1..], c);
    }
  }

  /** Over stored checks with the same findings, the recorded changes are exactly the jumps from one check to the next. */
  lemma {:induction false} ChangesAreJumps(cs: seq<Check>, o: string)
    requires cs != [] && forall i :: 0 <= i < |cs| ==> cs[i].stored && cs[i].orientation == o
    ensures var m := RecordedAll(None, cs);
            && m.Some? && m.value.changed == Jumps(cs)
            && m.value.orientation == o && m.value.files == cs[|cs| - 1].files
    decreases |cs|
  {
    var n := |cs| - 1;
    assert cs == cs[..n] + [cs[n]];
    RecordedLast(None, cs[..n], cs[n]);
    if n > 0 {
      ChangesAreJumps(cs[..n], o);
      var m := RecordedAll(None, cs[..n]).value;
      assert Changed(m, cs[n].files) == Changed(Manifest(cs[n - 1].files, [], [], {}, ""), cs[n].files);
    }
  }

  /** So a file that one check leaves out is new to the next, and what changed meanwhile goes unseen. */
  lemma {:induction false} SkippedFileChangesUnseen(other: Entry, path: string, was: string, isNow: string, o: string)
    requires other.path != path && was != isNow
    ensures var first := Check([Entry(path, was)], [], [], o, true);
            var second := Check([other], [], [], o, true);
            var third := Check([Entry(path, isNow)], [], [], o, true);
            && RecordedAll(None, [first, second, third]).Some?
            && RecordedAll(None, [first, second, third]).value.changed == {}
            && RecordedAll(None, [first, third]).Some?
            && RecordedAll(None, [first, third]).value.changed == {path}
  {
    var first := Check([Entry(path, was)], [], [], o, true);
    var second := Check([other], [], [], o, true);
    var third := Check([Entry(path, isNow)], [], [], o, true);
    assert [first, second, third][1..] == [second, third] && [second, third][1..] == [third] && [third][1..] == [];
    assert [first, third][1..] == [third];
    var m1 := Recorded(None, first).value;
    assert DigestOf(m1.files, path) == Some(was);
    assert DigestOf([other], path) == None by { assert DigestOf([other][..0], path) == None; }
    assert DigestOf(m1.files, other.path) == None by { assert DigestOf(m1.files[..0], other.path) == None; }
    var m2 := Recorded(Some(m1), second).value;
    assert m2.changed == {};
    assert Changed(m2, third.files) == {};
    assert Changed(m1, third.files) == {path} by {
      assert third.files[0].path in Changed(m1, third.files);
    }
    var m3 := Recorded(Some(m2), third).value;
    assert RecordedAll(None, [first, second, third]) == RecordedAll(Some(m1), [second, third]) == RecordedAll(Some(m2), [third]);
    assert RecordedAll(Some(m2), [third]) == RecordedAll(Some(m3), []) == Some(m3);
    var m13 := Recorded(Some(m1), third).value;
    assert RecordedAll(None, [first, third]) == RecordedAll(Some(m1), [third]) == RecordedAll(Some(m13), []) == Some(m13);
  }
}
