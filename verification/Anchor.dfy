/** The external anchor of the hash chain (go/rz/anchor.go). */
module Anchor {
  import opened Types
  import opened Chain

  datatype PublishedAnchor = PublishedAnchor(createdAtMs: int, chainTailHash: string, root: string)

  /** The append-only sink. */
  class AnchorSink {
    var store: seq<PublishedAnchor>

    constructor ()
      ensures store == []
    {
      store := [];
    }

    method Append(a: PublishedAnchor)
      modifies this
      ensures store == old(store) + [a]
    {
      store := store + [a];
    }

    method Latest() returns (latest: Option<PublishedAnchor>)
      ensures latest == LatestOf(store)
    {
      latest := if |store| == 0 then None else Some(store[|store| - 1]);
    }
  }

  function LatestOf(store: seq<PublishedAnchor>): Option<PublishedAnchor> {
    if store == [] then None else Some(store[|store| - 1])
  }

  function LatestRoot(store: seq<PublishedAnchor>): string {
    if store == [] then GENESIS else store[|store| - 1].root
  }

  function Tails(store: seq<PublishedAnchor>): (tails: seq<string>)
    ensures |tails| == |store|
    ensures forall i :: 0 <= i < |store| ==> tails[i] == store[i].chainTailHash
  {
    seq(|store|, i requires 0 <= i < |store| => store[i].chainTailHash)
  }

  /** The root of a history of chain tails. */
  function RootOf(c: Crypto, tails: seq<string>): string
    decreases |tails|, 1
  {
    if tails == [] then GENESIS else c.sha(RootPreimage(c, tails))
  }

  function RootPreimage(c: Crypto, tails: seq<string>): string
    requires tails != []
    decreases |tails|, 0
  {
    RootOf(c, tails[..|tails| - 1]) + tails[|tails| - 1]
  }

  /** Every root in the sink is the root of the history up to it. */
  predicate WellRooted(c: Crypto, store: seq<PublishedAnchor>) {
    forall i :: 0 <= i < |store| ==> store[i].root == RootOf(c, Tails(store[..i + 1]))
  }

  /** Publishing keeps the sink well rooted and records the log's tail. */
  method PublishAnchor(c: Crypto, log: seq<Entry>, sink: AnchorSink, createdAtMs: int) returns (a: PublishedAnchor)
    requires WellRooted(c, sink.store)
    modifies sink
    ensures a.chainTailHash == Tail(log) && a.createdAtMs == createdAtMs
    ensures sink.store == old(sink.store) + [a]
    ensures WellRooted(c, sink.store)
    ensures a.root == RootOf(c, Tails(sink.store))
  {
    var chainTailHash := GENESIS;
    if |log| > 0 {
      chainTailHash := log[|log| - 1].hash;
    }
    var latest := sink.Latest();
    var prevRoot := GENESIS;
    if latest.Some? {
      prevRoot := latest.value.root;
    }
    a := PublishedAnchor(createdAtMs, chainTailHash, c.sha(prevRoot + chainTailHash));
    sink.Append(a);
    PublishedRoot(c, old(sink.store), a);
  }

  lemma LatestIsRoot(c: Crypto, store: seq<PublishedAnchor>)
    requires WellRooted(c, store)
    ensures LatestRoot(store) == RootOf(c, Tails(store))
  {
    if store != [] {
      var i := |store| - 1;
      assert store[i].root == RootOf(c, Tails(store[..i + 1])) && store[..i + 1] == store;
    }
  }

  lemma RootOfMore(c: Crypto, store: seq<PublishedAnchor>, a: PublishedAnchor)
    ensures RootOf(c, Tails(store + [a])) == c.sha(RootOf(c, Tails(store)) + a.chainTailHash)
  {
    var tails := Tails(store + [a]);
    assert tails[..|tails| - 1] == Tails(store) && tails[|tails| - 1] == a.chainTailHash;
  }

  lemma PublishedRoot(c: Crypto, store: seq<PublishedAnchor>, a: PublishedAnchor)
    requires WellRooted(c, store)
    requires a.root == c.sha(LatestRoot(store) + a.chainTailHash)
    ensures WellRooted(c, store + [a])
    ensures a.root == RootOf(c, Tails(store + [a]))
  {
    hide RootOf, Tails, LatestRoot;
    LatestIsRoot(c, store);
    RootOfMore(c, store, a);
    var next := store + [a];
    forall i | 0 <= i < |next| ensures next[i].root == RootOf(c, Tails(next[..i + 1])) {
      if i < |store| {
        assert next[..i + 1] == store[..i + 1] && next[i] == store[i];
        assert store[i].root == RootOf(c, Tails(store[..i + 1]));
      } else {
        assert next[..i + 1] == next && next[i] == a;
      }
    }
  }

  datatype Reason = Fine | NoAnchorPublished | TailHashMismatch | RootChainMismatch

  datatype Check = Check(consistent: bool, latestRoot: Option<string>, computedRoot: Option<string>, reason: Reason)

  /** Accepts exactly the logs whose tail is the last anchored one, under a root
      that the whole anchor history recomputes to. */
  method VerifyAnchor(c: Crypto, log: seq<Entry>, sink: AnchorSink) returns (check: Check)
    ensures check.consistent <==> Accepts(c, log, sink.store)
    ensures check.reason.NoAnchorPublished? <==> sink.store == []
    ensures check.reason.TailHashMismatch?
            <==> sink.store != [] && Tail(log) != sink.store[|sink.store| - 1].chainTailHash
    ensures check.reason.Fine? <==> check.consistent
    ensures check.consistent ==> check.latestRoot == check.computedRoot == Some(LatestRoot(sink.store))
  {
    var latest := sink.Latest();
    if latest.None? {
      return Check(false, None, None, NoAnchorPublished);
    }
    var computedTail := GENESIS;
    if |log| > 0 {
      computedTail := log[|log| - 1].hash;
    }
    if computedTail != latest.value.chainTailHash {
      return Check(false, Some(latest.value.root), None, TailHashMismatch);
    }
    var all := sink.store;
    var recomputed := GENESIS;
    for i := 0 to |all|
      invariant recomputed == RootOf(c, Tails(all)[..i])
    {
      assert Tails(all)[..i + 1][..i] == Tails(all)[..i];
      recomputed := c.sha(recomputed + all[i].chainTailHash);
    }
    assert Tails(all)[..|all|] == Tails(all);
    if recomputed != latest.value.root {
      return Check(false, Some(latest.value.root), Some(recomputed), RootChainMismatch);
    }
    return Check(true, Some(latest.value.root), Some(recomputed), Fine);
  }

  predicate Accepts(c: Crypto, log: seq<Entry>, store: seq<PublishedAnchor>) {
    && store != []
    && Tail(log) == store[|store| - 1].chainTailHash
    && store[|store| - 1].root == RootOf(c, Tails(store))
  }

  /** Two different strings hashed in one of the two logs share a digest, or one
      of those strings has the all-zero digest. */
  predicate HashBroken(c: Crypto, a: seq<Entry>, b: seq<Entry>) {
    Collision(c, a, b) || GenesisPreimage(c, a) || GenesisPreimage(c, b)
  }

  /** Once `log` is anchored, the only log that passes both the chain and the
      anchor verification is `log` itself. */
  lemma OnlyTheAnchoredLogPasses(c: Crypto, log: seq<Entry>, other: seq<Entry>, store: seq<PublishedAnchor>)
    requires Sound(c) && ValidChain(c, log) && Accepts(c, log, store)
    ensures (ValidChain(c, other) && Accepts(c, other, store) <==> other == log)
         || (ValidChain(c, other) && HashBroken(c, log, other))
  {
    if ValidChain(c, other) && Accepts(c, other, store) {
      TailCommits(c, log, other);
    }
  }

  /** The chain alone accepts every truncation; the anchor rejects them all. */
  lemma OnlyTheAnchorSeesTruncation(c: Crypto, log: seq<Entry>, store: seq<PublishedAnchor>, n: nat)
    requires Sound(c) && ValidChain(c, log) && Accepts(c, log, store) && n < |log|
    ensures ValidChain(c, log[..n])
    ensures !Accepts(c, log[..n], store) || HashBroken(c, log, log[..n])
  {
    TruncationVerifies(c, log, n);
    OnlyTheAnchoredLogPasses(c, log, log[..n], store);
  }

  // ---------- what a root commits to ----------

  /** Two non-empty prefixes of the histories whose root preimages differ but
      share a digest. */
  predicate RootCollision(c: Crypto, s: seq<string>, t: seq<string>) {
    exists i, j :: 0 < i <= |s| && 0 < j <= |t| && RootsCollideAt(c, s[..i], t[..j])
  }

  predicate RootsCollideAt(c: Crypto, s: seq<string>, t: seq<string>)
    requires s != [] && t != []
  {
    RootPreimage(c, s) != RootPreimage(c, t) && RootOf(c, s) == RootOf(c, t)
  }

  predicate GenesisRoot(c: Crypto, s: seq<string>) {
    exists i :: 0 < i <= |s| && RootOf(c, s[..i]) == GENESIS
  }

  /** Equal latest roots force equal histories of anchored tails. */
  lemma {:induction false} RootsCommit(c: Crypto, s: seq<string>, t: seq<string>)
    requires Sound(c) && RootOf(c, s) == RootOf(c, t)
    ensures s == t || RootCollision(c, s, t) || GenesisRoot(c, s) || GenesisRoot(c, t)
    decreases |s|
  {
    assert s[..|s|] == s && t[..|t|] == t;
    if s != [] && t != [] {
      var s', t' := s[..|s| - 1], t[..|t| - 1];
      if RootPreimage(c, s) == RootPreimage(c, t) {
        assert |RootOf(c, s')| == 64 && |RootOf(c, t')| == 64;
        assert RootPreimage(c, s)[..64] == RootOf(c, s') && RootPreimage(c, t)[..64] == RootOf(c, t');
        assert RootPreimage(c, s)[64..] == s[|s| - 1] && RootPreimage(c, t)[64..] == t[|t| - 1];
        RootsCommit(c, s', t');
        assert s == s' + [s[|s| - 1]] && t == t' + [t[|t| - 1]];
        assert forall i :: 0 < i <= |s'| ==> s'[..i] == s[..i];
        assert forall j :: 0 < j <= |t'| ==> t'[..j] == t[..j];
        if RootCollision(c, s', t') {
          var i, j :| 0 < i <= |s'| && 0 < j <= |t'| && RootsCollideAt(c, s'[..i], t'[..j]);
          assert RootsCollideAt(c, s[..i], t[..j]);
        } else if GenesisRoot(c, s') {
          var i :| 0 < i <= |s'| && RootOf(c, s'[..i]) == GENESIS;
          assert RootOf(c, s[..i]) == GENESIS;
        } else if GenesisRoot(c, t') {
          var j :| 0 < j <= |t'| && RootOf(c, t'[..j]) == GENESIS;
          assert RootOf(c, t[..j]) == GENESIS;
        }
      } else {
        assert RootsCollideAt(c, s[..|s|], t[..|t|]);
      }
    } else {
      assert s != [] ==> RootOf(c, s[..|s|]) == GENESIS;
      assert t != [] ==> RootOf(c, t[..|t|]) == GENESIS;
    }
  }

  /** Two well-rooted sinks that show the same latest root hold the same tails. */
  lemma LatestRootFixesTheHistory(c: Crypto, a: seq<PublishedAnchor>, b: seq<PublishedAnchor>)
    requires Sound(c) && WellRooted(c, a) && WellRooted(c, b) && LatestRoot(a) == LatestRoot(b)
    ensures Tails(a) == Tails(b) || RootCollision(c, Tails(a), Tails(b))
         || GenesisRoot(c, Tails(a)) || GenesisRoot(c, Tails(b))
  {
    assert a[..|a|] == a && b[..|b|] == b;
    if a != [] {
      assert a[|a| - 1].root == RootOf(c, Tails(a[..|a|]));
    }
    if b != [] {
      assert b[|b| - 1].root == RootOf(c, Tails(b[..|b|]));
    }
    RootsCommit(c, Tails(a), Tails(b));
  }
}
