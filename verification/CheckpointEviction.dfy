/**
 The accounting of one eviction of the warm checkpoint store: which files go,
 in which order, and what the running total is (src/sandbox/checkpoints.ts).
 The answers of `leased` and `locked` are parameters; Checkpoints.dfy has the
 handshake behind them.
 */
module CheckpointEviction {
  import opened Sorting

  type Key = nat

  function SizeOf(bytes: map<Key, nat>, key: Key): nat {
    if key in bytes then bytes[key] else 0
  }

  /** The bytes of the first `n` keys. */
  function Sum(keys: seq<Key>, bytes: map<Key, nat>, n: nat): nat
    requires n <= |keys|
  {
    if n == 0 then 0 else Sum(keys, bytes, n - 1) + SizeOf(bytes, keys[n - 1])
  }

  /** Of the first `n` candidates, those that are neither in use nor leased while they are being removed. */
  function Free(keys: seq<Key>, busy: set<Key>, n: nat): seq<Key>
    requires n <= |keys|
  {
    if n == 0 then [] else Free(keys, busy, n - 1) + if keys[n - 1] in busy then [] else [keys[n - 1]]
  }

  function LastUsed(usedAt: map<Key, nat>, key: Key): nat {
    if key in usedAt then usedAt[key] else 0
  }

  function ByUse(usedAt: map<Key, nat>): Order<Key> {
    (a: Key, b: Key) => LastUsed(usedAt, a) <= LastUsed(usedAt, b)
  }

  /** The free keys, least recently used first. */
  function LruFree(listing: seq<Key>, usedAt: map<Key, nat>, busy: set<Key>): seq<Key> {
    var order := Sort(listing, ByUse(usedAt));
    Free(order, busy, |order|)
  }

  /** `k` is the least number of leading keys whose removal brings the store within its bound, or all of them. */
  ghost predicate Shortest(keys: seq<Key>, bytes: map<Key, nat>, total: nat, maxBytes: nat, k: nat) {
    && k <= |keys|
    && (total - Sum(keys, bytes, k) <= maxBytes || k == |keys|)
    && forall j :: 0 <= j < k ==> total - Sum(keys, bytes, j) > maxBytes
  }

  lemma {:induction false} SumGrows(keys: seq<Key>, bytes: map<Key, nat>, m: nat, n: nat)
    requires m <= n <= |keys|
    ensures Sum(keys, bytes, m) <= Sum(keys, bytes, n)
  {
    if m < n { SumGrows(keys, bytes, m, n - 1); }
  }

  lemma {:induction false} SumOfPrefix(keys: seq<Key>, more: seq<Key>, bytes: map<Key, nat>, n: nat)
    requires n <= |keys| && keys <= more
    ensures Sum(more, bytes, n) == Sum(keys, bytes, n)
  {
    if n > 0 { SumOfPrefix(keys, more, bytes, n - 1); }
  }

  lemma {:induction false} FreeGrows(keys: seq<Key>, busy: set<Key>, m: nat, n: nat)
    requires m <= n <= |keys|
    ensures Free(keys, busy, m) <= Free(keys, busy, n)
  {
    if m < n { FreeGrows(keys, busy, m, n - 1); }
  }

  lemma {:induction false} FreeHas(keys: seq<Key>, busy: set<Key>, n: nat, x: Key)
    requires n <= |keys|
    ensures x in Free(keys, busy, n) <==> x !in busy && exists i :: 0 <= i < n && keys[i] == x
  {
    if n > 0 { FreeHas(keys, busy, n - 1, x); }
  }

  lemma {:induction false} FreeKeepsOrder(keys: seq<Key>, busy: set<Key>, le: Order<Key>, n: nat)
    requires Sorted(keys, le) && n <= |keys|
    ensures Sorted(Free(keys, busy, n), le)
  {
    if n > 0 {
      FreeKeepsOrder(keys, busy, le, n - 1);
      var earlier := Free(keys, busy, n - 1);
      forall i | 0 <= i < |earlier| ensures le(earlier[i], keys[n - 1]) {
        assert earlier[i] in earlier;
        FreeHas(keys, busy, n - 1, earlier[i]);
      }
    }
  }

  /** What is evicted was used no later than any free checkpoint that stays. */
  lemma EvictsOldestFirst(listing: seq<Key>, usedAt: map<Key, nat>, busy: set<Key>, k: nat, gone: Key, kept: Key)
    requires k <= |LruFree(listing, usedAt, busy)|
    requires gone in LruFree(listing, usedAt, busy)[..k] && kept in LruFree(listing, usedAt, busy)[k..]
    ensures LastUsed(usedAt, gone) <= LastUsed(usedAt, kept)
    ensures gone !in busy && gone in listing
  {
    var order := Sort(listing, ByUse(usedAt));
    SortSorted(listing, ByUse(usedAt));
    FreeKeepsOrder(order, busy, ByUse(usedAt), |order|);
    FreeHas(order, busy, |order|, gone);
    SameElements(order, listing);
  }

  class WarmCheckpointStore {
    const maxBytes: nat
    var files: map<Key, nat>     // size of each `<key>.qcow2`
    var usedAt: map<Key, nat>    // modification time of each `<key>.json`

    constructor (maxBytes: nat)
      ensures this.maxBytes == maxBytes && files == map[] && usedAt == map[]
    {
      this.maxBytes := maxBytes;
      files, usedAt := map[], map[];
    }

    /**
     `busy` are the keys whose lock or lease is found on the first look, `late`
     those found leased once their sidecar is gone: they keep their file.
     */
    method Evict(listing: seq<Key>, busy: set<Key>, late: set<Key>)
        returns (evicted: nat, evictedBytes: nat)
      requires (forall k :: k in listing <==> k in files) && (forall i, j :: 0 <= i < j < |listing| ==> listing[i] != listing[j])
      modifies this
      ensures var order := LruFree(listing, old(usedAt), busy + late);
              && Shortest(order, old(files), Sum(listing, old(files), |listing|), maxBytes, evicted)
              && evictedBytes == Sum(order, old(files), evicted)
              && Removed(order[..evicted], old(files), files, old(usedAt), usedAt, late - busy)
    {
      var total := TotalBytes(listing);
      var candidates := Sort(listing, ByUse(usedAt));
      SameElements(listing, candidates);
      evicted, evictedBytes := EvictInOrder(candidates, total, busy, late);
    }

    /** The removal loop over the sorted candidates, starting from the store's total size. */
    method EvictInOrder(candidates: seq<Key>, before: nat, busy: set<Key>, late: set<Key>)
        returns (evicted: nat, evictedBytes: nat)
      requires forall k | k in candidates :: k in files
      modifies this
      ensures var order := Free(candidates, busy + late, |candidates|);
              && Shortest(order, old(files), before, maxBytes, evicted)
              && evictedBytes == Sum(order, old(files), evicted)
              && Removed(order[..evicted], old(files), files, old(usedAt), usedAt, late - busy)
    {
      var bytes := files;   // each candidate keeps the size it was listed with
      ghost var away := busy + late;
      var i, total: int := 0, before;
      evicted, evictedBytes := 0, 0;
      ghost var gone := [];
      while i < |candidates| && total > maxBytes
        invariant i <= |candidates| && gone == Free(candidates, away, i)
        invariant Evicted(gone, bytes, before, maxBytes, evicted, evictedBytes, total)
        invariant Removed(gone, bytes, files, old(usedAt), usedAt, late - busy)
      {
        var key := candidates[i];
        i := i + 1;
        if key !in busy {
          RemoveStep(gone, bytes, files, old(usedAt), usedAt, late - busy, key);
          var stays := Remove(key, late);
          if !stays {
            EvictOne(gone, bytes, before, maxBytes, evicted, evictedBytes, total, key);
            total, evicted, evictedBytes, gone := total - bytes[key], evicted + 1, evictedBytes + bytes[key], gone + [key];
          }
        }
      }
      FreeGrows(candidates, away, i, |candidates|);
      FirstToFit(Free(candidates, away, |candidates|), gone, bytes, before, maxBytes, evicted, evictedBytes, total);
    }

    /** Drops the sidecar, looks at the leases again, and drops the file only if none appeared. */
    method Remove(key: Key, late: set<Key>) returns (stays: bool)
      modifies this
      ensures stays == (key in late)
      ensures usedAt == old(usedAt) - {key}
      ensures files == if stays then old(files) else old(files) - {key}
    {
      usedAt := usedAt - {key};
      stays := key in late;
      if !stays { files := files - {key}; }
    }

    method TotalBytes(listing: seq<Key>) returns (total: int)
      requires forall k :: k in listing ==> k in files
      ensures total == Sum(listing, files, |listing|)
    {
      total := 0;
      for i := 0 to |listing|
        invariant total == Sum(listing, files, i)
      {
        total := total + files[listing[i]];
      }
    }
  }

  lemma RemoveStep(gone: seq<Key>, files: map<Key, nat>, filesNow: map<Key, nat>,
                   usedAt: map<Key, nat>, usedNow: map<Key, nat>, late: set<Key>, key: Key)
    requires Removed(gone, files, filesNow, usedAt, usedNow, late)
    ensures key in late ==> Removed(gone, files, filesNow, usedAt, usedNow - {key}, late)
    ensures Removed(gone + [key], files, filesNow - {key}, usedAt, usedNow - {key}, late)
  {}

  /** Exactly the checkpoints of `gone` lost their file; a late lease loses only its sidecar. */
  ghost predicate Removed(gone: seq<Key>, files: map<Key, nat>, filesNow: map<Key, nat>,
                          usedAt: map<Key, nat>, usedNow: map<Key, nat>, late: set<Key>)
  {
    && (forall k :: k in filesNow <==> k in files && k !in gone)
    && (forall k :: k in filesNow ==> filesNow[k] == files[k])
    && (forall k :: k in usedNow ==> k in usedAt && usedNow[k] == usedAt[k] && k !in gone)
    && (forall k :: k in usedAt && k !in usedNow ==> k in gone || k in late)
  }

  /** The running totals after `gone` were evicted, the last while the store was over its bound. */
  ghost predicate Evicted(gone: seq<Key>, bytes: map<Key, nat>, before: nat, maxBytes: nat,
                          evicted: nat, evictedBytes: nat, total: int)
  {
    && |gone| == evicted && evictedBytes == Sum(gone, bytes, evicted) && total == before - evictedBytes
    && (evicted > 0 ==> before - Sum(gone, bytes, evicted - 1) > maxBytes)
  }

  lemma EvictOne(gone: seq<Key>, bytes: map<Key, nat>, before: nat, maxBytes: nat,
                 evicted: nat, evictedBytes: nat, total: int, key: Key)
    requires Evicted(gone, bytes, before, maxBytes, evicted, evictedBytes, total)
    requires total > maxBytes && key in bytes
    ensures Evicted(gone + [key], bytes, before, maxBytes, evicted + 1, evictedBytes + bytes[key], total - bytes[key])
  {
    SumOfPrefix(gone, gone + [key], bytes, |gone|);
  }

  /** The keys evicted are the first of the order, and no fewer would have done. */
  lemma FirstToFit(order: seq<Key>, gone: seq<Key>, bytes: map<Key, nat>, before: nat, maxBytes: nat,
                   evicted: nat, evictedBytes: nat, total: int)
    requires Evicted(gone, bytes, before, maxBytes, evicted, evictedBytes, total)
    requires gone <= order && (total <= maxBytes || gone == order)
    ensures order[..evicted] == gone && Shortest(order, bytes, before, maxBytes, evicted)
    ensures evictedBytes == Sum(order, bytes, evicted)
  {
    SumOfPrefix(gone, order, bytes, evicted);
    if evicted > 0 {
      SumOfPrefix(gone, order, bytes, evicted - 1);
      forall j | 0 <= j < evicted ensures before - Sum(order, bytes, j) > maxBytes {
        SumGrows(order, bytes, j, evicted - 1);
      }
    }
  }
}
