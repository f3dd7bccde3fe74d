/**
 The artifact store of one run (src/artifacts/store.ts) and the bound on an
 attempt's output (src/runtime/attempt.ts): across a whole chain of attempts the
 store's total limit never refuses an output. Digests come from `hash`, of
 which nothing is assumed unless a lemma says so.
 */
module Artifacts {
  import opened Budget
  import opened JournalText
  import opened Outcomes

  type Digest = nat

  // ----- text -----

  /** One code point in UTF-8 (RFC 3629, section 3). */
  function Utf8(c: char): (r: seq<byte>)
    ensures 1 <= |r| <= 4
  {
    var n := c as int;
    if n < 0x80 then [n as byte]
    else if n < 0x800 then [(0xC0 + n / 64) as byte, (0x80 + n % 64) as byte]
    else if n < 0x10000 then [(0xE0 + n / 4096) as byte, (0x80 + n / 64 % 64) as byte, (0x80 + n % 64) as byte]
    else [(0xF0 + n / 262144) as byte, (0x80 + n / 4096 % 64) as byte, (0x80 + n / 64 % 64) as byte, (0x80 + n % 64) as byte]
  }

  /** The first `n` code points in UTF-8. */
  function EncodeTo(s: string, n: nat): seq<byte>
    requires n <= |s|
  {
    if n == 0 then [] else EncodeTo(s, n - 1) + Utf8(s[n - 1])
  }

  function EncodeText(s: string): seq<byte> { EncodeTo(s, |s|) }

  lemma {:induction false} EncodePrefix(s: string, t: string, n: nat)
    requires n <= |s| && s <= t
    ensures EncodeTo(t, n) == EncodeTo(s, n)
  {
    if n > 0 { EncodePrefix(s, t, n - 1); }
  }

  /** Keeps the longest run of whole characters that fits the limit. */
  method BoundAttemptOutput(output: string, limit: nat) returns (bounded: string, truncated: bool)
    ensures bounded <= output && |EncodeText(bounded)| <= limit
    ensures truncated <==> |EncodeText(output)| > limit
    ensures !truncated ==> bounded == output
    ensures truncated ==> |bounded| < |output| && |EncodeTo(output, |bounded| + 1)| > limit
  {
    if |EncodeText(output)| <= limit { return output, false; }
    var bytes := 0;
    bounded := "";
    var i := 0;
    while i < |output|
      invariant i <= |output| && bounded == output[..i] && bytes == |EncodeTo(output, i)| <= limit
    {
      var width := |Utf8(output[i])|;
      if bytes + width > limit { break; }
      bounded := bounded + [output[i]];
      bytes := bytes + width;
      i := i + 1;
    }
    EncodePrefix(bounded, output, |bounded|);
    truncated := true;
  }

  // ----- the store -----

  datatype Blob = Blob(name: Digest, content: seq<byte>)

  datatype ArtifactRef = ArtifactRef(sha256: Digest, bytes: nat)

  datatype StoreError = TooLarge | Collision | Mismatch | TotalExceeded | ExportTooLarge | Missing

  type Hash = seq<byte> -> Digest

  function Find(blobs: seq<Blob>, name: Digest, n: nat): Option<nat>
    requires n <= |blobs|
    ensures Find(blobs, name, n).Some? ==> Find(blobs, name, n).value < n && blobs[Find(blobs, name, n).value].name == name
    ensures Find(blobs, name, n).None? ==> forall i :: 0 <= i < n ==> blobs[i].name != name
  {
    if n == 0 then None else if blobs[n - 1].name == name then Some(n - 1) else Find(blobs, name, n - 1)
  }

  function BlobBytes(blobs: seq<Blob>, n: nat): nat
    requires n <= |blobs|
  {
    if n == 0 then 0 else BlobBytes(blobs, n - 1) + |blobs[n - 1].content|
  }

  function PutTo(hash: Hash, maxArtifact: nat, maxTotal: nat, blobs: seq<Blob>, content: seq<byte>): Result<seq<Blob>, StoreError> {
    var digest := hash(content);
    var found := Find(blobs, digest, |blobs|);
    if |content| > maxArtifact then Err(TooLarge)
    else if found.Some? then
      if |blobs[found.value].content| != |content| then Err(Collision)
      else if hash(blobs[found.value].content) != digest then Err(Mismatch)
      else Ok(blobs)
    else if BlobBytes(blobs, |blobs|) + |content| > maxTotal then Err(TotalExceeded)
    else Ok(blobs + [Blob(digest, content)])
  }

  class ArtifactStore {
    const hash: Hash
    const maxArtifact: nat
    const maxTotal: nat
    var blobs: seq<Blob>   // the directory, each `<digest>.blob` once

    predicate Valid()
      reads this
    {
      && (forall i :: 0 <= i < |blobs| ==> hash(blobs[i].content) == blobs[i].name)
      && forall i, j :: 0 <= i < j < |blobs| ==> blobs[i].name != blobs[j].name
    }

    constructor (hash: Hash, maxArtifact: nat, maxTotal: nat)
      ensures this.hash == hash && this.maxArtifact == maxArtifact && this.maxTotal == maxTotal
      ensures blobs == [] && Valid()
    {
      this.hash, this.maxArtifact, this.maxTotal, blobs := hash, maxArtifact, maxTotal, [];
    }

    /** Adds up the directory, and gives up as soon as it is over the limit. */
    method TotalBytes() returns (r: Result<nat, StoreError>)
      ensures r == if BlobBytes(blobs, |blobs|) > maxTotal then Err(TotalExceeded) else Ok(BlobBytes(blobs, |blobs|))
    {
      var total := 0;
      for i := 0 to |blobs|
        invariant total == BlobBytes(blobs, i) && total <= maxTotal
      {
        total := total + |blobs[i].content|;
        if total > maxTotal {
          BlobBytesGrow(blobs, i + 1, |blobs|);
          return Err(TotalExceeded);
        }
      }
      r := Ok(total);
    }

    method Put(content: seq<byte>) returns (r: Result<ArtifactRef, StoreError>)
      requires Valid()
      modifies this
      ensures Valid()
      ensures var spec := PutTo(hash, maxArtifact, maxTotal, old(blobs), content);
              && blobs == (if spec.Ok? then spec.value else old(blobs))
              && r == (if spec.Ok? then Ok(ArtifactRef(hash(content), |content|)) else Err(spec.error))
    {
      if |content| > maxArtifact { return Err(TooLarge); }
      var digest := hash(content);
      var found := Find(blobs, digest, |blobs|);
      if found.Some? {
        var existing := blobs[found.value].content;
        if |existing| != |content| { return Err(Collision); }
        if hash(existing) != digest { return Err(Mismatch); }
        return Ok(ArtifactRef(digest, |content|));
      }
      var total := TotalBytes();
      if total.Err? || total.value + |content| > maxTotal { return Err(TotalExceeded); }
      blobs := blobs + [Blob(digest, content)];
      r := Ok(ArtifactRef(digest, |content|));
    }

    method Export(ref: ArtifactRef, maxBytes: nat) returns (r: Result<seq<byte>, StoreError>)
      ensures r.Ok? ==> |r.value| == ref.bytes <= maxBytes && hash(r.value) == ref.sha256 && Blob(ref.sha256, r.value) in blobs
      ensures (Valid() && ref.bytes <= maxBytes
               && (exists b :: b in blobs && b.name == ref.sha256 && |b.content| == ref.bytes)) ==>
                r.Ok?
    {
      if ref.bytes > maxBytes { return Err(ExportTooLarge); }
      var found := Find(blobs, ref.sha256, |blobs|);
      if found.None? { return Err(Missing); }
      var content := blobs[found.value].content;
      if |content| != ref.bytes { return Err(Collision); }
      if hash(content) != ref.sha256 { return Err(Mismatch); }
      assert blobs[found.value] == Blob(ref.sha256, content);
      r := Ok(content);
    }
  }

  lemma {:induction false} BlobBytesGrow(blobs: seq<Blob>, m: nat, n: nat)
    requires m <= n <= |blobs|
    ensures BlobBytes(blobs, m) <= BlobBytes(blobs, n)
  {
    if m < n { BlobBytesGrow(blobs, m, n - 1); }
  }

  lemma {:induction false} BlobBytesOfPrefix(blobs: seq<Blob>, more: seq<Blob>, n: nat)
    requires n <= |blobs| && blobs <= more
    ensures BlobBytes(more, n) == BlobBytes(blobs, n)
  {
    if n > 0 { BlobBytesOfPrefix(blobs, more, n - 1); }
  }

  // ----- a run's outputs -----

  /** The store after the first `n` attempts of a run have put their outputs; a refused one leaves it alone. */
  function AfterPuts(hash: Hash, maxArtifact: nat, maxTotal: nat, outputs: seq<seq<byte>>, n: nat): seq<Blob>
    requires n <= |outputs|
  {
    if n == 0 then []
    else
      var blobs := AfterPuts(hash, maxArtifact, maxTotal, outputs, n - 1);
      var put := PutTo(hash, maxArtifact, maxTotal, blobs, outputs[n - 1]);
      if put.Ok? then put.value else blobs
  }

  /** The store's own limits for a run: one output per attempt, as many attempts as the counts allow. */
  function TotalLimit(root: Limits): nat
    requires Valid(root)
  {
    root.outputBytes * (root.retries + root.resumes + 1)
  }

  lemma TimesGrows(a: nat, m: nat, n: nat)
    requires m <= n
    ensures a * m <= a * n
  {}

  /** Every one of the run's attempts has room for a full output under the total limit. */
  lemma RoomForEachAttempt(plans: seq<Limits>, steps: seq<Step>, n: nat)
    requires Chain(plans, steps) && n < |plans|
    ensures plans[n].outputBytes == plans[0].outputBytes
    ensures plans[0].outputBytes * n + plans[0].outputBytes <= TotalLimit(plans[0])
  {
    var root := plans[0];
    Conserved(plans, steps, n);
    DerivedPlansValid(plans, steps, n);
    TimesGrows(root.outputBytes, n + 1, root.retries + root.resumes + 1);
    assert root.outputBytes * (n + 1) == root.outputBytes * n + root.outputBytes;
  }

  // ----- one output per start of an attempt -----

  /** Which attempt each start was of, and the output it put; each is bounded by its attempt's plan. */
  ghost predicate Bounded(plans: seq<Limits>, starts: seq<nat>, outputs: seq<seq<byte>>) {
    && |starts| == |outputs|
    && forall i :: 0 <= i < |starts| ==> starts[i] < |plans| && |outputs[i]| <= plans[starts[i]].outputBytes
  }

  /** The digest has no collision on these contents. */
  ghost predicate NoCollision(hash: Hash, outputs: seq<seq<byte>>) {
    forall i, k :: 0 <= i < |outputs| && 0 <= k < |outputs| && hash(outputs[i]) == hash(outputs[k]) ==> outputs[i] == outputs[k]
  }

  /** The bytes of the different contents among the first `n`. */
  function DistinctBytes(outputs: seq<seq<byte>>, n: nat): nat
    requires n <= |outputs|
  {
    if n == 0 then 0
    else DistinctBytes(outputs, n - 1) + if outputs[n - 1] in outputs[..n - 1] then 0 else |outputs[n - 1]|
  }

  lemma {:induction false} DistinctGrow(outputs: seq<seq<byte>>, m: nat, n: nat)
    requires m <= n <= |outputs|
    ensures DistinctBytes(outputs, m) <= DistinctBytes(outputs, n)
  {
    if m < n { DistinctGrow(outputs, m, n - 1); }
  }

  /** What the `i`-th put answers. */
  function Answer(hash: Hash, maxArtifact: nat, maxTotal: nat, outputs: seq<seq<byte>>, i: nat): Result<seq<Blob>, StoreError>
    requires i < |outputs|
  {
    PutTo(hash, maxArtifact, maxTotal, AfterPuts(hash, maxArtifact, maxTotal, outputs, i), outputs[i])
  }

  /** Every one of the first `n` outputs is stored. */
  ghost predicate AllStored(hash: Hash, maxArtifact: nat, maxTotal: nat, outputs: seq<seq<byte>>, n: nat)
    requires n <= |outputs|
  {
    forall i :: 0 <= i < n ==> Answer(hash, maxArtifact, maxTotal, outputs, i).Ok?
  }

  /** The store holds the different ones of the first `n` outputs and nothing else. */
  ghost predicate Holds(hash: Hash, blobs: seq<Blob>, outputs: seq<seq<byte>>, n: nat)
    requires n <= |outputs|
  {
    && BlobBytes(blobs, |blobs|) == DistinctBytes(outputs, n)
    && (forall b :: b in blobs ==> b.name == hash(b.content) && b.content in outputs[..n])
    && (forall i :: 0 <= i < n ==> Blob(hash(outputs[i]), outputs[i]) in blobs)
  }

  /** While every output has been stored, the store holds the different ones. */
  lemma {:induction false} HoldsDistinct(hash: Hash, maxArtifact: nat, maxTotal: nat, outputs: seq<seq<byte>>, n: nat)
    requires NoCollision(hash, outputs) && n <= |outputs| && AllStored(hash, maxArtifact, maxTotal, outputs, n)
    ensures Holds(hash, AfterPuts(hash, maxArtifact, maxTotal, outputs, n), outputs, n)
  {
    if n > 0 {
      HoldsDistinct(hash, maxArtifact, maxTotal, outputs, n - 1);
      PutExactly(hash, maxArtifact, maxTotal, AfterPuts(hash, maxArtifact, maxTotal, outputs, n - 1), outputs, n - 1);
      assert Answer(hash, maxArtifact, maxTotal, outputs, n - 1).Ok?;
    }
  }

  lemma OneMoreOutput(outputs: seq<seq<byte>>, n: nat)
    requires n < |outputs|
    ensures forall x :: x in outputs[..n + 1] <==> x in outputs[..n] || x == outputs[n]
    ensures forall i :: 0 <= i < n ==> outputs[i] in outputs[..n]
  {
    assert outputs[..n + 1] == outputs[..n] + [outputs[n]];
  }

  /** A store that holds the outputs so far finds the next one exactly when it is one of them. */
  lemma FoundExactly(hash: Hash, blobs: seq<Blob>, outputs: seq<seq<byte>>, n: nat)
    requires NoCollision(hash, outputs) && n < |outputs| && Holds(hash, blobs, outputs, n)
    ensures var found := Find(blobs, hash(outputs[n]), |blobs|);
            && (found.Some? <==> outputs[n] in outputs[..n])
            && (found.Some? ==> blobs[found.value].content == outputs[n])
  {
    var found := Find(blobs, hash(outputs[n]), |blobs|);
    if outputs[n] in outputs[..n] {
      var i :| 0 <= i < n && outputs[i] == outputs[n];
      assert Blob(hash(outputs[i]), outputs[i]) in blobs;
    }
    if found.Some? {
      assert blobs[found.value] in blobs;
      var i :| 0 <= i < n && outputs[i] == blobs[found.value].content;
    }
  }

  /** What the next put answers, and that the store then holds it as well. */
  lemma PutExactly(hash: Hash, maxArtifact: nat, maxTotal: nat, blobs: seq<Blob>, outputs: seq<seq<byte>>, n: nat)
    requires NoCollision(hash, outputs) && n < |outputs| && Holds(hash, blobs, outputs, n)
    ensures var put := PutTo(hash, maxArtifact, maxTotal, blobs, outputs[n]);
            && put == (if |outputs[n]| > maxArtifact then Err(TooLarge)
                       else if outputs[n] in outputs[..n] then Ok(blobs)
                       else if DistinctBytes(outputs, n + 1) > maxTotal then Err(TotalExceeded)
                       else Ok(blobs + [Blob(hash(outputs[n]), outputs[n])]))
            && (put.Ok? ==> Holds(hash, put.value, outputs, n + 1))
  {
    FoundExactly(hash, blobs, outputs, n);
    OneMoreOutput(outputs, n);
    if outputs[n] !in outputs[..n] { HoldsOneMore(hash, blobs, outputs, n); }
  }

  lemma HoldsOneMore(hash: Hash, blobs: seq<Blob>, outputs: seq<seq<byte>>, n: nat)
    requires n < |outputs| && Holds(hash, blobs, outputs, n) && outputs[n] !in outputs[..n]
    ensures Holds(hash, blobs + [Blob(hash(outputs[n]), outputs[n])], outputs, n + 1)
  {
    BlobBytesOfPrefix(blobs, blobs + [Blob(hash(outputs[n]), outputs[n])], |blobs|);
    OneMoreOutput(outputs, n);
  }

  /**
   However often attempts are started, the total limit refuses an output, all
   before it having been stored, exactly when its content is new and the bytes of the
   different contents with it are more than the limit.
   */
  lemma TotalRefusesExactly(hash: Hash, plans: seq<Limits>, steps: seq<Step>, starts: seq<nat>, outputs: seq<seq<byte>>, n: nat)
    requires Chain(plans, steps) && Bounded(plans, starts, outputs) && NoCollision(hash, outputs) && n < |outputs|
    requires AllStored(hash, plans[0].outputBytes, TotalLimit(plans[0]), outputs, n)
    ensures var answer := Answer(hash, plans[0].outputBytes, TotalLimit(plans[0]), outputs, n);
            && (answer.Ok? || answer == Err(TotalExceeded))
            && (answer == Err(TotalExceeded) <==> outputs[n] !in outputs[..n] && DistinctBytes(outputs, n + 1) > TotalLimit(plans[0]))
  {
    var most, total := plans[0].outputBytes, TotalLimit(plans[0]);
    HoldsDistinct(hash, most, total, outputs, n);
    PutExactly(hash, most, total, AfterPuts(hash, most, total, outputs, n), outputs, n);
    RoomForEachAttempt(plans, steps, starts[n]);
  }

  /** Every output of a run is stored exactly when the different ones together are within the limit. */
  lemma {:induction false} AllStoredExactly(hash: Hash, plans: seq<Limits>, steps: seq<Step>, starts: seq<nat>,
                                            outputs: seq<seq<byte>>, n: nat)
    requires Chain(plans, steps) && Bounded(plans, starts, outputs) && NoCollision(hash, outputs) && n <= |outputs|
    ensures AllStored(hash, plans[0].outputBytes, TotalLimit(plans[0]), outputs, n) <==>
              DistinctBytes(outputs, n) <= TotalLimit(plans[0])
  {
    if n > 0 {
      AllStoredExactly(hash, plans, steps, starts, outputs, n - 1);
      DistinctGrow(outputs, n - 1, n);
      StoredSoFar(hash, plans[0].outputBytes, TotalLimit(plans[0]), outputs, n - 1);
      if AllStored(hash, plans[0].outputBytes, TotalLimit(plans[0]), outputs, n - 1) {
        TotalRefusesExactly(hash, plans, steps, starts, outputs, n - 1);
        SameBytes(outputs, n - 1);
      }
    }
  }

  lemma StoredSoFar(hash: Hash, maxArtifact: nat, maxTotal: nat, outputs: seq<seq<byte>>, n: nat)
    requires n < |outputs|
    ensures AllStored(hash, maxArtifact, maxTotal, outputs, n + 1) <==>
              AllStored(hash, maxArtifact, maxTotal, outputs, n) && Answer(hash, maxArtifact, maxTotal, outputs, n).Ok?
  {}

  lemma SameBytes(outputs: seq<seq<byte>>, n: nat)
    requires n < |outputs|
    ensures outputs[n] in outputs[..n] ==> DistinctBytes(outputs, n + 1) == DistinctBytes(outputs, n)
  {}

  /** When no attempt is started twice, no output is ever refused. */
  lemma TotalLimitNeverRefuses(hash: Hash, plans: seq<Limits>, steps: seq<Step>, starts: seq<nat>, outputs: seq<seq<byte>>)
    requires Chain(plans, steps) && Bounded(plans, starts, outputs) && NoCollision(hash, outputs)
    requires forall i, k :: 0 <= i < k < |starts| ==> starts[i] != starts[k]
    ensures AllStored(hash, plans[0].outputBytes, TotalLimit(plans[0]), outputs, |outputs|)
  {
    NoMoreThan(starts, |plans|);
    FewFit(plans, steps, starts, outputs);
    AllStoredExactly(hash, plans, steps, starts, outputs, |outputs|);
  }

  lemma FewFit(plans: seq<Limits>, steps: seq<Step>, starts: seq<nat>, outputs: seq<seq<byte>>)
    requires Chain(plans, steps) && Bounded(plans, starts, outputs) && |outputs| <= |plans|
    ensures DistinctBytes(outputs, |outputs|) <= TotalLimit(plans[0])
  {
    DistinctWithin(plans, steps, starts, outputs, |outputs|);
    RoomForEachAttempt(plans, steps, |plans| - 1);
    TimesGrows(plans[0].outputBytes, |outputs|, |plans|);
    TimesOneMore(plans[0].outputBytes, |plans| - 1);
  }

  lemma TimesOneMore(a: nat, n: nat)
    ensures a * (n + 1) == a * n + a
  {}

  lemma {:induction false} DistinctWithin(plans: seq<Limits>, steps: seq<Step>, starts: seq<nat>, outputs: seq<seq<byte>>, n: nat)
    requires Chain(plans, steps) && Bounded(plans, starts, outputs) && n <= |outputs|
    ensures DistinctBytes(outputs, n) <= plans[0].outputBytes * n
  {
    if n > 0 {
      DistinctWithin(plans, steps, starts, outputs, n - 1);
      RoomForEachAttempt(plans, steps, starts[n - 1]);
      assert plans[0].outputBytes * n == plans[0].outputBytes * (n - 1) + plans[0].outputBytes;
    }
  }

  /** Different numbers below `n` are at most `n`. */
  lemma {:induction false} NoMoreThan(xs: seq<nat>, n: nat)
    requires (forall i :: 0 <= i < |xs| ==> xs[i] < n) && forall i, k :: 0 <= i < k < |xs| ==> xs[i] != xs[k]
    ensures |xs| <= n
    decreases n
  {
    if xs != [] {
      assert xs[0] < n;
      if forall i :: 0 <= i < |xs| ==> xs[i] != n - 1 {
        NoMoreThan(xs, n - 1);
      } else {
        var j :| 0 <= j < |xs| && xs[j] == n - 1;
        NoMoreThan(xs[..j] + xs[j + 1..], n - 1);
      }
    }
  }

  /** Without retries and resumes, an attempt that is started again and ends with another full-size output is refused it. */
  lemma SecondStartRefused(hash: Hash, root: Limits, first: seq<byte>, second: seq<byte>)
    requires Valid(root) && root.retries == 0 && root.resumes == 0 && |first| == |second| == root.outputBytes
    requires first != second && hash(first) != hash(second)
    ensures Chain([root], []) && Bounded([root], [0, 0], [first, second])
    ensures Answer(hash, root.outputBytes, TotalLimit(root), [first, second], 0).Ok?
    ensures Answer(hash, root.outputBytes, TotalLimit(root), [first, second], 1) == Err(TotalExceeded)
  {
    var outputs := [first, second];
    assert DistinctBytes(outputs, 1) == |first| && TotalLimit(root) == root.outputBytes;
    AllStoredExactly(hash, [root], [], [0, 0], outputs, 1);
    TotalRefusesExactly(hash, [root], [], [0, 0], outputs, 1);
    assert outputs[..1] == [first];
  }
}
