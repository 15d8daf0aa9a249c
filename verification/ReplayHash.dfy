/** The replay hash: a left fold of a hash step over the `{kind, payload}` of the events.
    The hash step is symbolic: `Chain` is the free (collision-free) step, so an equality proved
    here holds for every concrete hash function, SHA-256 included. */
module ReplayHash {
  import opened Options
  import opened Events

  datatype Hash = Seed | Chain(prev: Hash, body: Body)

  function Fold(h: Hash, log: Log): Hash {
    if log == [] then h else Chain(Fold(h, log[..|log| - 1]), log[|log| - 1].body)
  }

  /** What `replayHash` promises for a list of events. */
  function Replayed(log: Log): Hash {
    Fold(Seed, log)
  }

  datatype Checkpoint = Checkpoint(seqNo: nat, hash: Hash)

  lemma FoldSnoc(h: Hash, log: Log, e: Event)
    ensures Fold(h, log + [e]) == Chain(Fold(h, log), e.body)
  {
    assert (log + [e])[..|log|] == log;
  }

  lemma {:induction false} FoldConcat(h: Hash, a: Log, b: Log)
    ensures Fold(h, a + b) == Fold(Fold(h, a), b)
  {
    if b == [] {
      assert a + b == a;
    } else {
      FoldConcat(h, a, b[..|b| - 1]);
      assert (a + b)[..|a + b| - 1] == a + b[..|b| - 1];
    }
  }

  function Depth(h: Hash): nat {
    if h.Seed? then 0 else 1 + Depth(h.prev)
  }

  lemma {:induction false} FoldGrows(h: Hash, log: Log)
    ensures Depth(Fold(h, log)) == Depth(h) + |log|
  {
    if log != [] { FoldGrows(h, log[..|log| - 1]); }
  }

  /** `replayHash`. */
  method ReplayHash(events: Log) returns (hash: Hash)
    ensures hash == Replayed(events)
  {
    hash := Seed;
    for k := 0 to |events|
      invariant hash == Replayed(events[..k])
    {
      FoldSnoc(Seed, events[..k], events[k]);
      assert events[..k] + [events[k]] == events[..k + 1];
      hash := Chain(hash, events[k].body);
    }
    assert events[..|events|] == events;
  }

  // ---- seeding on resume ----------------------------------------------------------------------------------------

  ghost predicate Increasing(log: Log) {
    forall j, k :: 0 <= j < k < |log| ==> log[j].seqNo < log[k].seqNo
  }

  function NextSeq(log: Log): nat {
    if log == [] then 0 else log[|log| - 1].seqNo + 1
  }

  /** Chains onto `h` the events whose sequence number is at least `from`. */
  function FoldDelta(h: Hash, log: Log, from: nat): Hash {
    if log == [] then h
    else
      var before := FoldDelta(h, log[..|log| - 1], from);
      if log[|log| - 1].seqNo >= from then Chain(before, log[|log| - 1].body) else before
  }

  /** What resumption uses as its starting hash: the last checkpoint extended by the delta. */
  function ResumeHash(cp: Option<Checkpoint>, log: Log): Hash {
    if cp.Some? then FoldDelta(cp.value.hash, log, cp.value.seqNo) else FoldDelta(Seed, log, 0)
  }

  lemma {:induction false} DeltaIsSuffix(h: Hash, log: Log, from: nat, at: nat)
    requires at <= |log|
    requires forall k :: 0 <= k < at ==> log[k].seqNo < from
    requires forall k :: at <= k < |log| ==> log[k].seqNo >= from
    ensures FoldDelta(h, log, from) == Fold(h, log[at..])
  {
    if log == [] {
    } else if at == |log| {
      assert log[at..] == [];
      assert log[|log| - 1].seqNo < from;
      DeltaIsSuffix(h, log[..|log| - 1], from, at - 1);
      assert log[..|log| - 1][at - 1..] == [];
    } else {
      var n := |log| - 1;
      DeltaIsSuffix(h, log[..n], from, at);
      assert log[at..][..|log[at..]| - 1] == log[..n][at..];
    }
  }

  /** The loop of `resumeTurn` that re-seeds the rolling hash. */
  method SeedResume(cp: Option<Checkpoint>, events: Log) returns (hash: Hash)
    ensures hash == ResumeHash(cp, events)
  {
    var start, from := Seed, 0;
    if cp.Some? { start, from := cp.value.hash, cp.value.seqNo; }
    hash := start;
    for k := 0 to |events|
      invariant hash == FoldDelta(start, events[..k], from)
    {
      assert events[..k + 1][..k] == events[..k];
      if events[k].seqNo >= from { hash := Chain(hash, events[k].body); }
    }
    assert events[..|events|] == events;
  }

  /** Seeding from a checkpoint that is right for a prefix gives the hash of the whole log. */
  lemma SeedFromCheckpoint(log: Log, at: nat, base: nat, cp: Checkpoint)
    requires Increasing(log) && base <= at <= |log| && at > 0
    requires cp.seqNo == log[at - 1].seqNo + 1 && cp.hash == Replayed(log[base..at])
    ensures ResumeHash(Some(cp), log) == Replayed(log[base..])
  {
    DeltaIsSuffix(cp.hash, log, cp.seqNo, at);
    FoldConcat(Seed, log[base..at], log[at..]);
    assert log[base..at] + log[at..] == log[base..];
  }

  /** Without a checkpoint the whole log is hashed. */
  lemma SeedFromScratch(log: Log)
    ensures ResumeHash(None, log) == Replayed(log)
  {
    DeltaIsSuffix(Seed, log, 0, 0);
    assert log[0..] == log;
  }
}
