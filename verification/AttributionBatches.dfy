/** Batched entity attribution of a document's blocks (app/entities/bridge.py) and the validation of
    one batch answer (app/employees/semantic.py). */
module AttributionBatches {
  import opened Wrappers

  datatype Block = Block(text: string, context: string)

  /** A stored attribution; an unavailable employee leaves a block ambiguous and under review. */
  datatype Decision = Decision(outcome: string, needsReview: bool)

  const AMBIGUOUS := Decision("ambiguous", true)

  /** What the employee sends back for one batch, or how the call fails. */
  datatype Answer =
    | Candidates(values: seq<(int, Decision)>)
    | Unavailable
    | TransportFailed

  /** The answer to a batch, and whether the time budget is exhausted once a usable answer was recorded. */
  datatype Reply = Reply(answer: Answer, exhausted: bool)

  /** Blocks start..start+count-1. */
  datatype Batch = Batch(start: nat, count: nat)

  function Cost(b: Block): nat {
    |b.text| + |b.context|
  }

  function CostOf(blocks: seq<Block>, start: nat, count: nat): nat
    requires start + count <= |blocks|
  {
    if count == 0 then 0 else CostOf(blocks, start, count - 1) + Cost(blocks[start+count-1])
  }

  /** Within both bounds, and not extensible: the next block is missing, or would break a bound. */
  predicate Greedy(blocks: seq<Block>, b: Batch, size: nat, chars: nat) {
    && b.start + b.count <= |blocks| && b.count <= size
    && CostOf(blocks, b.start, b.count) <= chars
    && (b.count == size || b.start + b.count == |blocks| || CostOf(blocks, b.start, b.count + 1) > chars)
  }

  /** Consecutive from the first block: each batch starts where the one before ended. */
  ghost predicate Consecutive(batches: seq<Batch>) {
    forall i :: 0 <= i < |batches| ==> batches[i].start == if i == 0 then 0 else batches[i-1].start + batches[i-1].count
  }

  function EndOf(batches: seq<Batch>): nat {
    if batches == [] then 0 else batches[|batches|-1].start + batches[|batches|-1].count
  }

  /** Consecutive nonempty batches share no block. */
  lemma {:induction false} BatchesDisjoint(batches: seq<Batch>, i: int, j: int)
    requires Consecutive(batches) && 0 <= i < j < |batches|
    ensures batches[i].start + batches[i].count <= batches[j].start
    decreases j - i
  {
    if i + 1 < j {
      BatchesDisjoint(batches, i, j - 1);
    }
  }

  // ---- One batch ----------------------------------------------------------

  /** The inner loop: append blocks while both bounds allow. */
  method FillBatch(blocks: seq<Block>, start: nat, size: nat, chars: nat) returns (batch: Batch)
    requires start <= |blocks|
    ensures batch.start == start && Greedy(blocks, batch, size, chars)
  {
    var count := 0;
    var used := 0;
    while start + count < |blocks| && count < size
      invariant start + count <= |blocks| && count <= size
      invariant used == CostOf(blocks, start, count) <= chars
    {
      if used + Cost(blocks[start+count]) > chars {
        break;
      }
      used := used + Cost(blocks[start+count]);
      count := count + 1;
    }
    return Batch(start, count);
  }

  predicate InBatch(b: Batch, id: int) {
    b.start <= id < b.start + b.count
  }

  /** Each block of the batch exactly once, and nothing else. */
  ghost predicate Covers(values: seq<(int, Decision)>, b: Batch) {
    && (forall i :: 0 <= i < |values| ==> InBatch(b, values[i].0))
    && (forall i, j :: 0 <= i < j < |values| ==> values[i].0 != values[j].0)
    && (forall id :: InBatch(b, id) ==> exists i :: 0 <= i < |values| && values[i].0 == id)
  }

  /** attribute_blocks: one decision for every block of the batch, or the answer is unusable. */
  method Validate(values: seq<(int, Decision)>, b: Batch) returns (results: Option<map<int, Decision>>)
    ensures results.Some? <==> Covers(values, b)
    ensures results.Some? ==>
      && (forall id :: id in results.value <==> InBatch(b, id))
      && (forall i :: 0 <= i < |values| ==> results.value[values[i].0] == values[i].1)
  {
    var found: map<int, Decision> := map[];
    var n := 0;
    while n < |values|
      invariant 0 <= n <= |values|
      invariant forall i :: 0 <= i < n ==> InBatch(b, values[i].0) && values[i].0 in found && found[values[i].0] == values[i].1
      invariant forall i, j :: 0 <= i < j < n ==> values[i].0 != values[j].0
      invariant forall id :: id in found ==> exists i :: 0 <= i < n && values[i].0 == id
    {
      var (id, decision) := values[n];
      if !InBatch(b, id) || id in found {
        return None;
      }
      found := found[id := decision];
      n := n + 1;
    }
    var id := b.start;
    while id < b.start + b.count
      invariant b.start <= id <= b.start + b.count
      invariant forall x :: b.start <= x < id ==> x in found
    {
      if id !in found {
        assert InBatch(b, id);
        return None;
      }
      id := id + 1;
    }
    forall x | InBatch(b, x) ensures exists i :: 0 <= i < |values| && values[i].0 == x {
      assert x in found;
    }
    return Some(found);
  }

  // ---- The whole document -------------------------------------------------

  /** What is stored for a block: the employee's own decision when the answer to its batch was
      usable, an ambiguous one under review otherwise. */
  ghost predicate DecidedAs(b: Batch, answer: Answer, id: int, d: Decision) {
    if answer.Candidates? && Covers(answer.values, b)
    then exists i :: 0 <= i < |answer.values| && answer.values[i] == (id, d)
    else d == AMBIGUOUS
  }

  /** Every decided block lies in one of the batches and carries the decision of that batch. */
  ghost predicate Attributed(results: map<int, Decision>, batches: seq<Batch>, replies: seq<Reply>)
    requires |batches| <= |replies|
  {
    && (forall id :: id in results ==> exists n :: 0 <= n < |batches| && InBatch(batches[n], id))
    && (forall n, id :: 0 <= n < |batches| && InBatch(batches[n], id) && id in results ==>
          DecidedAs(batches[n], replies[n].answer, id, results[id]))
  }

  /** Results for exactly the first n blocks. */
  ghost predicate Prefix(results: map<int, Decision>, n: nat) {
    forall id :: id in results <==> 0 <= id < n
  }

  method AmbiguousBatch(b: Batch) returns (results: map<int, Decision>)
    ensures forall id :: id in results <==> InBatch(b, id)
    ensures forall id :: id in results ==> results[id] == AMBIGUOUS
  {
    results := map id: int | b.start <= id < b.start + b.count && InBatch(b, id) :: AMBIGUOUS;
  }

  /** The answer decides every block of its batch. */
  ghost predicate Usable(b: Batch, answer: Answer) {
    answer.Candidates? && Covers(answer.values, b)
  }

  /** A reply that ends the attribution: its transport failed, or the budget was exhausted right after a
      usable answer. An unusable answer is not followed by a look at the budget. */
  ghost predicate Ends(b: Batch, reply: Reply) {
    reply.answer.TransportFailed? || (Usable(b, reply.answer) && reply.exhausted)
  }

  /** The results that one reply adds, or None when the transport failed. */
  method Answered(b: Batch, answer: Answer) returns (added: Option<map<int, Decision>>, usable: bool)
    ensures added.None? <==> answer.TransportFailed?
    ensures usable <==> Usable(b, answer)
    ensures added.Some? ==>
      && (forall id :: id in added.value <==> InBatch(b, id))
      && (forall id :: id in added.value ==> DecidedAs(b, answer, id, added.value[id]))
  {
    match answer
    case TransportFailed => return None, false;
    case Unavailable =>
      var ambiguous := AmbiguousBatch(b);
      return Some(ambiguous), false;
    case Candidates(values) =>
      added := Validate(values, b);
      if added.None? {
        var ambiguous := AmbiguousBatch(b);
        return Some(ambiguous), false;
      }
      usable := true;
      forall id | id in added.value ensures DecidedAs(b, answer, id, added.value[id]) {
        assert InBatch(b, id);
        var i :| 0 <= i < |values| && values[i].0 == id;
        assert values[i] == (id, added.value[id]);
      }
  }

  /** The last reply ended the attribution. */
  ghost predicate Ended(batches: seq<Batch>, replies: seq<Reply>)
    requires |batches| <= |replies|
  {
    batches != [] && Ends(batches[|batches|-1], replies[|batches|-1])
  }

  /** How many blocks have a result: all those of the batches, but for the last one if its transport failed. */
  function DecidedCount(batches: seq<Batch>, replies: seq<Reply>): nat
    requires |batches| <= |replies|
  {
    if batches == [] then 0
    else if replies[|batches|-1].answer.TransportFailed? then batches[|batches|-1].start
    else EndOf(batches)
  }

  /** Only the last reply may have ended the attribution. */
  ghost predicate WentOn(batches: seq<Batch>, replies: seq<Reply>, n: nat)
    requires n <= |batches| <= |replies|
  {
    forall i :: 0 <= i < n ==> !Ends(batches[i], replies[i])
  }

  /** The batching loop. It fails exactly when a reply ends it or a block alone exceeds the character
      bound, and ends with results for exactly the blocks decided so far, a prefix of the document. */
  method AttributeAll(blocks: seq<Block>, size: nat, chars: nat, replies: seq<Reply>)
    returns (results: map<int, Decision>, batches: seq<Batch>, failed: bool)
    requires size >= 1 && |replies| >= |blocks|
    ensures Consecutive(batches) && |batches| <= |blocks| && EndOf(batches) <= |blocks|
    ensures forall i :: 0 <= i < |batches| ==> Greedy(blocks, batches[i], size, chars) && batches[i].count > 0
    ensures failed <==> Ended(batches, replies) || EndOf(batches) < |blocks|
    ensures failed && !Ended(batches, replies) ==> Cost(blocks[EndOf(batches)]) > chars
    ensures WentOn(batches, replies, if batches == [] then 0 else |batches| - 1)
    ensures Prefix(results, DecidedCount(batches, replies))
    ensures Attributed(results, batches, replies)
  {
    hide Attributed, Greedy, Prefix, Consecutive, Usable;
    results, batches, failed := map[], [], false;
    StartAttributed(replies);
    var cursor := 0;
    while cursor < |blocks|
      invariant |batches| <= cursor == EndOf(batches) <= |blocks| && DecidedCount(batches, replies) == cursor
      invariant Consecutive(batches) && Prefix(results, cursor) && Attributed(results, batches, replies)
      invariant forall i :: 0 <= i < |batches| ==> Greedy(blocks, batches[i], size, chars) && batches[i].count > 0
      invariant WentOn(batches, replies, |batches|)
      decreases |blocks| - cursor
    {
      var batch := FillBatch(blocks, cursor, size, chars);
      BatchFits(blocks, batch, size, chars);
      if batch.count == 0 {
        failed := true;
        return;
      }
      var reply := replies[|batches|];
      var added, usable := Answered(batch, reply.answer);
      AppendBatch(batches, batch);
      var kept, was := results, batches;
      batches := batches + [batch];
      if added.None? {
        failed := true;
        KeepAttributed(results, results, was, batch, replies, cursor);
        return;
      }
      results := results + added.value;
      PrefixGrows(kept, added.value, cursor, batch);
      KeepAttributed(kept, results, was, batch, replies, cursor);
      if usable && reply.exhausted {
        failed := true;
        return;
      }
      cursor := cursor + batch.count;
    }
  }

  lemma StartAttributed(replies: seq<Reply>)
    ensures Attributed(map[], [], replies) && Prefix(map[], 0) && Consecutive([])
  {
  }

  lemma BatchFits(blocks: seq<Block>, b: Batch, size: nat, chars: nat)
    requires Greedy(blocks, b, size, chars) && size >= 1
    ensures b.start + b.count <= |blocks|
    ensures b.count == 0 && b.start < |blocks| ==> Cost(blocks[b.start]) > chars
  {
    if b.count == 0 && b.start < |blocks| {
      assert CostOf(blocks, b.start, 1) == CostOf(blocks, b.start, 0) + Cost(blocks[b.start]);
    }
  }

  lemma AppendBatch(batches: seq<Batch>, b: Batch)
    requires Consecutive(batches) && b.start == EndOf(batches)
    ensures Consecutive(batches + [b]) && EndOf(batches + [b]) == b.start + b.count
  {
  }

  lemma PrefixGrows(results: map<int, Decision>, added: map<int, Decision>, cursor: nat, b: Batch)
    requires Prefix(results, cursor) && b.start == cursor && forall id :: id in added <==> InBatch(b, id)
    ensures Prefix(results + added, cursor + b.count)
    ensures forall id :: id in results ==> id in results + added && (results + added)[id] == results[id]
  {
  }

  /** A new batch behind the ones already decided. */
  lemma KeepAttributed(kept: map<int, Decision>, results: map<int, Decision>, batches: seq<Batch>, b: Batch,
                       replies: seq<Reply>, cursor: nat)
    requires |batches| < |replies| && Attributed(kept, batches, replies) && Prefix(kept, cursor)
    requires Consecutive(batches) && EndOf(batches) == cursor == b.start
    requires forall id :: id in kept ==> id in results && results[id] == kept[id]
    requires forall id :: id in results && id !in kept ==>
      InBatch(b, id) && DecidedAs(b, replies[|batches|].answer, id, results[id])
    ensures Attributed(results, batches + [b], replies)
  {
    var longer := batches + [b];
    forall id | id in results ensures exists n :: 0 <= n < |longer| && InBatch(longer[n], id) {
      if id in kept {
        var n :| 0 <= n < |batches| && InBatch(batches[n], id);
        assert InBatch(longer[n], id);
      } else {
        assert InBatch(longer[|batches|], id);
      }
    }
    forall n, id | 0 <= n < |longer| && InBatch(longer[n], id) && id in results
      ensures DecidedAs(longer[n], replies[n].answer, id, results[id])
    {
      if n < |batches| {
        assert InBatch(batches[n], id);
        if n < |batches| - 1 { BatchesDisjoint(batches, n, |batches| - 1); }
        assert id in kept;
      }
    }
  }

  // ---- What is stored -----------------------------------------------------

  datatype ArtifactStatus = Running | Completed | FailedArtifact

  /** entity_bridge_artifacts and its blocks, in index order. */
  datatype Artifact = Artifact(status: ArtifactStatus, blocks: seq<Decision>)

  /** The stored prefix: blocks in document order up to the first one without a result. */
  method StoredPrefix(results: map<int, Decision>, total: nat) returns (stored: seq<Decision>)
    ensures |stored| <= total
    ensures forall i :: 0 <= i < |stored| ==> i in results && results[i] == stored[i]
    ensures |stored| < total ==> |stored| !in results
  {
    stored := [];
    var index := 0;
    while index < total
      invariant 0 <= index == |stored| <= total
      invariant forall i :: 0 <= i < index ==> i in results && results[i] == stored[i]
    {
      if index !in results {
        break;
      }
      stored := stored + [results[index]];
      index := index + 1;
    }
  }

  /** The artifact of one run: the decided prefix of the document. It is failed exactly when a reply ended
      the attribution or a block exceeds the bound, and completed exactly when it holds the whole. */
  method RunAttribution(blocks: seq<Block>, size: nat, chars: nat, replies: seq<Reply>)
    returns (a: Artifact, batches: seq<Batch>)
    requires size >= 1 && |replies| >= |blocks|
    ensures Consecutive(batches) && |batches| <= |replies| && EndOf(batches) <= |blocks|
    ensures forall i :: 0 <= i < |batches| ==> Greedy(blocks, batches[i], size, chars) && batches[i].count > 0
    ensures WentOn(batches, replies, if batches == [] then 0 else |batches| - 1)
    ensures |a.blocks| == DecidedCount(batches, replies)
    ensures a.status == if Ended(batches, replies) || EndOf(batches) < |blocks| then FailedArtifact else Completed
    ensures EndOf(batches) < |blocks| && !Ended(batches, replies) ==> Cost(blocks[EndOf(batches)]) > chars
    ensures a.status == Completed ==> |a.blocks| == |blocks|
    ensures forall n, id :: 0 <= n < |batches| && InBatch(batches[n], id) && 0 <= id < |a.blocks| ==>
      DecidedAs(batches[n], replies[n].answer, id, a.blocks[id])
  {
    hide Greedy, Ends, Consecutive;
    var results, made, failed := AttributeAll(blocks, size, chars, replies);
    batches := made;
    var stored := StoredPrefix(results, |blocks|);
    CountWithin(batches, replies);
    StoredIsPrefix(results, DecidedCount(batches, replies), stored, |blocks|);
    a := Artifact(Completed, stored);
    if failed {
      a := a.(status := FailedArtifact);
    }
    assert forall m, id :: 0 <= m < |batches| && InBatch(batches[m], id) && 0 <= id < |a.blocks| ==>
        DecidedAs(batches[m], replies[m].answer, id, results[id]);
  }

  lemma CountWithin(batches: seq<Batch>, replies: seq<Reply>)
    requires |batches| <= |replies|
    ensures DecidedCount(batches, replies) <= EndOf(batches)
    ensures !Ended(batches, replies) ==> DecidedCount(batches, replies) == EndOf(batches)
  {
  }

  lemma StoredIsPrefix(results: map<int, Decision>, n: nat, stored: seq<Decision>, total: nat)
    requires Prefix(results, n) && n <= total && |stored| <= total
    requires forall i :: 0 <= i < |stored| ==> i in results
    requires |stored| < total ==> |stored| !in results
    ensures |stored| == n
  {
    assert n < |stored| ==> n in results;
  }
}
