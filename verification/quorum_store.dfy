/**
 The quorum store's command loop: it turns the wrapper's commands into
 fragments broadcast to the other validators, numbering the fragments of
 a batch from 0, and it shuts its helper tasks down in a fixed order.

 Channel sends are recorded as `Output`s. The batch aggregator, which
 accumulates a batch's transactions and computes its digest, is not part
 of this model: its answers are given by an `Aggregator` parameter.
 */
module QuorumStore {
  import opened Types

  type BatchId = u64

  /** A transaction in serialized form; its bytes are opaque here. */
  datatype SerializedTransaction = SerializedTransaction(bytes: seq<byte>)

  /** Expiration of a batch, in (epoch, round). */
  datatype LogicalTime = LogicalTime(epoch: u64, round: u64)

  type Digest = nat

  /** Identity of the channel on which a proof of store is returned. */
  type ProofReturnChannel = nat

  /** Identity of the channel on which a shutdown is acknowledged. */
  type AckChannel = nat

  datatype Fragment = Fragment(
    epoch: u64,
    batchId: BatchId,
    fragmentId: nat,
    payload: seq<SerializedTransaction>,
    expiration: Option<LogicalTime>,
    source: PeerId)

  /** What the proof builder is asked to collect signatures on. */
  datatype SignedDigestInfo = SignedDigestInfo(digest: Digest, expiration: LogicalTime, numTxns: nat, numBytes: nat)

  datatype PersistRequest = PersistRequest(
    author: PeerId,
    payload: seq<SerializedTransaction>,
    digest: Digest,
    numBytes: nat,
    expiration: LogicalTime)

  /** `QuorumStoreCommand`. */
  datatype Command =
    | AppendToBatch(payload: seq<SerializedTransaction>, batchId: BatchId)
    | EndBatch(payload: seq<SerializedTransaction>, batchId: BatchId, expiration: LogicalTime, proofTx: ProofReturnChannel)
    | Shutdown(ack: AckChannel)

  /** Everything the loop sends, in order. */
  datatype Output =
    | Broadcast(fragment: Fragment)                                   // to every other validator
    | InitProof(info: SignedDigestInfo, batchId: BatchId, proofTx: ProofReturnChannel)  // to the proof builder
    | Persist(request: PersistRequest)                                // to the batch store
    | StopBatchStore
    | StopProofBuilder
    | StopNetworkListener(index: nat)
    | AckShutdown(ack: AckChannel)

  /** The aggregator's finished batch: size in bytes, all transactions of
      the batch, and its digest. */
  datatype Aggregated = Aggregated(numBytes: nat, payload: seq<SerializedTransaction>, digest: Digest)

  /** Answers of the batch aggregator for a batch id, fragment id and
      fragment payload: whether an append is accepted, and the finished
      batch for an end. A refusal is unreachable in the source and panics. */
  datatype Aggregator = Aggregator(
    append: (BatchId, nat, seq<SerializedTransaction>) -> bool,
    end: (BatchId, nat, seq<SerializedTransaction>) -> Option<Aggregated>)

  /** The loop's own state. `listeners` is the number of network listener
      channels it must shut down; `running` turns false on shutdown. */
  datatype QuorumStore = QuorumStore(epoch: u64, myPeerId: PeerId, fragmentId: nat, listeners: nat, running: bool)

  /** `QuorumStore::new`. */
  function New(epoch: u64, myPeerId: PeerId, listeners: nat): (qs: QuorumStore)
    ensures qs.fragmentId == 0 && qs.running
    ensures qs.epoch == epoch && qs.myPeerId == myPeerId && qs.listeners == listeners
  {
    QuorumStore(epoch, myPeerId, 0, listeners, true)
  }

  /** `handle_append_to_batch`: the fragment to broadcast for an append. */
  function HandleAppendToBatch(qs: QuorumStore, payload: seq<SerializedTransaction>, batchId: BatchId, agg: Aggregator): (r: Result<Fragment>)
    ensures r.Ok? <==> agg.append(batchId, qs.fragmentId, payload)
    ensures r.Err? ==> r.failure.Panic?
    ensures r.Ok? ==> r.value == Fragment(qs.epoch, batchId, qs.fragmentId, payload, None, qs.myPeerId)
  {
    if agg.append(batchId, qs.fragmentId, payload) then
      Ok(Fragment(qs.epoch, batchId, qs.fragmentId, payload, None, qs.myPeerId))
    else
      Err(Panic("[QuorumStore] Aggregation failed for own fragments"))
  }

  /** `handle_end_batch`: the closing fragment carries the expiration; the
      proof builder is asked to certify the whole batch, and the batch store
      is handed the batch to persist. Returns the proof-builder message,
      the persist request and the fragment. */
  function HandleEndBatch(qs: QuorumStore, payload: seq<SerializedTransaction>, batchId: BatchId,
                          expiration: LogicalTime, proofTx: ProofReturnChannel, agg: Aggregator): (r: Result<(Output, Output, Fragment)>)
    ensures r.Ok? <==> agg.end(batchId, qs.fragmentId, payload).Some?
    ensures r.Err? ==> r.failure.Panic?
    ensures r.Ok? ==>
      var batch := agg.end(batchId, qs.fragmentId, payload).value;
      && r.value.2 == Fragment(qs.epoch, batchId, qs.fragmentId, payload, Some(expiration), qs.myPeerId)
      && r.value.0 == InitProof(SignedDigestInfo(batch.digest, expiration, |batch.payload|, batch.numBytes), batchId, proofTx)
      && r.value.1 == Persist(PersistRequest(qs.myPeerId, batch.payload, batch.digest, batch.numBytes, expiration))
  {
    match agg.end(batchId, qs.fragmentId, payload)
    case None => Err(Panic("[QuorumStore] Aggregation failed for own fragments"))
    case Some(batch) =>
      var fragment := Fragment(qs.epoch, batchId, qs.fragmentId, payload, Some(expiration), qs.myPeerId);
      var init := InitProof(SignedDigestInfo(batch.digest, expiration, |batch.payload|, batch.numBytes), fragment.batchId, proofTx);
      var persist := Persist(PersistRequest(qs.myPeerId, batch.payload, batch.digest, batch.numBytes, expiration));
      Ok((init, persist, fragment))
  }

  /** The shutdown sequence: batch store, proof builder, each network
      listener in order, then the acknowledgement. */
  function ShutdownOutputs(listeners: nat, ack: AckChannel): (out: seq<Output>)
    ensures |out| == listeners + 3
    ensures out[0] == StopBatchStore && out[1] == StopProofBuilder
    ensures forall i :: 0 <= i < listeners ==> out[i + 2] == StopNetworkListener(i)
    ensures out[|out| - 1] == AckShutdown(ack)
  {
    [StopBatchStore, StopProofBuilder]
      + seq(listeners, i requires 0 <= i < listeners => StopNetworkListener(i))
      + [AckShutdown(ack)]
  }

  /** One iteration of the command loop. */
  function Step(qs: QuorumStore, cmd: Command, agg: Aggregator): (r: Result<(QuorumStore, seq<Output>)>)
    ensures r.Ok? ==> r.value.0.epoch == qs.epoch && r.value.0.myPeerId == qs.myPeerId
                      && r.value.0.listeners == qs.listeners
    ensures cmd.AppendToBatch? && r.Ok? ==>
      && r.value.0 == qs.(fragmentId := qs.fragmentId + 1)
      && r.value.1 == [Broadcast(Fragment(qs.epoch, cmd.batchId, qs.fragmentId, cmd.payload, None, qs.myPeerId))]
    ensures cmd.EndBatch? && r.Ok? ==>
      && r.value.0 == qs.(fragmentId := 0)
      && |r.value.1| == 3 && r.value.1[0].InitProof? && r.value.1[2].Persist?
      && r.value.1[1] == Broadcast(Fragment(qs.epoch, cmd.batchId, qs.fragmentId, cmd.payload, Some(cmd.expiration), qs.myPeerId))
    ensures cmd.Shutdown? ==>
      r == Ok((qs.(running := false), ShutdownOutputs(qs.listeners, cmd.ack)))
    ensures r.Err? ==> r.failure.Panic? && !cmd.Shutdown?
    // a command fails only when the aggregator refuses it
    ensures cmd.AppendToBatch? ==> (r.Ok? <==> agg.append(cmd.batchId, qs.fragmentId, cmd.payload))
    ensures cmd.EndBatch? ==> (r.Ok? <==> agg.end(cmd.batchId, qs.fragmentId, cmd.payload).Some?)
  {
    match cmd
    case Shutdown(ack) =>
      Ok((qs.(running := false), ShutdownOutputs(qs.listeners, ack)))
    case AppendToBatch(payload, batchId) =>
      var fragment :- HandleAppendToBatch(qs, payload, batchId, agg);
      Ok((qs.(fragmentId := qs.fragmentId + 1), [Broadcast(fragment)]))
    case EndBatch(payload, batchId, expiration, proofTx) =>
      var ended :- HandleEndBatch(qs, payload, batchId, expiration, proofTx, agg);
      Ok((qs.(fragmentId := 0), [ended.0, Broadcast(ended.2), ended.1]))
  }

  datatype Outcome = Outcome(final: QuorumStore, outputs: seq<Output>)

  /** `QuorumStore::start`: take commands in order until a shutdown; a
      panic while handling a command ends the spawned loop. */
  function Run(qs: QuorumStore, cmds: seq<Command>, agg: Aggregator): (r: Result<Outcome>)
    ensures r.Ok? ==> r.value.final.epoch == qs.epoch && r.value.final.myPeerId == qs.myPeerId
    ensures !qs.running ==> r == Ok(Outcome(qs, []))
    decreases |cmds|
  {
    if |cmds| == 0 || !qs.running then Ok(Outcome(qs, []))
    else
      var step :- Step(qs, cmds[0], agg);
      var rest :- Run(step.0, cmds[1..], agg);
      Ok(Outcome(rest.final, step.1 + rest.outputs))
  }

  // ---------------------------------------------------------------------
  // Reference definitions over a command history
  // ---------------------------------------------------------------------

  function CountAppends(cmds: seq<Command>): (n: nat)
    ensures n <= |cmds|
  {
    if |cmds| == 0 then 0
    else (if cmds[0].AppendToBatch? then 1 else 0) + CountAppends(cmds[1..])
  }

  predicate NoShutdown(cmds: seq<Command>) {
    forall i :: 0 <= i < |cmds| ==> !cmds[i].Shutdown?
  }

  predicate NoEndBatch(cmds: seq<Command>) {
    forall i :: 0 <= i < |cmds| ==> !cmds[i].EndBatch?
  }

  /** Index of the last `EndBatch` in `cmds`, if there is one. */
  function LastEndBatch(cmds: seq<Command>): (r: Option<nat>)
    ensures r.None? <==> NoEndBatch(cmds)
    ensures r.Some? ==> r.value < |cmds| && cmds[r.value].EndBatch? && NoEndBatch(cmds[r.value + 1..])
  {
    if |cmds| == 0 then None
    else
      var rest := LastEndBatch(cmds[1..]);
      assert forall i :: 1 <= i < |cmds| ==> cmds[i] == cmds[1..][i - 1];
      match rest
      case Some(k) =>
        assert cmds[k + 2..] == cmds[1..][k + 1..];
        Some(k + 1)
      case None => if cmds[0].EndBatch? then Some(0) else None
  }

  /** The fragment id a store that started at `start` holds after `cmds`:
      the number of appends since the last end of batch. */
  function ExpectedFragmentId(start: nat, cmds: seq<Command>): nat {
    match LastEndBatch(cmds)
    case None => start + CountAppends(cmds)
    case Some(k) => CountAppends(cmds[k + 1..])
  }

  /** The fragment ids of the broadcast fragments, in sending order. */
  function BroadcastIds(outputs: seq<Output>): seq<nat> {
    if |outputs| == 0 then []
    else (if outputs[0].Broadcast? then [outputs[0].fragment.fragmentId] else []) + BroadcastIds(outputs[1..])
  }

  // ---------------------------------------------------------------------
  // Properties of the loop
  // ---------------------------------------------------------------------

  /** With no shutdown among them, commands that the aggregator accepts
      leave the fragment id at the number of appends since the last end of
      batch (or since the start). */
  lemma {:induction false} RunFragmentId(qs: QuorumStore, cmds: seq<Command>, agg: Aggregator)
    requires qs.running && NoShutdown(cmds) && Run(qs, cmds, agg).Ok?
    ensures Run(qs, cmds, agg).value.final.fragmentId == ExpectedFragmentId(qs.fragmentId, cmds)
    ensures Run(qs, cmds, agg).value.final.running
    decreases |cmds|
  {
    if |cmds| > 0 {
      var step := Step(qs, cmds[0], agg).value;
      var rest := cmds[1..];
      assert cmds == [cmds[0]] + rest;
      assert NoShutdown(rest) by {
        forall i | 0 <= i < |rest| ensures !rest[i].Shutdown? {
          assert rest[i] == cmds[i + 1];
        }
      }
      RunFragmentId(step.0, rest, agg);
      match LastEndBatch(rest)
      case Some(k) =>
        assert cmds[k + 2..] == rest[k + 1..];
      case None =>
        if cmds[0].EndBatch? {
          assert cmds[1..] == rest;
        }
    }
  }

  lemma {:induction false} BroadcastIdsAppend(a: seq<Output>, b: seq<Output>)
    ensures BroadcastIds(a + b) == BroadcastIds(a) + BroadcastIds(b)
    decreases |a|
  {
    if |a| > 0 {
      assert (a + b)[1..] == a[1..] + b;
      BroadcastIdsAppend(a[1..], b);
    } else {
      assert a + b == b;
    }
  }

  /** A run of appends broadcasts fragments numbered consecutively from
      the store's current fragment id. */
  lemma {:induction false} AppendsNumberedConsecutively(qs: QuorumStore, cmds: seq<Command>, agg: Aggregator)
    requires qs.running && Run(qs, cmds, agg).Ok?
    requires forall i :: 0 <= i < |cmds| ==> cmds[i].AppendToBatch?
    ensures BroadcastIds(Run(qs, cmds, agg).value.outputs) == seq(|cmds|, i => qs.fragmentId + i)
    ensures Run(qs, cmds, agg).value.final == qs.(fragmentId := qs.fragmentId + |cmds|)
    decreases |cmds|
  {
    if |cmds| > 0 {
      var step := Step(qs, cmds[0], agg).value;
      var rest := Run(step.0, cmds[1..], agg).value;
      AppendsNumberedConsecutively(step.0, cmds[1..], agg);
      BroadcastIdsAppend(step.1, rest.outputs);
      assert BroadcastIds(step.1) == [qs.fragmentId];
    }
  }

  /** Running `a` then `b` is running `a ++ b`, as long as `a` did not shut
      the store down. */
  lemma {:induction false} RunConcat(qs: QuorumStore, a: seq<Command>, b: seq<Command>, agg: Aggregator)
    requires Run(qs, a, agg).Ok? && Run(qs, a, agg).value.final.running
    ensures Run(qs, a + b, agg) == Chain(Run(qs, a, agg).value, b, agg)
    decreases |a|
  {
    if |a| == 0 {
      RunConcatNil(qs, a, b, agg);
    } else {
      assert qs.running && Step(qs, a[0], agg).Ok?;
      var step := Step(qs, a[0], agg).value;
      RunConcat(step.0, a[1..], b, agg);
      RunConcatCons(qs, a, b, agg);
    }
  }

  /** Continue an outcome with the run of `b` from its final state. */
  function Chain(o: Outcome, b: seq<Command>, agg: Aggregator): Result<Outcome> {
    match Run(o.final, b, agg)
    case Ok(rest) => Ok(Outcome(rest.final, o.outputs + rest.outputs))
    case Err(f) => Err(f)
  }

  lemma RunConcatNil(qs: QuorumStore, a: seq<Command>, b: seq<Command>, agg: Aggregator)
    requires |a| == 0 && qs.running
    ensures Run(qs, a, agg) == Ok(Outcome(qs, []))
    ensures Run(qs, a + b, agg) == Chain(Outcome(qs, []), b, agg)
  {
    assert a + b == b;
    match Run(qs, b, agg)
    case Ok(o) => assert [] + o.outputs == o.outputs;
    case Err(_) =>
  }

  /** Put `out` in front of a run's outputs. */
  function Prepend(out: seq<Output>, r: Result<Outcome>): Result<Outcome> {
    match r
    case Ok(o) => Ok(Outcome(o.final, out + o.outputs))
    case Err(f) => Err(f)
  }

  /** One turn of the loop: a running store that handles the first command
      goes on with the rest. */
  lemma RunCons(qs: QuorumStore, cmds: seq<Command>, agg: Aggregator)
    requires |cmds| > 0 && qs.running && Step(qs, cmds[0], agg).Ok?
    ensures Run(qs, cmds, agg)
         == Prepend(Step(qs, cmds[0], agg).value.1, Run(Step(qs, cmds[0], agg).value.0, cmds[1..], agg))
  {
  }

  lemma PrependChain(out: seq<Output>, o: Outcome, b: seq<Command>, agg: Aggregator)
    ensures Prepend(out, Chain(o, b, agg)) == Chain(Outcome(o.final, out + o.outputs), b, agg)
  {
    match Run(o.final, b, agg)
    case Ok(rest) => assert out + (o.outputs + rest.outputs) == (out + o.outputs) + rest.outputs;
    case Err(_) =>
  }

  /** The inductive step of `RunConcat`: one command in front of `a`. */
  lemma RunConcatCons(qs: QuorumStore, a: seq<Command>, b: seq<Command>, agg: Aggregator)
    requires |a| > 0 && qs.running && Step(qs, a[0], agg).Ok?
    requires Run(Step(qs, a[0], agg).value.0, a[1..], agg).Ok?
    requires var s := Step(qs, a[0], agg).value;
      Run(s.0, a[1..] + b, agg) == Chain(Run(s.0, a[1..], agg).value, b, agg)
    ensures Run(qs, a, agg).Ok?
    ensures Run(qs, a + b, agg) == Chain(Run(qs, a, agg).value, b, agg)
  {
    var step := Step(qs, a[0], agg).value;
    var ra := Run(step.0, a[1..], agg).value;
    assert (a + b)[0] == a[0] && (a + b)[1..] == a[1..] + b;
    RunCons(qs, a + b, agg);
    RunCons(qs, a, agg);
    PrependChain(step.1, ra, b, agg);
  }

  /** The aggregator accepts every fragment, whatever its batch, id and
      payload. */
  ghost predicate AcceptsEverything(agg: Aggregator) {
    && (forall b, f, p :: agg.append(b, f, p))
    && (forall b, f, p :: agg.end(b, f, p).Some?)
  }

  /** The loop only stops early on a refused aggregation: with an
      aggregator that accepts every fragment, every command sequence runs
      to completion. */
  lemma {:induction false} RunSucceedsWhenAggregatorAccepts(qs: QuorumStore, cmds: seq<Command>, agg: Aggregator)
    requires AcceptsEverything(agg)
    ensures Run(qs, cmds, agg).Ok?
    decreases |cmds|
  {
    if |cmds| > 0 && qs.running {
      var cmd := cmds[0];
      match cmd {
        case AppendToBatch(p, b) => assert agg.append(b, qs.fragmentId, p);
        case EndBatch(p, b, _, _) => assert agg.end(b, qs.fragmentId, p).Some?;
        case Shutdown(_) =>
      }
      RunSucceedsWhenAggregatorAccepts(Step(qs, cmd, agg).value.0, cmds[1..], agg);
    }
  }

  /** A run that succeeds over `a ++ b`, where `a` holds no shutdown,
      succeeds over `a` and leaves the store running. */
  lemma {:induction false} RunPrefixOk(qs: QuorumStore, a: seq<Command>, b: seq<Command>, agg: Aggregator)
    requires qs.running && NoShutdown(a) && Run(qs, a + b, agg).Ok?
    ensures Run(qs, a, agg).Ok? && Run(qs, a, agg).value.final.running
    decreases |a|
  {
    if |a| > 0 {
      assert (a + b)[0] == a[0] && (a + b)[1..] == a[1..] + b;
      assert !a[0].Shutdown?;
      var step := Step(qs, a[0], agg).value;
      assert NoShutdown(a[1..]) by {
        forall i | 0 <= i < |a[1..]| ensures !a[1..][i].Shutdown? {
          assert a[1..][i] == a[i + 1];
        }
      }
      RunPrefixOk(step.0, a[1..], b, agg);
    }
  }

  /** The fragments of one batch, sent from a store at fragment id 0 (a
      fresh store, or one that just ended a batch), are numbered 0, 1, ...,
      k; the store is back at fragment id 0 afterwards. */
  lemma BatchFragmentsNumbered(qs: QuorumStore, appends: seq<Command>, end: Command, agg: Aggregator)
    requires qs.running && qs.fragmentId == 0
    requires forall i :: 0 <= i < |appends| ==> appends[i].AppendToBatch?
    requires end.EndBatch?
    requires Run(qs, appends + [end], agg).Ok?
    ensures BroadcastIds(Run(qs, appends + [end], agg).value.outputs) == seq(|appends| + 1, i => i)
    ensures Run(qs, appends + [end], agg).value.final.fragmentId == 0
  {
    RunPrefixOk(qs, appends, [end], agg);
    var ra := Run(qs, appends, agg).value;
    AppendsNumberedConsecutively(qs, appends, agg);
    RunConcat(qs, appends, [end], agg);
    assert Run(qs, appends + [end], agg) == Chain(ra, [end], agg);
    var mid := ra.final;
    assert Run(mid, [end], agg).Ok?;
    assert mid.fragmentId == |appends|;
    var o := Step(mid, end, agg).value.1;
    var last := Run(mid, [end], agg).value;
    assert last.outputs == o + [];
    assert o[1].fragment.fragmentId == |appends|;
    assert BroadcastIds(o[2..]) == [] by {
      assert o[2..][1..] == [];
    }
    assert BroadcastIds(o[1..]) == [|appends|] + BroadcastIds(o[1..][1..]);
    assert o[1..][1..] == o[2..];
    assert BroadcastIds(o) == [] + BroadcastIds(o[1..]);
    BroadcastIdsAppend(ra.outputs, last.outputs);
    assert last.outputs == o;
  }

  /** The loop stops at the first shutdown: whatever follows it is never
      processed, and the store ends stopped with the shutdown sequence as
      its last outputs. */
  lemma {:induction false} ShutdownEndsLoop(qs: QuorumStore, before: seq<Command>, ack: AckChannel, after: seq<Command>, agg: Aggregator)
    requires qs.running && NoShutdown(before)
    requires Run(qs, before, agg).Ok?
    ensures Run(qs, before + [Shutdown(ack)] + after, agg) == Run(qs, before + [Shutdown(ack)], agg)
    ensures var o := Run(qs, before + [Shutdown(ack)], agg);
      && o.Ok? && !o.value.final.running
      && o.value.outputs == Run(qs, before, agg).value.outputs + ShutdownOutputs(qs.listeners, ack)
  {
    RunFragmentId(qs, before, agg);
    var mid := Run(qs, before, agg).value;
    assert mid.final.listeners == qs.listeners by {
      ListenersPreserved(qs, before, agg);
    }
    RunConcat(qs, before, [Shutdown(ack)] + after, agg);
    RunConcat(qs, before, [Shutdown(ack)], agg);
    assert before + [Shutdown(ack)] + after == before + ([Shutdown(ack)] + after);
    var stopped := mid.final.(running := false);
    assert Run(mid.final, [Shutdown(ack)] + after, agg)
        == Ok(Outcome(stopped, ShutdownOutputs(qs.listeners, ack) + [])) by {
      assert ([Shutdown(ack)] + after)[1..] == after;
    }
    assert Run(mid.final, [Shutdown(ack)], agg)
        == Ok(Outcome(stopped, ShutdownOutputs(qs.listeners, ack) + []));
    assert ShutdownOutputs(qs.listeners, ack) + [] == ShutdownOutputs(qs.listeners, ack);
  }

  lemma {:induction false} ListenersPreserved(qs: QuorumStore, cmds: seq<Command>, agg: Aggregator)
    requires Run(qs, cmds, agg).Ok?
    ensures Run(qs, cmds, agg).value.final.listeners == qs.listeners
    decreases |cmds|
  {
    if |cmds| > 0 && qs.running {
      ListenersPreserved(Step(qs, cmds[0], agg).value.0, cmds[1..], agg);
    }
  }
}
