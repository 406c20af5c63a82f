/**
 The execution proxy's bookkeeping around a commit: which block ids go to
 the executor, which payloads and which (epoch, round) the data manager is
 told were committed, and what a state-sync target tells it.

 The executor, state sync and the data manager are outside this model;
 what is sent to them is recorded as `Effect`s, and what they answer is
 given as parameters.
 */
module StateComputer {
  import opened Types

  type HashValue = nat

  /** A block's payload; its transactions are opaque here. */
  datatype Payload = Payload(content: nat)

  /** A signed transaction as fetched by the data manager; opaque. */
  type SignedTransaction = nat

  datatype ExecutedBlock = ExecutedBlock(id: HashValue, epoch: u64, round: u64, payload: Option<Payload>)

  datatype LedgerInfo = LedgerInfo(epoch: u64, round: u64)

  /** `CommitType`: what the data manager is told was committed. */
  datatype CommitNotification = CommitNotification(epoch: u64, round: u64, payloads: seq<Payload>)

  /** Everything the proxy hands to the executor, state sync or the data
      manager, in order. */
  datatype Effect =
    | ExecutorCommit(blockIds: seq<HashValue>, finalityProof: LedgerInfo)
    // the committed blocks, the validator list used to derive their
    // transactions, and the data fetched for each block
    | NotifyStateSync(blocks: seq<ExecutedBlock>, validators: seq<PeerId>, data: seq<seq<SignedTransaction>>)
    | NotifyCommit(notification: CommitNotification)
    | ExecutorFinish
    | SyncToTarget(target: LedgerInfo)
    | ExecutorReset

  /** `ExecutionProxy`'s own state: the current validator list. */
  datatype Proxy = Proxy(validators: seq<PeerId>)

  /** The data manager's `get_data` for a block; `None` is an error. */
  type DataManager = ExecutedBlock -> Option<seq<SignedTransaction>>

  // ---------------------------------------------------------------------
  // Reference definitions over a list of blocks
  // ---------------------------------------------------------------------

  function Max(a: u64, b: u64): u64 {
    if a >= b then a else b
  }

  /** Largest epoch among `blocks`, folding from 0. */
  function MaxEpoch(blocks: seq<ExecutedBlock>): (e: u64)
    ensures forall i :: 0 <= i < |blocks| ==> blocks[i].epoch <= e
    ensures |blocks| > 0 ==> exists i :: 0 <= i < |blocks| && blocks[i].epoch == e
    ensures |blocks| == 0 ==> e == 0
  {
    if |blocks| == 0 then 0
    else Max(MaxEpoch(blocks[..|blocks| - 1]), blocks[|blocks| - 1].epoch)
  }

  /** Largest round among `blocks`, folding from 0. */
  function MaxRound(blocks: seq<ExecutedBlock>): (r: u64)
    ensures forall i :: 0 <= i < |blocks| ==> blocks[i].round <= r
    ensures |blocks| > 0 ==> exists i :: 0 <= i < |blocks| && blocks[i].round == r
    ensures |blocks| == 0 ==> r == 0
  {
    if |blocks| == 0 then 0
    else Max(MaxRound(blocks[..|blocks| - 1]), blocks[|blocks| - 1].round)
  }

  /** The payloads of the blocks that have one, in block order. */
  function PayloadsOf(blocks: seq<ExecutedBlock>): seq<Payload> {
    if |blocks| == 0 then []
    else PayloadsOf(blocks[..|blocks| - 1])
         + (if blocks[|blocks| - 1].payload.Some? then [blocks[|blocks| - 1].payload.value] else [])
  }

  function BlockIds(blocks: seq<ExecutedBlock>): (ids: seq<HashValue>)
    ensures |ids| == |blocks|
    ensures forall i :: 0 <= i < |blocks| ==> ids[i] == blocks[i].id
  {
    seq(|blocks|, i requires 0 <= i < |blocks| => blocks[i].id)
  }

  /** Some block's data cannot be fetched. */
  predicate MissingData(blocks: seq<ExecutedBlock>, getData: DataManager) {
    exists i :: 0 <= i < |blocks| && getData(blocks[i]).None?
  }

  /** The data fetched for every block, in block order. */
  function FetchedData(blocks: seq<ExecutedBlock>, getData: DataManager): (data: seq<seq<SignedTransaction>>)
    requires !MissingData(blocks, getData)
    ensures |data| == |blocks|
    ensures forall i :: 0 <= i < |blocks| ==> Some(data[i]) == getData(blocks[i])
  {
    seq(|blocks|, i requires 0 <= i < |blocks| => getData(blocks[i]).value)
  }

  /** The notification the data manager gets about committed blocks. */
  function CommitNotice(blocks: seq<ExecutedBlock>): Effect {
    NotifyCommit(CommitNotification(MaxEpoch(blocks), MaxRound(blocks), PayloadsOf(blocks)))
  }

  /** Reference definition of a commit's outcome, block list at a time.
      Fetching a block's data may fail, which ends the commit before
      anything is sent. Otherwise the executor commits the block ids in
      order, state sync is notified with each block's data, and, unless
      there were no blocks, the data manager is told the highest epoch and
      round and the payloads that were present. */
  function CommitSpec(proxy: Proxy, blocks: seq<ExecutedBlock>, finalityProof: LedgerInfo, getData: DataManager)
    : (r: Result<seq<Effect>>)
    ensures r.Err? <==> exists i :: 0 <= i < |blocks| && getData(blocks[i]).None?
    ensures r.Err? ==> r.failure.Bail?
    ensures r.Ok? ==> |r.value| == if |blocks| == 0 then 2 else 3
    ensures r.Ok? ==> r.value[0] == ExecutorCommit(BlockIds(blocks), finalityProof)
    ensures r.Ok? ==> (
      && r.value[1].NotifyStateSync? && r.value[1].blocks == blocks
      && r.value[1].validators == proxy.validators
      && |r.value[1].data| == |blocks|
      && forall i :: 0 <= i < |blocks| ==> Some(r.value[1].data[i]) == getData(blocks[i]))
    ensures r.Ok? && |blocks| > 0 ==>
      r.value[2] == NotifyCommit(CommitNotification(MaxEpoch(blocks), MaxRound(blocks), PayloadsOf(blocks)))
  {
    if MissingData(blocks, getData) then Err(Bail(DATA_ERROR))
    else
      var effects := [ExecutorCommit(BlockIds(blocks), finalityProof),
                      NotifyStateSync(blocks, proxy.validators, FetchedData(blocks, getData))];
      if |blocks| == 0 then Ok(effects) else Ok(effects + [CommitNotice(blocks)])
  }

  const DATA_ERROR: string := "failed to get data for block"

  // ---------------------------------------------------------------------
  // Operations
  // ---------------------------------------------------------------------

  /** What the commit loop accumulates over a prefix of the blocks. */
  datatype Summary = Summary(blockIds: seq<HashValue>, payloads: seq<Payload>, latestEpoch: u64, latestRound: u64)

  function Summarize(blocks: seq<ExecutedBlock>): Summary {
    Summary(BlockIds(blocks), PayloadsOf(blocks), MaxEpoch(blocks), MaxRound(blocks))
  }

  /** One turn of the commit loop. */
  function Absorb(acc: Summary, block: ExecutedBlock): Summary {
    Summary(acc.blockIds + [block.id],
            acc.payloads + (if block.payload.Some? then [block.payload.value] else []),
            Max(acc.latestEpoch, block.epoch),
            Max(acc.latestRound, block.round))
  }

  /** `ExecutionProxy::commit`: one pass over the blocks, accumulating
      the block ids, the fetched data, the payloads and the highest epoch
      and round, with the outcome `CommitSpec` describes. */
  method Commit(proxy: Proxy, blocks: seq<ExecutedBlock>, finalityProof: LedgerInfo, getData: DataManager)
    returns (r: Result<seq<Effect>>)
    ensures r == CommitSpec(proxy, blocks, finalityProof, getData)
    ensures r.Err? <==> MissingData(blocks, getData)
  {
    var acc := Summary([], [], 0, 0);
    var data: seq<seq<SignedTransaction>> := [];
    var skipClean := |blocks| == 0;
    var i := 0;
    while i < |blocks|
      invariant 0 <= i <= |blocks|
      invariant acc == Summarize(blocks[..i])
      invariant |data| == i
      invariant forall j :: 0 <= j < i ==> Some(data[j]) == getData(blocks[j])
    {
      var block := blocks[i];
      PrefixStep(blocks, i);
      acc := Absorb(acc, block);
      var fetched := getData(block);
      if fetched.None? {
        assert MissingData(blocks, getData);
        return Err(Bail(DATA_ERROR));
      }
      data := data + [fetched.value];
      i := i + 1;
    }
    assert blocks[..i] == blocks;
    assert !MissingData(blocks, getData);
    assert data == FetchedData(blocks, getData);
    var effects := [ExecutorCommit(acc.blockIds, finalityProof), NotifyStateSync(blocks, proxy.validators, data)];
    if skipClean {
      return Ok(effects);
    }
    return Ok(effects + [NotifyCommit(CommitNotification(acc.latestEpoch, acc.latestRound, acc.payloads))]);
  }

  /** How the summary grows by one block. */
  lemma PrefixStep(blocks: seq<ExecutedBlock>, i: nat)
    requires i < |blocks|
    ensures Summarize(blocks[..i + 1]) == Absorb(Summarize(blocks[..i]), blocks[i])
  {
    assert blocks[..i + 1][..i] == blocks[..i];
    assert BlockIds(blocks[..i + 1]) == BlockIds(blocks[..i]) + [blocks[i].id];
  }

  /** `sync_to`: the executor is finished, the data manager is told the
      target's epoch and round with no payloads, state sync runs, and the
      executor is reset. A failed reset wins over the sync's own result. */
  function SyncTo(target: LedgerInfo, syncResult: Result<()>, resetOk: bool): (r: (seq<Effect>, Result<()>))
    ensures r.0 == [ExecutorFinish, NotifyCommit(CommitNotification(target.epoch, target.round, [])),
                    SyncToTarget(target), ExecutorReset]
    ensures r.1.Ok? <==> resetOk && syncResult.Ok?
    ensures resetOk ==> r.1 == syncResult
  {
    var effects := [ExecutorFinish, NotifyCommit(CommitNotification(target.epoch, target.round, [])),
                    SyncToTarget(target), ExecutorReset];
    if !resetOk then (effects, Err(Bail("executor reset failed")))
    else (effects, syncResult)
  }

  /** `new_epoch`: the validator list becomes the new verifier's
      addresses, in the verifier's order. */
  function NewEpoch(proxy: Proxy, epochState: EpochState): (p: Proxy)
    ensures |p.validators| == epochState.verifier.Len()
    ensures forall i :: 0 <= i < |p.validators| ==>
      p.validators[i] == epochState.verifier.validators[i].address
  {
    Proxy(epochState.verifier.OrderedAddresses())
  }

  // ---------------------------------------------------------------------
  // Properties
  // ---------------------------------------------------------------------

  /** Collecting payloads distributes over concatenation, so the order of
      payloads is the order of the blocks. */
  lemma {:induction false} PayloadsOfConcat(a: seq<ExecutedBlock>, b: seq<ExecutedBlock>)
    ensures PayloadsOf(a + b) == PayloadsOf(a) + PayloadsOf(b)
    decreases |b|
  {
    if |b| == 0 {
      assert a + b == a;
    } else {
      var b' := b[..|b| - 1];
      assert (a + b)[..|a + b| - 1] == a + b';
      assert (a + b)[|a + b| - 1] == b[|b| - 1];
      PayloadsOfConcat(a, b');
    }
  }

  /** Exactly the payloads that are present are collected. */
  lemma {:induction false} PayloadsOfMembers(blocks: seq<ExecutedBlock>, p: Payload)
    ensures p in PayloadsOf(blocks) <==> exists i :: 0 <= i < |blocks| && blocks[i].payload == Some(p)
    decreases |blocks|
  {
    if |blocks| > 0 {
      var init := blocks[..|blocks| - 1];
      PayloadsOfMembers(init, p);
      assert forall i :: 0 <= i < |init| ==> init[i] == blocks[i];
      if p in PayloadsOf(blocks) && p !in PayloadsOf(init) {
        assert blocks[|blocks| - 1].payload == Some(p);
      }
    }
  }

  /** One payload is collected per block that has one. */
  lemma {:induction false} PayloadsOfCount(blocks: seq<ExecutedBlock>)
    ensures |PayloadsOf(blocks)| == |set i | 0 <= i < |blocks| && blocks[i].payload.Some?|
    decreases |blocks|
  {
    if |blocks| > 0 {
      var n := |blocks| - 1;
      var init := blocks[..n];
      PayloadsOfCount(init);
      var s := set i | 0 <= i < n && init[i].payload.Some?;
      var t := set i | 0 <= i < |blocks| && blocks[i].payload.Some?;
      assert forall i :: 0 <= i < n ==> init[i] == blocks[i];
      if blocks[n].payload.Some? {
        assert t == s + {n};
      } else {
        assert t == s;
      }
    }
  }

  /** When the committed blocks are in increasing round order, as a chain
      of ordered blocks is, the round the data manager is told is the round
      of the last block. */
  lemma LatestRoundOfOrderedChain(blocks: seq<ExecutedBlock>)
    requires |blocks| > 0
    requires forall i, j :: 0 <= i < j < |blocks| ==> blocks[i].round < blocks[j].round
    ensures MaxRound(blocks) == blocks[|blocks| - 1].round
  {
    var k :| 0 <= k < |blocks| && blocks[k].round == MaxRound(blocks);
    if k < |blocks| - 1 {
      assert blocks[k].round < blocks[|blocks| - 1].round;
    }
  }

  /** A commit of blocks that all lack a payload, ending at the target's
      epoch and round, tells the data manager exactly what a sync to that
      target tells it: the target's epoch and round and no payloads. */
  lemma CommitWithoutPayloadsMatchesSync(proxy: Proxy, blocks: seq<ExecutedBlock>, finalityProof: LedgerInfo,
                                         getData: DataManager, target: LedgerInfo, syncResult: Result<()>, resetOk: bool)
    requires !MissingData(blocks, getData) && |blocks| > 0
    requires forall i :: 0 <= i < |blocks| ==> blocks[i].payload.None?
    requires forall i :: 0 <= i < |blocks| ==> blocks[i].epoch <= target.epoch && blocks[i].round <= target.round
    requires blocks[|blocks| - 1].epoch == target.epoch && blocks[|blocks| - 1].round == target.round
    ensures CommitSpec(proxy, blocks, finalityProof, getData).Ok?
    ensures CommitSpec(proxy, blocks, finalityProof, getData).value[2] == SyncTo(target, syncResult, resetOk).0[1]
  {
    NoPayloadsCollected(blocks);
    var e := MaxEpoch(blocks);
    var r := MaxRound(blocks);
    assert e == target.epoch && r == target.round;
  }

  lemma {:induction false} NoPayloadsCollected(blocks: seq<ExecutedBlock>)
    requires forall i :: 0 <= i < |blocks| ==> blocks[i].payload.None?
    ensures PayloadsOf(blocks) == []
    decreases |blocks|
  {
    if |blocks| > 0 {
      NoPayloadsCollected(blocks[..|blocks| - 1]);
    }
  }
}
