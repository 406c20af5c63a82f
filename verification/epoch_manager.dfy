/**
 The epoch manager of the consensus component: it decides what to do with a
 network message given the local epoch, admits only the message kinds it
 knows, routes verified events to the per-epoch processors, and computes the
 few derived quantities it hands to them when an epoch starts.

 Network sends are recorded as `Effect`s rather than performed; the
 database, proof verification and signature checks are parameters.
 */
module EpochManager {
  import opened Types
  import StateComputer

  // ---------------------------------------------------------------------
  // Messages and events
  // ---------------------------------------------------------------------

  /** The nine consensus and quorum-store message kinds that convert into an
      `UnverifiedEvent` and, once verified, into a `VerifiedEvent`. */
  datatype EventKind =
    | Proposal | SyncInfo | Vote | CommitVote | CommitDecision
    | SignedDigest | Fragment | Batch | ProofOfStoreBroadcast

  /** What the manager needs of a message body: the epoch it claims, plus
      an opaque rest. */
  datatype Carried = Carried(epoch: u64, body: nat)

  datatype EpochRetrievalRequest = EpochRetrievalRequest(startEpoch: u64, endEpoch: u64)

  /** An epoch change proof: the epochs of its ledger infos, first first,
      and an opaque rest (the signatures). */
  datatype EpochChangeProof = EpochChangeProof(ledgerInfoEpochs: seq<u64>, signatures: nat) {

    /** The epoch of the first ledger info; an empty proof has none. */
    function Epoch(): (r: Result<u64>)
      ensures r.Ok? <==> |ledgerInfoEpochs| > 0
      ensures r.Ok? ==> r.value == ledgerInfoEpochs[0]
      ensures r.Err? ==> r.failure.Bail?
    {
      if |ledgerInfoEpochs| == 0 then Err(Bail("Empty EpochChangeProof"))
      else Ok(ledgerInfoEpochs[0])
    }
  }

  /** `ConsensusMsg`. `EventMsg(k, c)` stands for the variant of kind `k`
      (`ProposalMsg`, `SyncInfo`, `VoteMsg`, `CommitVoteMsg`,
      `CommitDecisionMsg`, `SignedDigestMsg`, `FragmentMsg`, `BatchMsg`,
      `ProofOfStoreBroadcastMsg`). */
  datatype ConsensusMsg =
    | EventMsg(kind: EventKind, payload: Carried)
    | EpochChangeProofMsg(proof: EpochChangeProof)
    | EpochRetrievalRequestMsg(request: EpochRetrievalRequest)
    | BlockRetrievalRequestMsg(body: nat)
    | BlockRetrievalResponseMsg(body: nat)

  datatype UnverifiedEvent = UnverifiedEvent(kind: EventKind, payload: Carried) {
    function Epoch(): u64 {
      payload.epoch
    }
  }

  datatype VerifiedEvent =
    | Verified(kind: EventKind, payload: Carried)
    | LocalTimeout(round: u64)
    | Shutdown

  /** What the manager asks the outside world to do. */
  datatype Effect =
    | Send(to: PeerId, msg: ConsensusMsg)
    | InitiateNewEpoch(proof: EpochChangeProof)

  /** The ledger's `get_epoch_ending_ledger_infos(start, end)`. */
  type Db = (u64, u64) -> Result<EpochChangeProof>

  // ---------------------------------------------------------------------
  // Manager state
  // ---------------------------------------------------------------------

  /** Number of validators served by one fragment worker
      (`num_nodes_per_worker_handles`). */
  const NUM_NODES_PER_WORKER_HANDLES: nat := 2

  /** Fragment workers before the first epoch starts. */
  const INITIAL_FRAGMENT_WORKERS: nat := 2

  /** The parts of `EpochManager` the decisions read. Each `...Started`
      flag says whether the corresponding sender is `Some`;
      `quorumStoreChannels` is the length of `quorum_store_msg_tx_vec`.
      `proxy` is the commit state computer the manager owns, and
      `dataManagerReader` the epoch of the quorum-store batch reader the
      data manager was last pointed at (`None` before any). */
  datatype Manager = Manager(
    author: PeerId,
    epochState: Option<EpochState>,
    numFragmentWorkers: nat,
    quorumStoreChannels: nat,
    wrapperStarted: bool,
    bufferManagerStarted: bool,
    roundManagerStarted: bool,
    blockRetrievalStarted: bool,
    proxy: StateComputer.Proxy,
    dataManagerReader: Option<u64>)
  {
    /** Messages are only handled once the first epoch has started;
        `epoch_state()` panics otherwise. */
    predicate Started() {
      epochState.Some?
    }

    function Epoch(): u64
      requires Started()
    {
      epochState.value.epoch
    }

    /** The local author holds voting power in the current epoch. */
    predicate IsValidator()
      requires Started()
    {
      epochState.value.verifier.VotingPower(author).Some?
    }
  }

  /** `EpochManager::new`: nothing started, two fragment workers, no
      quorum-store channels, and a state computer whose validator list is
      still empty (`ExecutionProxy::new`). */
  function New(author: PeerId): (m: Manager)
    ensures !m.Started() && m.author == author
    ensures m.numFragmentWorkers == INITIAL_FRAGMENT_WORKERS && m.quorumStoreChannels == 0
    ensures !m.wrapperStarted && !m.bufferManagerStarted
    ensures !m.roundManagerStarted && !m.blockRetrievalStarted
    ensures m.proxy.validators == [] && m.dataManagerReader.None?
  {
    Manager(author, None, INITIAL_FRAGMENT_WORKERS, 0, false, false, false, false,
            StateComputer.Proxy([]), None)
  }

  // ---------------------------------------------------------------------
  // Epoch checks
  // ---------------------------------------------------------------------

  /** `process_epoch_retrieval`: read the proof for the requested range
      and send it back to the requester. */
  function ProcessEpochRetrieval(request: EpochRetrievalRequest, peer: PeerId, db: Db): (r: Result<seq<Effect>>)
    ensures db(request.startEpoch, request.endEpoch).Err? ==> r.Err? && r.failure.Bail?
    ensures db(request.startEpoch, request.endEpoch).Ok? ==>
      r == Ok([Send(peer, EpochChangeProofMsg(db(request.startEpoch, request.endEpoch).value))])
  {
    match db(request.startEpoch, request.endEpoch)
    case Err(_) => Err(Bail("[EpochManager] Failed to get epoch proof"))
    case Ok(proof) => Ok([Send(peer, EpochChangeProofMsg(proof))])
  }

  /** `process_different_epoch`: a message from `peer` claims
      `differentEpoch`, which should differ from the local epoch. */
  function ProcessDifferentEpoch(m: Manager, differentEpoch: u64, peer: PeerId, db: Db): (r: Result<seq<Effect>>)
    requires m.Started()
    // the same epoch is a caller error
    ensures differentEpoch == m.Epoch() ==> r.Err? && r.failure.Bail?
    // a lower epoch is dropped silently by a validator ...
    ensures differentEpoch < m.Epoch() && m.IsValidator() ==> r == Ok([])
    // ... and otherwise answered with the proof from the peer's epoch to ours
    ensures differentEpoch < m.Epoch() && !m.IsValidator() ==>
      r == ProcessEpochRetrieval(EpochRetrievalRequest(differentEpoch, m.Epoch()), peer, db)
    // a higher epoch makes us ask that peer for the proof from our epoch to its
    ensures differentEpoch > m.Epoch() ==>
      r == Ok([Send(peer, EpochRetrievalRequestMsg(EpochRetrievalRequest(m.Epoch(), differentEpoch)))])
  {
    if differentEpoch < m.Epoch() then
      if m.IsValidator() then Ok([])
      else ProcessEpochRetrieval(EpochRetrievalRequest(differentEpoch, m.Epoch()), peer, db)
    else if differentEpoch > m.Epoch() then
      Ok([Send(peer, EpochRetrievalRequestMsg(EpochRetrievalRequest(m.Epoch(), differentEpoch)))])
    else
      Err(Bail("[EpochManager] Same epoch should not come to process_different_epoch"))
  }

  /** What `check_epoch` hands back: an event to verify and process, if
      any, and the effects it caused. */
  datatype Checked = Checked(event: Option<UnverifiedEvent>, effects: seq<Effect>)

  /** `check_epoch`: only events of the local epoch go on to verification;
      epoch change proofs and retrieval requests are handled here, and
      every other message is refused. */
  function CheckEpoch(m: Manager, peer: PeerId, msg: ConsensusMsg, db: Db): (r: Result<Checked>)
    requires m.Started()
    ensures r.Ok? && r.value.event.Some? ==>
      msg.EventMsg? && r.value.event.value == UnverifiedEvent(msg.kind, msg.payload)
      && msg.payload.epoch == m.Epoch() && r.value.effects == []
    ensures msg.EventMsg? && msg.payload.epoch == m.Epoch() ==>
      r == Ok(Checked(Some(UnverifiedEvent(msg.kind, msg.payload)), []))
    ensures msg.EventMsg? && msg.payload.epoch != m.Epoch() ==>
      match ProcessDifferentEpoch(m, msg.payload.epoch, peer, db)
      case Ok(effects) => r == Ok(Checked(None, effects))
      case Err(f) => r == Err(f)
    ensures msg.EpochChangeProofMsg? ==>
      if msg.proof.Epoch().Ok? && msg.proof.Epoch().value == m.Epoch()
      then r == Ok(Checked(None, [InitiateNewEpoch(msg.proof)]))
      else r.Err? && r.failure.Bail?
    ensures msg.EpochRetrievalRequestMsg? && msg.request.endEpoch > m.Epoch() ==>
      r.Err? && r.failure.Bail?
    ensures msg.EpochRetrievalRequestMsg? && msg.request.endEpoch <= m.Epoch() ==>
      match ProcessEpochRetrieval(msg.request, peer, db)
      case Ok(effects) => r == Ok(Checked(None, effects))
      case Err(f) => r == Err(f)
    ensures msg.BlockRetrievalRequestMsg? || msg.BlockRetrievalResponseMsg? ==>
      r.Err? && r.failure.Bail?
  {
    match msg
    case EventMsg(kind, payload) =>
      var event := UnverifiedEvent(kind, payload);
      if event.Epoch() == m.Epoch() then Ok(Checked(Some(event), []))
      else
        var effects :- ProcessDifferentEpoch(m, event.Epoch(), peer, db);
        Ok(Checked(None, effects))
    case EpochChangeProofMsg(proof) =>
      var msgEpoch :- proof.Epoch();
      if msgEpoch == m.Epoch() then Ok(Checked(None, [InitiateNewEpoch(proof)]))
      else Err(Bail("[EpochManager] Unexpected epoch proof"))
    case EpochRetrievalRequestMsg(request) =>
      if request.endEpoch <= m.Epoch() then
        var effects :- ProcessEpochRetrieval(request, peer, db);
        Ok(Checked(None, effects))
      else Err(Bail("[EpochManager] Received EpochRetrievalRequest beyond what we have locally"))
    case _ =>
      Err(Bail("[EpochManager] Unexpected messages"))
  }

  // ---------------------------------------------------------------------
  // Routing verified events
  // ---------------------------------------------------------------------

  /** Where `process_event` pushes a verified event. */
  datatype Route =
    | ToQuorumStoreWrapper
    | ToQuorumStoreChannel(index: nat)
    | ToBufferManager
    | ToRoundManager

  /** `peer_id.to_vec()[0] as usize % num_network_workers_for_fragment + 2`:
      the channel index for a fragment from `peer`. */
  function FragmentChannel(peer: PeerId, workers: nat): (idx: nat)
    requires workers > 0
    ensures 2 <= idx < workers + 2
    ensures idx - 2 == peer[0] % workers
  {
    peer[0] % workers + 2
  }

  /** Push onto `quorum_store_msg_tx_vec[idx]`, which panics when the
      vector is too short. */
  function QuorumStoreChannel(m: Manager, idx: nat): (r: Result<Route>)
    ensures r.Ok? <==> idx < m.quorumStoreChannels
    ensures r.Ok? ==> r.value == ToQuorumStoreChannel(idx)
    ensures r.Err? ==> r.failure.Panic?
  {
    if idx < m.quorumStoreChannels then Ok(ToQuorumStoreChannel(idx))
    else Err(Panic("index out of bounds"))
  }

  /** `process_event` together with `forward_to_round_manager`. */
  function ProcessEvent(m: Manager, peer: PeerId, event: VerifiedEvent): (r: Result<Route>)
    ensures event.Verified? && event.kind == Batch ==> r == QuorumStoreChannel(m, 0)
    ensures event.Verified? && event.kind == SignedDigest ==> r == QuorumStoreChannel(m, 1)
    ensures event.Verified? && event.kind == Fragment ==> r == ToFragmentWorker(m, peer)
    ensures event.Verified? && event.kind == ProofOfStoreBroadcast ==> r == ToWrapperOrBail(m)
    ensures event.Verified? && event.kind in {CommitVote, CommitDecision} ==> r == ToBufferManagerOrBail(m)
    ensures (event.Verified? && event.kind in {Proposal, SyncInfo, Vote}) || !event.Verified? ==>
      r == ToRoundManagerOrPanic(m)
  {
    match event
    case LocalTimeout(_) => ToRoundManagerOrPanic(m)
    case Shutdown => ToRoundManagerOrPanic(m)
    case Verified(kind, _) =>
      match kind
      case ProofOfStoreBroadcast => ToWrapperOrBail(m)
      case Batch => QuorumStoreChannel(m, 0)
      case SignedDigest => QuorumStoreChannel(m, 1)
      case Fragment => ToFragmentWorker(m, peer)
      case CommitVote => ToBufferManagerOrBail(m)
      case CommitDecision => ToBufferManagerOrBail(m)
      case Proposal => ToRoundManagerOrPanic(m)
      case SyncInfo => ToRoundManagerOrPanic(m)
      case Vote => ToRoundManagerOrPanic(m)
  }

  /** A fragment goes to the channel of the worker its sender's first
      address byte picks; the remainder by zero workers panics. */
  function ToFragmentWorker(m: Manager, peer: PeerId): (r: Result<Route>)
    ensures m.numFragmentWorkers == 0 ==> r.Err? && r.failure.Panic?
    ensures m.numFragmentWorkers > 0 ==> r == QuorumStoreChannel(m, FragmentChannel(peer, m.numFragmentWorkers))
  {
    if m.numFragmentWorkers == 0 then Err(Panic("attempt to calculate the remainder with a divisor of zero"))
    else QuorumStoreChannel(m, FragmentChannel(peer, m.numFragmentWorkers))
  }

  /** Proof-of-store broadcasts need the quorum-store wrapper's sender. */
  function ToWrapperOrBail(m: Manager): (r: Result<Route>)
    ensures r.Ok? <==> m.wrapperStarted
    ensures r.Ok? ==> r.value == ToQuorumStoreWrapper
    ensures r.Err? ==> r.failure.Bail?
  {
    if m.wrapperStarted then Ok(ToQuorumStoreWrapper)
    else Err(Bail("QuorumStore wrapper not started but received QuorumStore Message"))
  }

  /** `forward_to_round_manager`: the round manager's sender must exist. */
  function ToRoundManagerOrPanic(m: Manager): (r: Result<Route>)
    ensures r.Ok? <==> m.roundManagerStarted
    ensures r.Ok? ==> r.value == ToRoundManager
    ensures r.Err? ==> r.failure.Panic?
  {
    if m.roundManagerStarted then Ok(ToRoundManager) else Err(Panic("RoundManager not started"))
  }

  /** Commit votes and decisions need the buffer manager's sender. */
  function ToBufferManagerOrBail(m: Manager): (r: Result<Route>)
    ensures r.Ok? <==> m.bufferManagerStarted
    ensures r.Ok? ==> r.value == ToBufferManager
    ensures r.Err? ==> r.failure.Bail?
  {
    if m.bufferManagerStarted then Ok(ToBufferManager)
    else Err(Bail("Commit Phase not started but received Commit Message (CommitVote/CommitDecision)"))
  }

  /** The outcome of `process_message`: effects of the epoch check and the
      processor the event went to, if any. */
  datatype Processed = Processed(effects: seq<Effect>, route: Option<Route>)

  /** `process_message`: check the epoch, verify the event (the outcome of
      signature verification is `signatureValid`), then route it. */
  function ProcessMessage(m: Manager, peer: PeerId, msg: ConsensusMsg, db: Db, signatureValid: bool): (r: Result<Processed>)
    requires m.Started()
    // nothing from another epoch, and nothing unverified, reaches a processor
    ensures r.Ok? && r.value.route.Some? ==>
      msg.EventMsg? && msg.payload.epoch == m.Epoch() && signatureValid
      && Ok(r.value.route.value) == ProcessEvent(m, peer, Verified(msg.kind, msg.payload))
    ensures msg.EventMsg? && msg.payload.epoch == m.Epoch() && !signatureValid ==> r.Err? && r.failure.Bail?
    ensures msg.EventMsg? && msg.payload.epoch == m.Epoch() && signatureValid ==>
      match ProcessEvent(m, peer, Verified(msg.kind, msg.payload))
      case Ok(route) => r == Ok(Processed([], Some(route)))
      case Err(f) => r == Err(f)
    ensures !(msg.EventMsg? && msg.payload.epoch == m.Epoch()) ==>
      match CheckEpoch(m, peer, msg, db)
      case Ok(checked) => r == Ok(Processed(checked.effects, None))
      case Err(f) => r == Err(f)
  {
    var checked :- CheckEpoch(m, peer, msg, db);
    match checked.event
    case None => Ok(Processed(checked.effects, None))
    case Some(unverified) =>
      if !signatureValid then Err(Bail("[EpochManager] Verify event"))
      else
        var route :- ProcessEvent(m, peer, Verified(unverified.kind, unverified.payload));
        Ok(Processed(checked.effects, Some(route)))
  }

  /** `process_block_retrieval`: hand the request to the block retrieval
      task, or fail when none runs. */
  function ProcessBlockRetrieval(m: Manager): (r: Result<()>)
    ensures r.Ok? <==> m.blockRetrievalStarted
    ensures r.Err? ==> r.failure.Bail?
  {
    if m.blockRetrievalStarted then Ok(()) else Err(Bail("Round manager not started"))
  }

  /** `process_local_timeout`: a local timeout is forwarded to the round
      manager as an event from the local author. */
  function ProcessLocalTimeout(m: Manager, round: u64): (r: Result<Route>)
    ensures r.Ok? <==> m.roundManagerStarted
    ensures r.Ok? ==> r.value == ToRoundManager
    ensures r.Err? ==> r.failure.Panic?
  {
    ProcessEvent(m, m.author, LocalTimeout(round))
  }

  // ---------------------------------------------------------------------
  // Starting and stopping an epoch
  // ---------------------------------------------------------------------

  /** `num_network_workers_for_fragment` for an epoch with
      `numValidators` validators. */
  function FragmentWorkerCount(numValidators: nat): (n: nat)
    ensures n >= 1
    ensures numValidators >= NUM_NODES_PER_WORKER_HANDLES ==>
      n * NUM_NODES_PER_WORKER_HANDLES <= numValidators < (n + 1) * NUM_NODES_PER_WORKER_HANDLES
    ensures numValidators < NUM_NODES_PER_WORKER_HANDLES ==> n == 1
  {
    var q := numValidators / NUM_NODES_PER_WORKER_HANDLES;
    if q < 1 then 1 else q
  }

  /** `first_epoch_to_consider` for leader reputation: go back at most
      `historyCount` epochs, never before epoch 1 (genesis is epoch 0). */
  function FirstEpochToConsider(epoch: u64, historyCount: u64): (first: u64)
    ensures first >= 1
    ensures epoch > historyCount ==> first == epoch - historyCount
    ensures epoch <= historyCount ==> first == 1
    ensures first <= epoch || epoch == 0
    ensures epoch - first <= historyCount
  {
    var back := SaturatingSub(epoch, historyCount);
    if back < 1 then 1 else back
  }

  /** The range of epoch-ending ledger infos read to build the cross-epoch
      proposer history, if the history reaches beyond the current epoch.
      The first component is `first_epoch_to_consider - 1`, which never
      underflows. */
  function HistoryLedgerInfoRange(epoch: u64, historyCount: u64): (r: Option<(u64, u64)>)
    ensures r.Some? <==> epoch > FirstEpochToConsider(epoch, historyCount)
    ensures r.Some? ==> r.value.0 == FirstEpochToConsider(epoch, historyCount) - 1
    ensures r.Some? ==> r.value.0 < r.value.1 == epoch
    ensures r.Some? ==> r.value.1 - r.value.0 <= historyCount + 1
  {
    var first := FirstEpochToConsider(epoch, historyCount);
    if epoch > first then Some((first - 1, epoch)) else None
  }
  /** The range holds one ledger info per epoch considered before the
      current one, plus the one that ended the epoch before them, which is
      the count the source checks on the returned proof. Allowing a longer
      history never reads fewer epochs. */
  lemma HistoryRangeGrowsWithCount(epoch: u64, shorter: u64, longer: u64)
    requires shorter <= longer
    ensures var r := HistoryLedgerInfoRange(epoch, shorter);
      r.Some? ==> r.value.1 - r.value.0 == (if epoch > shorter then shorter + 1 else epoch)
    ensures var r, r' := HistoryLedgerInfoRange(epoch, shorter), HistoryLedgerInfoRange(epoch, longer);
      r.Some? ==> r'.Some? && r'.value.0 <= r.value.0 && r'.value.1 == r.value.1
  {
  }

  /** `last_committed_round` handed to the quorum store of a new epoch: the
      ledger's committed round if it was committed in this epoch, else 0.
      `QuorumStore::new` only hands it on to the batch reader it creates,
      which is not part of this model, so nothing in the model consumes the
      value. */
  function LastCommittedRound(ledgerCommitEpoch: u64, ledgerCommitRound: u64, epoch: u64): (r: u64)
    ensures ledgerCommitEpoch == epoch ==> r == ledgerCommitRound
    ensures ledgerCommitEpoch != epoch ==> r == 0
  {
    if ledgerCommitEpoch == epoch then ledgerCommitRound else 0
  }

  /** `start_round_manager`, run once the epoch state is installed. With
      the quorum store enabled, the worker count is recomputed,
      `num_network_workers_for_fragment + 2` channels are created, the data
      manager is pointed at the new epoch's batch reader and the wrapper
      started; otherwise all of these are left as they were. The state
      computer always takes the new validator list; the buffer manager runs
      only under decoupled execution. */
  function StartRoundManager(m: Manager, epochState: EpochState, useQuorumStore: bool, decoupledExecution: bool): (m': Manager)
    ensures m'.author == m.author && m'.epochState == m.epochState
    ensures m'.proxy == StateComputer.NewEpoch(m.proxy, epochState)
    ensures useQuorumStore ==>
      && m'.numFragmentWorkers == FragmentWorkerCount(epochState.verifier.Len())
      && m'.quorumStoreChannels == m'.numFragmentWorkers + 2
      && m'.dataManagerReader == Some(epochState.epoch)
      && m'.wrapperStarted
    ensures !useQuorumStore ==>
      && m'.numFragmentWorkers == m.numFragmentWorkers
      && m'.quorumStoreChannels == m.quorumStoreChannels
      && m'.dataManagerReader == m.dataManagerReader
      && m'.wrapperStarted == m.wrapperStarted
    ensures m'.bufferManagerStarted == (decoupledExecution || m.bufferManagerStarted)
    ensures m'.roundManagerStarted && m'.blockRetrievalStarted
  {
    var m1 :=
      if useQuorumStore then
        var n := FragmentWorkerCount(epochState.verifier.Len());
        m.(numFragmentWorkers := n, quorumStoreChannels := n + 2,
           dataManagerReader := Some(epochState.epoch), wrapperStarted := true)
      else m;
    var m2 := m1.(proxy := StateComputer.NewEpoch(m.proxy, epochState));
    var m3 := if decoupledExecution then m2.(bufferManagerStarted := true) else m2;
    m3.(roundManagerStarted := true, blockRetrievalStarted := true)
  }

  /** `start_recovery_manager`: only the recovery manager's channel, which
      takes the round manager's place, is opened. The epoch state it hands
      the recovery manager is the one already installed. */
  function StartRecoveryManager(m: Manager): (m': Manager)
    ensures m'.roundManagerStarted && m'.epochState == m.epochState
    // no quorum store, buffer manager or block retrieval is started ...
    ensures m'.wrapperStarted == m.wrapperStarted && m'.bufferManagerStarted == m.bufferManagerStarted
    ensures m'.blockRetrievalStarted == m.blockRetrievalStarted
    // ... the channel layout is left as it was ...
    ensures m'.author == m.author && m'.numFragmentWorkers == m.numFragmentWorkers
    ensures m'.quorumStoreChannels == m.quorumStoreChannels
    // ... and neither the state computer nor the data manager learns of the new epoch
    ensures m'.proxy == m.proxy && m'.dataManagerReader == m.dataManagerReader
  {
    m.(roundManagerStarted := true)
  }

  /** `shutdown_current_processor`: every per-epoch sender is dropped. The
      quorum-store channel vector and worker count are left as they are. */
  function ShutdownCurrentProcessor(m: Manager): (m': Manager)
    ensures !m'.roundManagerStarted && !m'.wrapperStarted
    ensures !m'.bufferManagerStarted && !m'.blockRetrievalStarted
    ensures m'.epochState == m.epochState && m'.author == m.author
    ensures m'.numFragmentWorkers == m.numFragmentWorkers
    ensures m'.quorumStoreChannels == m.quorumStoreChannels
    ensures m'.proxy == m.proxy && m'.dataManagerReader == m.dataManagerReader
  {
    m.(roundManagerStarted := false, wrapperStarted := false,
       bufferManagerStarted := false, blockRetrievalStarted := false)
  }

  /** The recovery data found in liveness storage when an epoch starts. */
  datatype LivenessStorageData = FullRecoveryData | PartialRecoveryData

  /** `start_new_epoch`: install the new epoch state, then start either the
      round manager or, with partial recovery data, the recovery manager. */
  function StartNewEpoch(m: Manager, epochState: EpochState, storage: LivenessStorageData,
                         useQuorumStore: bool, decoupledExecution: bool): (m': Manager)
    ensures m'.Started() && m'.Epoch() == epochState.epoch && m'.roundManagerStarted
    ensures storage.FullRecoveryData? ==>
      m' == StartRoundManager(m.(epochState := Some(epochState)), epochState, useQuorumStore, decoupledExecution)
    ensures storage.PartialRecoveryData? ==> m' == StartRecoveryManager(m.(epochState := Some(epochState)))
  {
    var installed := m.(epochState := Some(epochState));
    match storage
    case FullRecoveryData => StartRoundManager(installed, epochState, useQuorumStore, decoupledExecution)
    case PartialRecoveryData => StartRecoveryManager(installed)
  }

  /** Epoch-change proof verification against the current epoch state, a
      foreign call: the ledger info the proof ends at, or `None` when the
      proof does not verify. */
  type ProofVerifier = (EpochChangeProof, EpochState) -> Option<StateComputer.LedgerInfo>

  /** `initiate_new_epoch`, which `check_epoch` awaits on a proof of the
      current epoch. `verified` is the outcome of verifying the proof: the
      ledger info to sync to. Then shut the current processors down, sync
      the state computer to that ledger info (`syncResult` and `resetOk`
      are the outcomes of state sync and of the executor reset), and start
      the epoch announced by the next reconfiguration. Returns the new
      manager and the state computer's requests. */
  function ChangeEpoch(m: Manager, verified: Option<StateComputer.LedgerInfo>,
                       syncResult: Result<()>, resetOk: bool, reconfig: EpochState,
                       storage: LivenessStorageData, useQuorumStore: bool, decoupledExecution: bool)
    : (r: Result<(Manager, seq<StateComputer.Effect>)>)
    // an invalid proof is refused before anything is shut down
    ensures verified.None? ==> r.Err? && r.failure.Bail?
    // a failed sync panics: the processors are already gone
    ensures verified.Some? && StateComputer.SyncTo(verified.value, syncResult, resetOk).1.Err? ==>
      r.Err? && r.failure.Panic?
    ensures verified.Some? && StateComputer.SyncTo(verified.value, syncResult, resetOk).1.Ok? ==>
      && r.Ok?
      && r.value.1 == StateComputer.SyncTo(verified.value, syncResult, resetOk).0
      && r.value.0 == StartNewEpoch(ShutdownCurrentProcessor(m), reconfig, storage, useQuorumStore, decoupledExecution)
  {
    match verified
    case None => Err(Bail("[EpochManager] Invalid EpochChangeProof"))
    case Some(target) =>
      var stopped := ShutdownCurrentProcessor(m);
      var (requests, synced) := StateComputer.SyncTo(target, syncResult, resetOk);
      if synced.Err? then Err(Panic("Failed to sync to new epoch"))
      else Ok((StartNewEpoch(stopped, reconfig, storage, useQuorumStore, decoupledExecution), requests))
  }

  // ---------------------------------------------------------------------
  // Properties across operations
  // ---------------------------------------------------------------------

  /** The quorum-store channel vector matches the worker count: one channel
      for batches, one for signed digests, one per fragment worker. */
  predicate QuorumStoreReady(m: Manager) {
    m.numFragmentWorkers >= 1 && m.quorumStoreChannels == m.numFragmentWorkers + 2
  }

  /** Once the round manager is started with the quorum store enabled,
      routing a quorum-store event never indexes outside the channel
      vector, and fragments land on a fragment worker's channel. */
  lemma QuorumStoreRoutingInBounds(m: Manager, epochState: EpochState, decoupled: bool, peer: PeerId, payload: Carried)
    ensures var m' := StartRoundManager(m, epochState, true, decoupled);
      && QuorumStoreReady(m')
      && ProcessEvent(m', peer, Verified(Batch, payload)) == Ok(ToQuorumStoreChannel(0))
      && ProcessEvent(m', peer, Verified(SignedDigest, payload)) == Ok(ToQuorumStoreChannel(1))
      && ProcessEvent(m', peer, Verified(Fragment, payload)).Ok?
      && var idx := ProcessEvent(m', peer, Verified(Fragment, payload)).value.index;
         2 <= idx <= m'.numFragmentWorkers + 1 && idx < m'.quorumStoreChannels
  {
    var m' := StartRoundManager(m, epochState, true, decoupled);
    assert m'.numFragmentWorkers >= 1;
    var idx := FragmentChannel(peer, m'.numFragmentWorkers);
    assert QuorumStoreChannel(m', idx) == Ok(ToQuorumStoreChannel(idx));
  }

  /** Routing depends on the sender only for fragments, and then only
      through the first byte of its address. */
  lemma FragmentRoutingByFirstByte(m: Manager, p: PeerId, q: PeerId, payload: Carried)
    requires QuorumStoreReady(m) && p[0] == q[0]
    ensures ProcessEvent(m, p, Verified(Fragment, payload)) == ProcessEvent(m, q, Verified(Fragment, payload))
  {
  }

  /** A node behind a peer catches up: when it hears from a peer of a
      higher epoch it asks for the range from its own epoch to the peer's;
      the peer accepts that request, and when its ledger answers with the
      epoch-ending ledger infos from the start of the range, the proof it
      returns is one the lagging node acts on. */
  lemma LaggingNodeCatchesUp(behind: Manager, ahead: Manager, db: Db, msg: ConsensusMsg)
    requires behind.Started() && ahead.Started()
    requires behind.Epoch() < ahead.Epoch()
    requires msg.EventMsg? && msg.payload.epoch == ahead.Epoch()
    // the ahead node's ledger holds the epoch-ending ledger infos of the range
    requires forall s: u64, e: u64 :: s < e ==>
      db(s, e).Ok? && |db(s, e).value.ledgerInfoEpochs| > 0 && db(s, e).value.ledgerInfoEpochs[0] == s
    ensures var request := EpochRetrievalRequest(behind.Epoch(), ahead.Epoch());
      && CheckEpoch(behind, ahead.author, msg, db)
           == Ok(Checked(None, [Send(ahead.author, EpochRetrievalRequestMsg(request))]))
      && var served := CheckEpoch(ahead, behind.author, EpochRetrievalRequestMsg(request), db);
         && served.Ok? && |served.value.effects| == 1
         && var reply := served.value.effects[0];
            && reply.Send? && reply.to == behind.author && reply.msg.EpochChangeProofMsg?
            && CheckEpoch(behind, ahead.author, reply.msg, db)
                 == Ok(Checked(None, [InitiateNewEpoch(reply.msg.proof)]))
  {
    var request := EpochRetrievalRequest(behind.Epoch(), ahead.Epoch());
    assert ProcessDifferentEpoch(behind, msg.payload.epoch, ahead.author, db)
        == Ok([Send(ahead.author, EpochRetrievalRequestMsg(request))]);
    var proof := db(request.startEpoch, request.endEpoch).value;
    assert ProcessEpochRetrieval(request, behind.author, db) == Ok([Send(behind.author, EpochChangeProofMsg(proof))]);
    assert proof.Epoch() == Ok(behind.Epoch());
  }

  /** A non-validator that hears from a lower epoch replies with a proof
      for exactly the peer's missing range, which the peer then acts on. */
  lemma NonValidatorHelpsLowerEpoch(ahead: Manager, behind: Manager, db: Db, msg: ConsensusMsg)
    requires ahead.Started() && behind.Started() && !ahead.IsValidator()
    requires behind.Epoch() < ahead.Epoch()
    requires msg.EventMsg? && msg.payload.epoch == behind.Epoch()
    requires forall s: u64, e: u64 :: s < e ==>
      db(s, e).Ok? && |db(s, e).value.ledgerInfoEpochs| > 0 && db(s, e).value.ledgerInfoEpochs[0] == s
    ensures var r := CheckEpoch(ahead, behind.author, msg, db);
      && r.Ok? && r.value.event.None? && |r.value.effects| == 1
      && r.value.effects[0] == Send(behind.author, EpochChangeProofMsg(db(behind.Epoch(), ahead.Epoch()).value))
      && CheckEpoch(behind, ahead.author, r.value.effects[0].msg, db).Ok?
      && CheckEpoch(behind, ahead.author, r.value.effects[0].msg, db).value.effects
           == [InitiateNewEpoch(db(behind.Epoch(), ahead.Epoch()).value)]
  {
    var proof := db(behind.Epoch(), ahead.Epoch()).value;
    assert proof.Epoch() == Ok(behind.Epoch());
  }

  /** Before the first epoch starts no processor exists: every event is
      refused and so is every block retrieval request. */
  lemma NewManagerRoutesNothing(author: PeerId, peer: PeerId, event: VerifiedEvent)
    ensures ProcessEvent(New(author), peer, event).Err?
    ensures ProcessBlockRetrieval(New(author)).Err?
  {
    var m := New(author);
    assert m.quorumStoreChannels == 0;
    if event.Verified? && event.kind == Fragment {
      assert QuorumStoreChannel(m, FragmentChannel(peer, m.numFragmentWorkers)).Err?;
    }
  }

  /** The manager an accepted and synced epoch change leaves behind. */
  function AfterEpochChange(m: Manager, target: StateComputer.LedgerInfo, reconfig: EpochState,
                            storage: LivenessStorageData, useQuorumStore: bool, decoupled: bool): (m': Manager)
    ensures ChangeEpoch(m, Some(target), Ok(()), true, reconfig, storage, useQuorumStore, decoupled)
            == Ok((m', StateComputer.SyncTo(target, Ok(()), true).0))
  {
    StartNewEpoch(ShutdownCurrentProcessor(m), reconfig, storage, useQuorumStore, decoupled)
  }

  /** An accepted epoch change leaves a started manager in the announced
      epoch, whose round manager (or recovery manager) takes timeouts, and
      which no longer admits events of the epoch it left. */
  lemma EpochChangeMovesToNewEpoch(m: Manager, target: StateComputer.LedgerInfo, reconfig: EpochState,
                                   storage: LivenessStorageData, useQuorumStore: bool, decoupled: bool,
                                   peer: PeerId, kind: EventKind, payload: Carried, db: Db)
    requires m.Started() && reconfig.epoch != m.Epoch() && payload.epoch == m.Epoch()
    ensures var m' := AfterEpochChange(m, target, reconfig, storage, useQuorumStore, decoupled);
      && m'.Started() && m'.Epoch() == reconfig.epoch
      && ProcessLocalTimeout(m', 0) == Ok(ToRoundManager)
      && var c := CheckEpoch(m', peer, EventMsg(kind, payload), db); c.Err? || c.value.event.None?
  {
    var m' := AfterEpochChange(m, target, reconfig, storage, useQuorumStore, decoupled);
    assert m'.Epoch() != payload.epoch;
  }

  /** With full recovery data and the quorum store on, the new epoch's
      processors are all in place: the channel vector matches the worker
      count, block retrieval runs, and every event finds its processor
      (commit messages only under decoupled execution). */
  lemma FullRecoveryRoutesEverything(m: Manager, target: StateComputer.LedgerInfo, reconfig: EpochState,
                                     decoupled: bool, peer: PeerId, kind: EventKind, payload: Carried)
    ensures var m' := AfterEpochChange(m, target, reconfig, FullRecoveryData, true, decoupled);
      && QuorumStoreReady(m')
      && ProcessBlockRetrieval(m').Ok?
      && (kind !in {CommitVote, CommitDecision} || decoupled ==>
            ProcessEvent(m', peer, Verified(kind, payload)).Ok?)
  {
    var stopped := ShutdownCurrentProcessor(m);
    var m' := AfterEpochChange(m, target, reconfig, FullRecoveryData, true, decoupled);
    assert m' == StartRoundManager(stopped.(epochState := Some(reconfig)), reconfig, true, decoupled);
    assert m'.numFragmentWorkers >= 1;
    if kind == Fragment {
      var idx := FragmentChannel(peer, m'.numFragmentWorkers);
      assert QuorumStoreChannel(m', idx).Ok?;
    }
  }

  /** A manager whose quorum-store wrapper and buffer manager do not run
      refuses their messages with an error, not a panic. */
  lemma RefusesStoppedProcessors(m: Manager, peer: PeerId, kind: EventKind, payload: Carried)
    requires !m.wrapperStarted && !m.bufferManagerStarted
    ensures kind in {ProofOfStoreBroadcast, CommitVote, CommitDecision} ==>
      var e := ProcessEvent(m, peer, Verified(kind, payload)); e.Err? && e.failure.Bail?
  {
  }

  /** A manager whose round manager runs sends it the consensus messages. */
  lemma ConsensusToRoundManager(m: Manager, peer: PeerId, kind: EventKind, payload: Carried)
    requires m.roundManagerStarted
    ensures kind in {Proposal, SyncInfo, Vote} ==>
      ProcessEvent(m, peer, Verified(kind, payload)) == Ok(ToRoundManager)
  {
  }

  /** With partial recovery data only the recovery manager runs: the
      processors shut down with the old epoch stay down. */
  lemma PartialRecoveryStartsOnlyRecovery(m: Manager, target: StateComputer.LedgerInfo, reconfig: EpochState,
                                          useQuorumStore: bool, decoupled: bool)
    ensures var m' := AfterEpochChange(m, target, reconfig, PartialRecoveryData, useQuorumStore, decoupled);
      m'.roundManagerStarted && !m'.wrapperStarted && !m'.bufferManagerStarted && !m'.blockRetrievalStarted
  {
    var stopped := ShutdownCurrentProcessor(m);
    assert AfterEpochChange(m, target, reconfig, PartialRecoveryData, useQuorumStore, decoupled)
      == StartRecoveryManager(stopped.(epochState := Some(reconfig)));
  }

  /** So after an epoch change with partial recovery data, quorum-store
      wrapper and commit messages and block retrieval requests are refused,
      while consensus messages go to the recovery manager. */
  lemma PartialRecoveryRefusesOthers(m: Manager, target: StateComputer.LedgerInfo, reconfig: EpochState,
                                     useQuorumStore: bool, decoupled: bool,
                                     peer: PeerId, kind: EventKind, payload: Carried)
    ensures var m' := AfterEpochChange(m, target, reconfig, PartialRecoveryData, useQuorumStore, decoupled);
      && ProcessBlockRetrieval(m').Err?
      && (kind in {ProofOfStoreBroadcast, CommitVote, CommitDecision} ==>
            var e := ProcessEvent(m', peer, Verified(kind, payload)); e.Err? && e.failure.Bail?)
      && (kind in {Proposal, SyncInfo, Vote} ==>
            ProcessEvent(m', peer, Verified(kind, payload)) == Ok(ToRoundManager))
  {
    PartialRecoveryStartsOnlyRecovery(m, target, reconfig, useQuorumStore, decoupled);
    var m' := AfterEpochChange(m, target, reconfig, PartialRecoveryData, useQuorumStore, decoupled);
    RefusesStoppedProcessors(m', peer, kind, payload);
    ConsensusToRoundManager(m', peer, kind, payload);
  }

  /** A proof of the current epoch is not settled by the epoch check
      itself: `process_message` hands it to `initiate_new_epoch`, and the
      outcome follows the proof's verification against the current epoch
      state. An invalid proof is a `Bail` with nothing shut down, a valid
      one whose sync fails panics, and otherwise the manager moves to the
      announced epoch. */
  lemma SameEpochProofChangesEpoch(m: Manager, peer: PeerId, proof: EpochChangeProof, db: Db, signatureValid: bool,
                                   verify: ProofVerifier, syncResult: Result<()>, resetOk: bool,
                                   reconfig: EpochState, storage: LivenessStorageData,
                                   useQuorumStore: bool, decoupled: bool)
    requires m.Started() && proof.Epoch() == Ok(m.Epoch())
    ensures ProcessMessage(m, peer, EpochChangeProofMsg(proof), db, signatureValid)
            == Ok(Processed([InitiateNewEpoch(proof)], None))
    ensures var verified := verify(proof, m.epochState.value);
      var r := ChangeEpoch(m, verified, syncResult, resetOk, reconfig, storage, useQuorumStore, decoupled);
      && (verified.None? ==> r.Err? && r.failure.Bail?)
      && (verified.Some? && !(syncResult.Ok? && resetOk) ==> r.Err? && r.failure.Panic?)
      && (verified.Some? && syncResult.Ok? && resetOk ==>
            r == Ok((AfterEpochChange(m, verified.value, reconfig, storage, useQuorumStore, decoupled),
                     StateComputer.SyncTo(verified.value, syncResult, resetOk).0)))
  {
    var verified := verify(proof, m.epochState.value);
    if verified.Some? && syncResult.Ok? && resetOk {
      var u: () := syncResult.value;
      assert u == ();
      assert syncResult == Ok(());
    }
  }

  /** The state computer learns the new validator list only when the round
      manager starts. After an epoch change with full recovery data, every
      commit hands state sync the new epoch's validators in order, and with
      the quorum store on the data manager reads the new epoch's batches. */
  lemma FullRecoveryCommitsWithNewValidators(m: Manager, target: StateComputer.LedgerInfo, reconfig: EpochState,
                                             useQuorumStore: bool, decoupled: bool,
                                             blocks: seq<StateComputer.ExecutedBlock>,
                                             finalityProof: StateComputer.LedgerInfo,
                                             getData: StateComputer.DataManager)
    ensures var m' := AfterEpochChange(m, target, reconfig, FullRecoveryData, useQuorumStore, decoupled);
      && (useQuorumStore ==> m'.dataManagerReader == Some(reconfig.epoch))
      && var c := StateComputer.CommitSpec(m'.proxy, blocks, finalityProof, getData);
         c.Ok? ==> c.value[1].validators == reconfig.verifier.OrderedAddresses()
  {
    var stopped := ShutdownCurrentProcessor(m);
    var m' := AfterEpochChange(m, target, reconfig, FullRecoveryData, useQuorumStore, decoupled);
    assert m' == StartRoundManager(stopped.(epochState := Some(reconfig)), reconfig, useQuorumStore, decoupled);
    assert m'.proxy.validators == reconfig.verifier.OrderedAddresses();
  }

  /** With partial recovery data neither `new_epoch` runs: the state
      computer keeps the validator list of the epoch it left, and commits
      hand state sync that list. */
  lemma PartialRecoveryKeepsValidators(m: Manager, target: StateComputer.LedgerInfo, reconfig: EpochState,
                                       useQuorumStore: bool, decoupled: bool,
                                       blocks: seq<StateComputer.ExecutedBlock>,
                                       finalityProof: StateComputer.LedgerInfo,
                                       getData: StateComputer.DataManager)
    ensures var m' := AfterEpochChange(m, target, reconfig, PartialRecoveryData, useQuorumStore, decoupled);
      && m'.proxy == m.proxy && m'.dataManagerReader == m.dataManagerReader
      && var c := StateComputer.CommitSpec(m'.proxy, blocks, finalityProof, getData);
         c.Ok? ==> c.value[1].validators == m.proxy.validators
  {
    var stopped := ShutdownCurrentProcessor(m);
    assert AfterEpochChange(m, target, reconfig, PartialRecoveryData, useQuorumStore, decoupled)
      == StartRecoveryManager(stopped.(epochState := Some(reconfig)));
  }

  /** A validator answers nothing to a lower epoch, whatever the message. */
  lemma ValidatorIgnoresLowerEpoch(m: Manager, peer: PeerId, msg: ConsensusMsg, db: Db, valid: bool)
    requires m.Started() && m.IsValidator()
    requires msg.EventMsg? && msg.payload.epoch < m.Epoch()
    ensures ProcessMessage(m, peer, msg, db, valid) == Ok(Processed([], None))
  {
  }
}
