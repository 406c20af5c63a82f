# Epoch-aware consensus dispatch, quorum-store batching, commit and telemetry labels

This project models the logic at the core of an Aptos validator's consensus
process and of its telemetry service, as pure Dafny functions, and proves
what that logic promises.

The modules are:

- `Types`: shared vocabulary. This covers 64-bit integers, 32-byte account
  addresses, validator sets, epoch state, and a `Result` type that keeps
  two kinds of failure apart. `Bail` is an `anyhow` error handed back to
  the caller. `Panic` means the running tokio task dies.
- `EpochManager`: what the epoch manager does with each network message.
  - `check_epoch` lets only current-epoch events through. It answers peers
    from other epochs with epoch-change proofs or retrieval requests, and
    refuses everything else.
  - `process_event` routes each verified event to the quorum-store wrapper,
    one of the quorum-store channels, the buffer manager or the round
    manager. Fragments are spread over
    `num_network_workers_for_fragment` channels by the sender's first
    address byte.
  - Starting and shutting down an epoch's processors is modelled as the
    state they leave behind. A new epoch is entered by verifying the
    epoch-change proof, shutting the processors down, syncing the state
    computer to the proof's ledger info, then starting the announced epoch.
- `QuorumStore`: the quorum store's command loop as a state machine over
  `fragment_id`.
  - `AppendToBatch` broadcasts a fragment numbered with the current id,
    then increments the id.
  - `EndBatch` broadcasts the closing fragment and asks for a proof and
    for the batch to be persisted, then resets the id to 0.
  - `Shutdown` stops the batch store, the proof builder and every network
    listener, acknowledges, and ends the loop.
- `StateComputer`: `ExecutionProxy::commit`, `sync_to` and `new_epoch`.
  Each produces the ordered list of requests it makes to the executor,
  state sync and the data manager.
- `TextFormat`: decimal and short hexadecimal (`0x…`) rendering, each with
  a parser that inverts it.
- `PrometheusPushMetrics`: the extra labels the telemetry service attaches
  to a node's pushed metrics, and the ingest handler that fans the push
  out to every metrics backend. The handler refuses the push only when
  every backend failed, and panics when a backend answers with a status
  that is neither a success nor an error status.

Some calls go to components whose code is not part of this model: the
ledger database, signature and epoch-change proof verification, the batch
aggregator, the data manager, the metrics backends and the outcome of state
sync. Each of these is a parameter, so every property holds for any
behaviour of those components that the parameter's type can express. The
batch aggregator is the exception: it keeps state between calls, while the
model's aggregator answers each call from that call's arguments alone (see
"Left out"). Effects such as network sends, channel pushes, executor calls
and HTTP posts are returned as values rather than performed.

## Model

| member | source | states |
|---|---|---|
| EpochManager.New | consensus/src/epoch_manager.rs:147-188 | a fresh epoch manager has no epoch state, two fragment workers, no quorum-store channels, no processor running and a state computer with an empty validator list |
| EpochManager.ProcessEpochRetrieval | consensus/src/epoch_manager.rs:341-363 | the proof the ledger returns for the requested range is sent back to the requester; a ledger error is returned as an error |
| EpochManager.ProcessDifferentEpoch | consensus/src/epoch_manager.rs:365-422 | a lower epoch is ignored by a validator and answered with the proof from that epoch to ours by a non-validator; a higher epoch triggers a retrieval request from our epoch to the peer's; the same epoch is an error |
| EpochManager.CheckEpoch | consensus/src/epoch_manager.rs:1007-1065 | only an event of the local epoch is passed on for verification, unchanged and with no side effect; an epoch-change proof starting at our epoch is handed on as an `InitiateNewEpoch` effect and any other proof is an error; a retrieval request beyond our epoch is an error; block retrieval messages are refused |
| EpochManager.QuorumStoreChannel | consensus/src/epoch_manager.rs:1094-1115 | pushing onto the quorum-store channel vector succeeds exactly when the index is in bounds and panics otherwise |
| EpochManager.FragmentChannel | consensus/src/epoch_manager.rs:1106 | a fragment goes to channel 2 + (first address byte mod worker count), always one of the fragment workers' channels |
| EpochManager.ProcessEvent | consensus/src/epoch_manager.rs:1067-1137 | batches go to channel 0, signed digests to channel 1, fragments to a fragment channel, proof-of-store broadcasts to the wrapper, commit votes and decisions to the buffer manager, everything else to the round manager; a missing wrapper or buffer manager is a `Bail` error, a missing round manager or fragment worker a panic |
| EpochManager.ProcessMessage | consensus/src/epoch_manager.rs:964-1005 | an event reaches a processor only if it is of the local epoch and its signature verified; all other messages have exactly the effects of the epoch check |
| EpochManager.ProcessBlockRetrieval | consensus/src/epoch_manager.rs:1139-1152 | a block retrieval request is refused with an error exactly when the block retrieval task does not run |
| EpochManager.ToWrapperOrBail | consensus/src/epoch_manager.rs:1079-1085 | a proof-of-store broadcast reaches the wrapper exactly when it runs, and is otherwise refused with a `Bail` error |
| EpochManager.ToBufferManagerOrBail | consensus/src/epoch_manager.rs:1114-1121 | a commit vote or decision reaches the buffer manager exactly when it runs, and is otherwise refused with a `Bail` error |
| EpochManager.ToRoundManagerOrPanic | consensus/src/epoch_manager.rs:1129-1137 | an event reaches the round manager exactly when it runs; otherwise the `expect` panics |
| EpochManager.ToFragmentWorker | consensus/src/epoch_manager.rs:1105-1112 | with no fragment workers the remainder panics; otherwise the fragment goes to the channel the sender's first byte selects |
| EpochManager.ProcessLocalTimeout | consensus/src/epoch_manager.rs:1129-1156 | a local timeout is routed to the round manager exactly when it runs; the only failure is the panic of the `expect` on its sender |
| EpochManager.FragmentWorkerCount | consensus/src/epoch_manager.rs:825-829 | the fragment worker count is at least 1 and is the number of validators divided by two, rounded down |
| EpochManager.FirstEpochToConsider | consensus/src/epoch_manager.rs:281-303 | leader-reputation history goes back at most the configured number of epochs and never before epoch 1 |
| EpochManager.HistoryLedgerInfoRange | consensus/src/epoch_manager.rs:281-303 | the epoch-ending ledger infos are read only when the history reaches before the current epoch, over the range from the epoch before the first one considered to the current epoch, at most the history length plus one long |
| EpochManager.HistoryRangeGrowsWithCount | consensus/src/epoch_manager.rs:281-293 | the range holds as many ledger infos as the source's check on the returned proof expects, and a longer history bound never reads fewer epochs |
| EpochManager.LastCommittedRound | consensus/src/epoch_manager.rs:504-516 | the round handed to the new quorum store is the ledger's committed round when that round is in the current epoch, else 0 |
| EpochManager.StartRoundManager | consensus/src/epoch_manager.rs:756-931 | the state computer takes the new epoch's validator list; with the quorum store on, the worker count is recomputed from the validator count, worker count + 2 channels are created, the data manager reads the new epoch's batches and the wrapper starts; the buffer manager starts only under decoupled execution; the round manager and block retrieval always start; the epoch state is left as installed |
| EpochManager.StartRecoveryManager | consensus/src/epoch_manager.rs:727-754 | the recovery manager takes the round manager's place; the epoch state, the other processors, the channel layout, the state computer and the data manager are left as they were |
| EpochManager.ShutdownCurrentProcessor | consensus/src/epoch_manager.rs:686-725 | shutting down stops every per-epoch processor and keeps the epoch state and quorum-store channel layout |
| EpochManager.StartNewEpoch | consensus/src/epoch_manager.rs:933-962 | a new epoch installs its epoch state and starts the round manager with full recovery data, or the recovery manager with partial data |
| EpochManager.ChangeEpoch | consensus/src/epoch_manager.rs:424-448 | a proof that does not verify is a `Bail` error with nothing shut down; a failed sync to the verified ledger info panics; otherwise the state computer's sync requests are made and the announced epoch starts on the stopped manager |
| EpochManager.AfterEpochChange | consensus/src/epoch_manager.rs:424-448 | a verified proof whose sync succeeds yields this manager and the sync requests |
| EpochManager.SameEpochProofChangesEpoch | consensus/src/epoch_manager.rs:1036-1043 | a proof of our epoch yields exactly the `InitiateNewEpoch` effect, and running it gives a `Bail` when the proof does not verify, a panic when the sync fails, and otherwise the manager of the announced epoch |
| EpochManager.FullRecoveryCommitsWithNewValidators | consensus/src/epoch_manager.rs:838-860 | after an epoch change with full recovery data, commits hand state sync the new epoch's validators in order, and with the quorum store on the data manager reads the new epoch's batches |
| EpochManager.PartialRecoveryKeepsValidators | consensus/src/epoch_manager.rs:727-754 | after an epoch change with partial recovery data, the state computer and data manager are untouched, so commits hand state sync the previous validator list |
| EpochManager.EpochChangeMovesToNewEpoch | consensus/src/epoch_manager.rs:424-448 | after an accepted epoch change the manager has started the announced epoch, local timeouts reach the round manager, and events of the epoch it left are no longer passed on |
| EpochManager.FullRecoveryRoutesEverything | consensus/src/epoch_manager.rs:756-931 | with full recovery data and the quorum store on, the new epoch's channel vector matches its worker count, block retrieval is accepted and every event kind finds its processor (commit messages under decoupled execution) |
| EpochManager.PartialRecoveryStartsOnlyRecovery | consensus/src/epoch_manager.rs:686-754 | with partial recovery data only the recovery manager runs after the epoch change |
| EpochManager.PartialRecoveryRefusesOthers | consensus/src/epoch_manager.rs:727-754 | with partial recovery data, block retrieval is refused, proof-of-store broadcasts and commit messages get a `Bail` error, and consensus messages reach the recovery manager |
| EpochManager.RefusesStoppedProcessors | consensus/src/epoch_manager.rs:1079-1121 | without a wrapper and buffer manager their messages are refused with a `Bail` error, never a panic |
| EpochManager.ConsensusToRoundManager | consensus/src/epoch_manager.rs:1122-1137 | proposals, sync infos and votes reach a running round manager |
| EpochManager.NewManagerRoutesNothing | consensus/src/epoch_manager.rs:147-188 | before the first epoch starts no event and no block retrieval request is accepted |
| EpochManager.QuorumStoreRoutingInBounds | consensus/src/epoch_manager.rs:487-498 | after the round manager starts with the quorum store on, batches, signed digests and fragments from any peer are routed inside the channel vector, and fragments land on channels 2 to workers + 1 |
| EpochManager.FragmentRoutingByFirstByte | consensus/src/epoch_manager.rs:1104-1113 | two senders whose addresses share a first byte have their fragments routed alike |
| EpochManager.LaggingNodeCatchesUp | consensus/src/epoch_manager.rs:365-448 | a node that hears from a higher epoch requests the missing range; the peer serves it, and the proof it returns makes the lagging node initiate a new epoch |
| EpochManager.NonValidatorHelpsLowerEpoch | consensus/src/epoch_manager.rs:374-397 | a non-validator that hears from a lower epoch sends that peer a proof of exactly its missing range, and the peer acts on it |
| EpochManager.ValidatorIgnoresLowerEpoch | consensus/src/epoch_manager.rs:374-387 | a validator answers nothing to an event from a lower epoch and routes it nowhere |
| QuorumStore.New | consensus/src/quorum_store/quorum_store.rs:117-220 | a new quorum store starts at fragment id 0 and runs |
| QuorumStore.HandleAppendToBatch | consensus/src/quorum_store/quorum_store.rs:223-251 | an appended fragment carries the current fragment id, the epoch, no expiration and our own address; a refused aggregation panics |
| QuorumStore.HandleEndBatch | consensus/src/quorum_store/quorum_store.rs:254-305 | the closing fragment carries the expiration; the proof builder gets the aggregated digest and counts, and the batch store the aggregated payload; a refused aggregation panics |
| QuorumStore.ShutdownOutputs | consensus/src/quorum_store/quorum_store.rs:315-355 | shutdown stops the batch store, then the proof builder, then each network listener in order, then acknowledges |
| QuorumStore.Step | consensus/src/quorum_store/quorum_store.rs:313-390 | an append broadcasts one fragment and advances the fragment id by one; an end of batch sends the proof request, the fragment and the persist request and resets the id to 0; shutdown stops the loop; an append or end of batch fails exactly when the aggregator refuses it, and then panics |
| QuorumStore.Run | consensus/src/quorum_store/quorum_store.rs:307-393 | the loop never changes the store's epoch or address and does nothing once stopped |
| QuorumStore.RunSucceedsWhenAggregatorAccepts | consensus/src/quorum_store/quorum_store.rs:307-393 | when the aggregator accepts every append and end, any command sequence runs without a panic |
| QuorumStore.RunFragmentId | consensus/src/quorum_store/quorum_store.rs:356-385 | after any run without a shutdown the fragment id is the number of appends since the last end of batch |
| QuorumStore.AppendsNumberedConsecutively | consensus/src/quorum_store/quorum_store.rs:356-362 | consecutive appends broadcast fragments numbered consecutively from the current id |
| QuorumStore.BatchFragmentsNumbered | consensus/src/quorum_store/quorum_store.rs:356-385 | a batch of k appends and an end broadcasts fragments numbered 0 to k in order and leaves the id at 0 |
| QuorumStore.ShutdownEndsLoop | consensus/src/quorum_store/quorum_store.rs:315-355 | commands after a shutdown are never handled, and the run's outputs end with the shutdown sequence |
| QuorumStore.ListenersPreserved | consensus/src/quorum_store/quorum_store.rs:307-393 | the set of network listeners to stop is fixed for the lifetime of the loop |
| QuorumStore.RunConcat | consensus/src/quorum_store/quorum_store.rs:307-393 | running two command sequences one after the other is running their concatenation |
| StateComputer.Commit | consensus/src/state_computer.rs:186-253 | the commit loop computes the reference commit, and fails exactly when fetching some block's data fails |
| StateComputer.CommitSpec | consensus/src/state_computer.rs:186-253 | a commit is a `Bail` error exactly when fetching some block's data fails; otherwise the executor commits the block ids in order, state sync gets the blocks with their data and the validators, and for a non-empty list the data manager gets the highest epoch and round and the payloads present |
| StateComputer.SyncTo | consensus/src/state_computer.rs:256-299 | sync finishes the executor, tells the data manager the target with no payloads, syncs, then resets; it succeeds exactly when both the sync and the reset do |
| StateComputer.NewEpoch | consensus/src/state_computer.rs:301-306 | the validator list becomes the new verifier's addresses in order |
| StateComputer.PayloadsOfMembers | consensus/src/state_computer.rs:200-215 | a payload is handed to the data manager exactly when some committed block carries it |
| StateComputer.PayloadsOfCount | consensus/src/state_computer.rs:200-215 | one payload is collected per block that has one |
| StateComputer.PayloadsOfConcat | consensus/src/state_computer.rs:200-215 | payloads are collected in block order |
| StateComputer.LatestRoundOfOrderedChain | consensus/src/state_computer.rs:200-215 | for a chain of increasing rounds the round reported is the last block's |
| StateComputer.CommitWithoutPayloadsMatchesSync | consensus/src/state_computer.rs:186-299 | committing payload-free blocks that end at a target succeeds and sends the data manager the same notification as syncing to that target |
| TextFormat.ParseNatRoundTrip | crates/aptos-telemetry-service/src/prometheus_push_metrics.rs:122-126 | the decimal form of a chain id reads back as the same number |
| TextFormat.HexLiteralRoundTrip | crates/aptos-telemetry-service/src/prometheus_push_metrics.rs:134-137 | the short hex literal of a peer id reads back as the same peer id |
| PrometheusPushMetrics.ChainNameValue | crates/aptos-telemetry-service/src/prometheus_push_metrics.rs:122-126 | chain 3 is labelled by its number and every other chain by its display form |
| PrometheusPushMetrics.ChainNameRoundTrip | crates/aptos-telemetry-service/src/prometheus_push_metrics.rs:122-126 | the chain label value determines the chain id |
| PrometheusPushMetrics.ClaimsToExtraLabels | crates/aptos-telemetry-service/src/prometheus_push_metrics.rs:121-139 | four labels: the role, the chain name, the telemetry-service namespace and the peer id as pod name |
| PrometheusPushMetrics.ExtraLabelsIdentifyNode | crates/aptos-telemetry-service/src/prometheus_push_metrics.rs:121-139 | two nodes with the same labels have the same role, chain and peer id |
| PrometheusPushMetrics.LabelsForValidatorOnChain25 | crates/aptos-telemetry-service/src/prometheus_push_metrics.rs:153-172 | a validator with peer id 0x1 on chain 25 gets role=validator, chain_name=25, the namespace and peer_id:0x1 |
| PrometheusPushMetrics.AllFailedFoldMeansEveryFailed | crates/aptos-telemetry-service/src/prometheus_push_metrics.rs:76-116 | the fold over backend results panics exactly when some backend answered a status that is neither 2xx nor 4xx/5xx; otherwise it is true exactly when every backend failed |
| PrometheusPushMetrics.Posts | crates/aptos-telemetry-service/src/prometheus_push_metrics.rs:67-73 | one post per backend, each with the same body, labels and encoding, and an empty encoding when none was given |
| PrometheusPushMetrics.HandleMetricsIngest | crates/aptos-telemetry-service/src/prometheus_push_metrics.rs:56-119 | the handler panics, sending no reply, exactly when some backend answered a status that is neither 2xx nor 4xx/5xx (1xx, an unfollowed 3xx, 600 and above), because unwrapping `error_for_status`'s error finds none; otherwise the push is refused exactly when every backend's request errored or returned a non-2xx status, including when there is no backend, and is answered 201 when not refused |
| PrometheusPushMetrics.IngestIndependentOfBackendOrder | crates/aptos-telemetry-service/src/prometheus_push_metrics.rs:67-116 | the verdict, panic included, does not depend on the order of the backends |
| PrometheusPushMetrics.AllSuccessIsAccepted | crates/aptos-telemetry-service/src/prometheus_push_metrics.rs:174-208 | two backends answering 200 and 200 give 201 |
| PrometheusPushMetrics.PartialSuccessIsAccepted | crates/aptos-telemetry-service/src/prometheus_push_metrics.rs:210-244 | two backends answering 200 and 500 give 201 |
| PrometheusPushMetrics.AllFailureIsRejected | crates/aptos-telemetry-service/src/prometheus_push_metrics.rs:246-280 | two backends answering 500 and 401 give a refusal |
| PrometheusPushMetrics.NotModifiedPanics | crates/aptos-telemetry-service/src/prometheus_push_metrics.rs:86-93 | two backends answering 200 and 304 make the handler panic, although one backend took the push |

## Left out

- Concurrency: channels, `select!` loops, spawned tasks and awaiting are modelled as returned effects and sequential steps. Message ordering across tasks is not modelled.
- The ledger database, signature verification, the executor, state sync, the data manager, the batch aggregator and the metrics backends are parameters. Their own code is not part of this model.
- The epoch manager's `epoch_state` `expect` is a precondition `Started()` on the decision functions, because `start` awaits the first reconfiguration before it handles any message.
- EpochManager.ChangeEpoch: verifying the epoch-change proof is foreign; its outcome is the parameter `verified`, the ledger info the proof ends at or `None`, and `ProofVerifier` is its type. The reconfiguration that `await_reconfig_notification` waits for is the parameter `reconfig`, and the recovery data read from storage is `storage`.
- Building the round manager, the proposer election, the leader reputation backend, the safety rules and the payload manager is not modelled. Only the state each start leaves behind is.
- EpochManager.CheckEpoch: `check_epoch` awaits `initiate_new_epoch` inline on a proof of the current epoch, so its own result is that call's error when the proof is invalid. The model returns the `InitiateNewEpoch` effect instead; ChangeEpoch reports the outcome, and SameEpochProofChangesEpoch composes the two.
- EpochManager.ProcessMessage: for the same reason, the outcome of an epoch change started by a message is reported by ChangeEpoch, not by ProcessMessage.
- EpochManager.ProcessEpochRetrieval: a failed `send_to` of the proof is an error in the source. The model counts the send as made.
- EpochManager.ProcessDifferentEpoch: a failed `send_to` of the retrieval request to a peer of a higher epoch is an error in the source. The model counts the send as made.
- EpochManager.ProcessBlockRetrieval: a failed push onto the block retrieval channel is an error in the source. The model counts it as delivered.
- EpochManager.StartRoundManager: what the data manager's `new_epoch` is given is recorded only as the epoch of the batch reader; the channel to the quorum store is not modelled.
- QuorumStore.HandleEndBatch: the batch aggregator is memoryless in the model. `end_batch` returns the digest, payload and byte count of the whole batch built up by the earlier `append_transactions` calls, but the model's `Aggregator` answers from the closing call's batch id, fragment id and payload alone, so the aggregated payload is not tied to the appended fragments.
- EpochManager.ProcessMessage: whether a signature verifies is the boolean `signatureValid`. Which event kinds need which signature is not modelled.
- EpochManager.ProcessEvent: an event pushed to a channel whose receiver is gone fails in the source with an error from the channel. The model counts every push as delivered.
- QuorumStore.Step: `fragment_id` is a `usize`, and its wrap-around after 2^64 appends without an end of batch is not modelled. The id is an unbounded `nat`.
- QuorumStore.Step: a failed network broadcast or a dropped acknowledgement channel is not modelled. Those calls are `expect`s on components outside this model.
- QuorumStore.New: the spawned batch store, proof builder and network listener tasks are not modelled. Only their count matters to the loop.
- StateComputer.Commit: the executor's and state sync's own failures are `expect`s in the source and are not modelled. The only error path is a failed `get_data` for some block's data.
- StateComputer.Commit: the callback that is called once the commit is done is not modelled.
- StateComputer.Commit: `transactions_to_commit` and `reconfig_event` belong to the executed block's own code, which is not part of this model. The state sync notification carries their inputs instead: the blocks, the validators and the fetched data.
- StateComputer.SyncTo: the executor's `finish`/`reset` and the sync are foreign. Their outcome is a parameter.
- `compute` (consensus/src/state_computer.rs:108-184) is not modelled. It fetches the block's data through the data manager, builds the transactions with the validator list, executes them and notifies mempool of rejected transactions. All of that happens in components whose code is not part of this model.
- Fail points, metrics counters, logging, timers and the request-duration histogram are left out. They do not change any outcome, with one exception: the error log of a backend's non-success answer unwraps `error_for_status().err()`, and that panic is modelled in HandleMetricsIngest. The model assumes error-level logging is enabled, as it is by default, so the log's arguments are evaluated.
- The telemetry service's authentication filter and its content-length limit are not modelled. `NodeType` has exactly the three roles both ingest routes admit (crates/aptos-telemetry-service/src/prometheus_push_metrics.rs:22-29).
- PrometheusPushMetrics.HandleMetricsIngest: the metrics client's retries on 5xx answers are inside the client, not this handler. Each backend contributes its final answer only.
- PrometheusPushMetrics.NodeTypeName: the role strings reproduce the `Display` of `NodeType` from the telemetry types, which is not part of this model.
- PrometheusPushMetrics.ChainNameValue: the names for chain ids 1 to 5 reproduce the `ChainId` display of the types crate, which is not part of this model.
- TextFormat.HexLiteral reproduces `AccountAddress::to_hex_literal` from the move-core types, which is not part of this model.
- The fields `epoch`, `exp` and `iat` of the telemetry claims are left out of `Claims`. The labels do not use them.
- consensus/src/consensus_provider.rs wires the components together at startup and is not modelled.
