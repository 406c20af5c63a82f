/**
 The telemetry service's Prometheus metrics ingest: the extra labels
 derived from an authenticated node's claims, the fan-out of the pushed
 body to every configured metrics backend, and the rule that the push is
 refused only when every backend failed, unless some backend's answer
 makes the handler panic.

 The HTTP layer, authentication and the backends themselves are outside
 this model; each backend's answer is given by a parameter.
 */
module PrometheusPushMetrics {
  import opened Types
  import opened TextFormat

  // ---------------------------------------------------------------------
  // Claims and labels
  // ---------------------------------------------------------------------

  /** The node roles admitted to the ingest endpoints. */
  datatype NodeType = Validator | ValidatorFullNode | PublicFullNode

  /** Display form of a node role. */
  function NodeTypeName(t: NodeType): string {
    match t
    case Validator => "validator"
    case ValidatorFullNode => "validator_fullnode"
    case PublicFullNode => "public_fullnode"
  }

  /** A chain id is one byte. */
  type ChainId = byte

  /** Chain ids that have a name, and the name their `Display` prints. */
  function NamedChain(id: ChainId): Option<string> {
    if id == 1 then Some("mainnet")
    else if id == 2 then Some("testnet")
    else if id == 3 then Some("devnet")
    else if id == 4 then Some("testing")
    else if id == 5 then Some("premainnet")
    else None
  }

  /** `ChainId`'s `Display`: the chain's name if it has one, else its
      number. */
  function ChainIdDisplay(id: ChainId): string {
    match NamedChain(id)
    case Some(name) => name
    case None => NatToString(id)
  }

  /** Authenticated claims of the pushing node; only the fields the labels
      use are kept. */
  datatype Claims = Claims(chainId: ChainId, peerId: PeerId, nodeType: NodeType)

  const ROLE_KEY: string := "role="
  const CHAIN_NAME_KEY: string := "chain_name="
  const NAMESPACE_LABEL: string := "namespace=telemetry-service"
  const POD_NAME_KEY: string := "kubernetes_pod_name=peer_id:"

  /** The value of the `chain_name` label: chain 3 is shown by number
      although it has a name; every other chain by its display form. */
  function ChainNameValue(id: ChainId): (v: string)
    ensures id == 3 ==> v == NatToString(3)
    ensures id != 3 ==> v == ChainIdDisplay(id)
    ensures NamedChain(id).None? ==> ParseNat(v) == Some(id as nat)
  {
    ParseNatRoundTrip(id);
    if id == 3 then NatToString(id) else ChainIdDisplay(id)
  }

  /** `claims_to_extra_labels`. */
  function ClaimsToExtraLabels(claims: Claims): (labels: seq<string>)
    ensures |labels| == 4
    ensures labels[0] == ROLE_KEY + NodeTypeName(claims.nodeType)
    ensures labels[1] == CHAIN_NAME_KEY + ChainNameValue(claims.chainId)
    ensures labels[2] == NAMESPACE_LABEL
    ensures labels[3] == POD_NAME_KEY + HexLiteral(claims.peerId)
  {
    [ ROLE_KEY + NodeTypeName(claims.nodeType),
      CHAIN_NAME_KEY + ChainNameValue(claims.chainId),
      NAMESPACE_LABEL,
      POD_NAME_KEY + HexLiteral(claims.peerId) ]
  }

  lemma StripKey(key: string, a: string, b: string)
    requires key + a == key + b
    ensures a == b
  {
    assert a == (key + a)[|key|..];
    assert b == (key + b)[|key|..];
  }

  /** Read a `chain_name` label value back: a number below 256, or one of
      the chain names the label can carry. */
  function ParseChainName(v: string): Option<ChainId> {
    match ParseNat(v)
    case Some(n) => if n < 256 then Some(n) else None
    case None =>
      if v == "mainnet" then Some(1)
      else if v == "testnet" then Some(2)
      else if v == "testing" then Some(4)
      else if v == "premainnet" then Some(5)
      else None
  }

  lemma ChainNameRoundTrip(id: ChainId)
    ensures ParseChainName(ChainNameValue(id)) == Some(id)
  {
    if NamedChain(id).None? || id == 3 {
      ParseNatRoundTrip(id);
    } else {
      var name := NamedChain(id).value;
      assert !IsDecimalDigit(name[|name| - 1]);
    }
  }

  lemma ChainNameValueInjective(a: ChainId, b: ChainId)
    ensures ChainNameValue(a) == ChainNameValue(b) ==> a == b
  {
    ChainNameRoundTrip(a);
    ChainNameRoundTrip(b);
  }

  /** The labels identify the pushing node: its role, its chain and its
      address can all be read back from them. */
  lemma ExtraLabelsIdentifyNode(c1: Claims, c2: Claims)
    requires ClaimsToExtraLabels(c1) == ClaimsToExtraLabels(c2)
    ensures c1 == c2
  {
    var l1 := ClaimsToExtraLabels(c1);
    var l2 := ClaimsToExtraLabels(c2);
    StripKey(ROLE_KEY, NodeTypeName(c1.nodeType), NodeTypeName(c2.nodeType));
    StripKey(CHAIN_NAME_KEY, ChainNameValue(c1.chainId), ChainNameValue(c2.chainId));
    StripKey(POD_NAME_KEY, HexLiteral(c1.peerId), HexLiteral(c2.peerId));
    ChainNameValueInjective(c1.chainId, c2.chainId);
    HexLiteralInjective(c1.peerId, c2.peerId);
    assert NodeTypeName(c1.nodeType)[0] == NodeTypeName(c2.nodeType)[0];
    assert |NodeTypeName(c1.nodeType)| == |NodeTypeName(c2.nodeType)|;
  }

  /** The address `0x1`: 31 zero bytes then a one. */
  function AddressOne(): PeerId {
    seq(31, _ => 0) + [1]
  }

  lemma FullHexOfAddressOne()
    ensures FullHex(AddressOne()) == Zeros(62) + "01"
  {
    var zeros: seq<byte> := seq(31, _ => 0);
    assert AddressOne() == zeros + [1];
    FullHexConcat(zeros, [1]);
    FullHexOfZeros(31);
    assert FullHex([1]) == "01";
  }

  lemma HexLiteralOfAddressOne()
    ensures HexLiteral(AddressOne()) == "0x1"
  {
    FullHexOfAddressOne();
    TrimZerosPrefix(62, "01");
    assert TrimLeadingZeros("01") == "1";
  }

  lemma RoleOfValidator()
    ensures ROLE_KEY + NodeTypeName(Validator) == "role=validator"
  {
  }

  lemma ChainNameOf25()
    ensures CHAIN_NAME_KEY + ChainNameValue(25) == "chain_name=25"
  {
    assert NatToString(2) == "2";
    assert NatToString(25) == NatToString(2) + "5";
  }

  lemma PodNameOfAddressOne()
    ensures POD_NAME_KEY + HexLiteral(AddressOne()) == "kubernetes_pod_name=peer_id:0x1"
  {
    var h := HexLiteral(AddressOne());
    HexLiteralOfAddressOne();
    assert h == "0x1";
    PodNameLiteral();
  }

  lemma PodNameLiteral()
    ensures POD_NAME_KEY + "0x1" == "kubernetes_pod_name=peer_id:0x1"
  {
  }

  /** The labels for chain 25, peer `0x1`, a validator. */
  lemma LabelsForValidatorOnChain25()
    ensures ClaimsToExtraLabels(Claims(25, AddressOne(), Validator))
      == ["role=validator", "chain_name=25", "namespace=telemetry-service", "kubernetes_pod_name=peer_id:0x1"]
  {
    var labels := ClaimsToExtraLabels(Claims(25, AddressOne(), Validator));
    RoleOfValidator();
    ChainNameOf25();
    PodNameOfAddressOne();
    assert labels == [labels[0], labels[1], labels[2], labels[3]];
  }

  lemma {:induction false} FullHexOfZeros(n: nat)
    ensures FullHex(seq(n, _ => 0 as byte)) == Zeros(2 * n)
    decreases n
  {
    if n > 0 {
      var z: seq<byte> := seq(n, _ => 0);
      assert z[1..] == seq(n - 1, _ => 0 as byte);
      FullHexOfZeros(n - 1);
      assert Zeros(2 * n) == ['0', '0'] + Zeros(2 * (n - 1));
    }
  }

  // ---------------------------------------------------------------------
  // Ingest
  // ---------------------------------------------------------------------

  /** One request to a metrics backend: the backend's name, the body as
      pushed, the extra labels and the content encoding. */
  datatype Post = Post(backend: string, body: seq<byte>, labels: seq<string>, encoding: string)

  /** A backend's answer: the request itself failed, or it got a status. */
  datatype BackendResponse = RequestFailed | Responded(status: nat)

  /** `StatusCode::is_success`: a 2xx status. */
  predicate IsSuccess(status: nat) {
    200 <= status <= 299
  }

  /** `StatusCode::is_client_error` or `is_server_error`: the 4xx and 5xx
      statuses, the only ones `Response::error_for_status` turns into an
      error. */
  predicate IsErrorStatus(status: nat) {
    400 <= status <= 599
  }

  /** A backend counts as failed when its request errored or its status is
      not a success. */
  predicate Failed(response: BackendResponse) {
    match response
    case RequestFailed => true
    case Responded(status) => !IsSuccess(status)
  }

  /** A failed answer whose status is neither a success nor an error status
      (1xx, a 3xx redirect left unfollowed, 600 and above): logging it
      unwraps the error `error_for_status` does not produce, and the handler
      panics. */
  predicate Aborts(response: BackendResponse) {
    response.Responded? && !IsSuccess(response.status) && !IsErrorStatus(response.status)
  }

  /** Some backend's answer to one of `posts` makes the handler panic. */
  predicate SomeAborts(posts: seq<Post>, respond: Post -> BackendResponse) {
    exists i :: 0 <= i < |posts| && Aborts(respond(posts[i]))
  }

  /** Every backend's answer to `posts` is a failure. */
  predicate AllFailed(posts: seq<Post>, respond: Post -> BackendResponse) {
    forall i :: 0 <= i < |posts| ==> Failed(respond(posts[i]))
  }

  const STATUS_CREATED: nat := 201

  /** The `MetricsIngestError::IngestionError` a refusal carries. */
  const INGESTION_ERROR: string := "IngestionError"

  /** How the ingest ends: a reply with a status, a refusal, or a panic of
      the handler, which sends no reply at all. */
  datatype IngestReply = Created(status: nat) | Rejected(error: string) | Panicked

  /** `results.fold(acc, |acc, r| acc && r.is_err())` over the lazily mapped
      results: each answer is inspected (and may panic) as the fold reaches
      it. `None` is the panic. */
  function AllFailedFold(responses: seq<BackendResponse>, acc: bool): Option<bool>
    decreases |responses|
  {
    if |responses| == 0 then Some(acc)
    else if Aborts(responses[0]) then None
    else AllFailedFold(responses[1..], acc && Failed(responses[0]))
  }

  lemma {:induction false} AllFailedFoldMeansEveryFailed(responses: seq<BackendResponse>, acc: bool)
    ensures AllFailedFold(responses, acc).None? <==> exists i :: 0 <= i < |responses| && Aborts(responses[i])
    ensures AllFailedFold(responses, acc).Some? ==>
      (AllFailedFold(responses, acc).value <==> acc && forall i :: 0 <= i < |responses| ==> Failed(responses[i]))
    decreases |responses|
  {
    if |responses| > 0 {
      AllFailedFoldMeansEveryFailed(responses[1..], acc && Failed(responses[0]));
      assert forall i :: 1 <= i < |responses| ==> responses[i] == responses[1..][i - 1];
    }
  }

  /** The requests sent: one per backend, in the backends' order, all
      with the same body, labels and encoding (empty when none was given). */
  function Posts(backends: seq<string>, claims: Claims, encoding: Option<string>, body: seq<byte>): (posts: seq<Post>)
    ensures |posts| == |backends|
    ensures forall i :: 0 <= i < |backends| ==>
      posts[i] == Post(backends[i], body, ClaimsToExtraLabels(claims),
                       if encoding.Some? then encoding.value else "")
  {
    var labels := ClaimsToExtraLabels(claims);
    var enc := if encoding.Some? then encoding.value else "";
    seq(|backends|, i requires 0 <= i < |backends| => Post(backends[i], body, labels, enc))
  }

  /** `handle_metrics_ingest`: push to every backend; panic if some backend
      answered with a status that is neither a success nor an error status;
      otherwise refuse if and only if every backend failed, which includes
      having no backend. */
  function HandleMetricsIngest(backends: seq<string>, claims: Claims, encoding: Option<string>, body: seq<byte>,
                               respond: Post -> BackendResponse): (r: (seq<Post>, IngestReply))
    ensures r.0 == Posts(backends, claims, encoding, body)
    ensures r.1.Panicked? <==> SomeAborts(r.0, respond)
    ensures !r.1.Panicked? ==> (r.1.Rejected? <==> AllFailed(r.0, respond))
    ensures r.1.Created? ==> r.1.status == STATUS_CREATED
    ensures r.1.Rejected? ==> r.1.error == INGESTION_ERROR
    ensures |backends| == 0 ==> r.1.Rejected?
  {
    var posts := Posts(backends, claims, encoding, body);
    var responses := seq(|posts|, i requires 0 <= i < |posts| => respond(posts[i]));
    AllFailedFoldMeansEveryFailed(responses, true);
    assert forall i :: 0 <= i < |posts| ==> responses[i] == respond(posts[i]);
    var allFailed := AllFailedFold(responses, true);
    if allFailed.None? then (posts, Panicked)
    else if allFailed.value then (posts, Rejected(INGESTION_ERROR))
    else (posts, Created(STATUS_CREATED))
  }

  /** Every request of `p1` is also one of `p2`. */
  predicate Covers(p1: seq<Post>, p2: seq<Post>) {
    forall i :: 0 <= i < |p1| ==> p1[i] in p2
  }

  /** Every request sent to the backends `b1` is also sent to `b2` when
      `b2` names each backend of `b1`. */
  lemma PostsCovered(b1: seq<string>, b2: seq<string>, claims: Claims, encoding: Option<string>, body: seq<byte>)
    requires multiset(b1) <= multiset(b2)
    ensures Covers(Posts(b1, claims, encoding, body), Posts(b2, claims, encoding, body))
  {
    var p1, p2 := Posts(b1, claims, encoding, body), Posts(b2, claims, encoding, body);
    forall i | 0 <= i < |p1| ensures p1[i] in p2 {
      assert b1[i] in multiset(b1);
      assert b1[i] in b2;
      var j :| 0 <= j < |b2| && b2[j] == b1[i];
      assert p2[j] == p1[i];
    }
  }

  /** When every request of `p1` is among those of `p2`, an aborting answer
      to `p1` is one to `p2`, and if `p2` failed everywhere so did `p1`. */
  lemma VerdictCovered(p1: seq<Post>, p2: seq<Post>, respond: Post -> BackendResponse)
    requires Covers(p1, p2)
    ensures SomeAborts(p1, respond) ==> SomeAborts(p2, respond)
    ensures AllFailed(p2, respond) ==> AllFailed(p1, respond)
  {
    if i :| 0 <= i < |p1| && Aborts(respond(p1[i])) {
      var j :| 0 <= j < |p2| && p2[j] == p1[i];
      assert Aborts(respond(p2[j]));
    }
    if forall j :: 0 <= j < |p2| ==> Failed(respond(p2[j])) {
      forall i | 0 <= i < |p1| ensures Failed(respond(p1[i])) {
        var j :| 0 <= j < |p2| && p2[j] == p1[i];
      }
    }
  }

  /** The verdict does not depend on the order in which the backends are
      listed. */
  lemma IngestIndependentOfBackendOrder(b1: seq<string>, b2: seq<string>, claims: Claims, encoding: Option<string>,
                                        body: seq<byte>, respond: Post -> BackendResponse)
    requires multiset(b1) == multiset(b2)
    ensures HandleMetricsIngest(b1, claims, encoding, body, respond).1
         == HandleMetricsIngest(b2, claims, encoding, body, respond).1
  {
    SameBackendsSameAnswers(b1, b2, claims, encoding, body, respond);
    SameVerdict(HandleMetricsIngest(b1, claims, encoding, body, respond).1,
                HandleMetricsIngest(b2, claims, encoding, body, respond).1);
  }

  /** Listing the same backends in another order changes neither whether
      some answer aborts nor whether every answer failed. */
  lemma SameBackendsSameAnswers(b1: seq<string>, b2: seq<string>, claims: Claims, encoding: Option<string>,
                                body: seq<byte>, respond: Post -> BackendResponse)
    requires multiset(b1) == multiset(b2)
    ensures var p1, p2 := Posts(b1, claims, encoding, body), Posts(b2, claims, encoding, body);
      (SomeAborts(p1, respond) <==> SomeAborts(p2, respond)) && (AllFailed(p1, respond) <==> AllFailed(p2, respond))
  {
    var p1, p2 := Posts(b1, claims, encoding, body), Posts(b2, claims, encoding, body);
    assert (SomeAborts(p1, respond) ==> SomeAborts(p2, respond)) && (AllFailed(p2, respond) ==> AllFailed(p1, respond)) by {
      PostsCovered(b1, b2, claims, encoding, body);
      VerdictCovered(p1, p2, respond);
    }
    assert (SomeAborts(p2, respond) ==> SomeAborts(p1, respond)) && (AllFailed(p1, respond) ==> AllFailed(p2, respond)) by {
      PostsCovered(b2, b1, claims, encoding, body);
      VerdictCovered(p2, p1, respond);
    }
  }

  /** Two ingest outcomes of the same kind are the same outcome. */
  lemma SameVerdict(r1: IngestReply, r2: IngestReply)
    requires r1.Panicked? == r2.Panicked? && r1.Rejected? == r2.Rejected?
    requires r1.Created? ==> r1.status == STATUS_CREATED
    requires r2.Created? ==> r2.status == STATUS_CREATED
    requires r1.Rejected? ==> r1.error == INGESTION_ERROR
    requires r2.Rejected? ==> r2.error == INGESTION_ERROR
    ensures r1 == r2
  {
  }

  /** The answer of the first backend named `name`, by the given statuses;
      an unknown backend's request fails. */
  function StatusOf(backends: seq<string>, statuses: seq<nat>, name: string): BackendResponse
    requires |backends| == |statuses|
    decreases |backends|
  {
    if |backends| == 0 then RequestFailed
    else if backends[0] == name then Responded(statuses[0])
    else StatusOf(backends[1..], statuses[1..], name)
  }

  /** Backends answering with the given statuses, in order. */
  function ByStatus(backends: seq<string>, statuses: seq<nat>): Post -> BackendResponse
    requires |backends| == |statuses|
  {
    (p: Post) => StatusOf(backends, statuses, p.backend)
  }

  /** Two backends, one answering 200 and one 500: the push is accepted. */
  lemma PartialSuccessIsAccepted(claims: Claims, body: seq<byte>)
    ensures var backends := ["endpoint1", "endpoint2"];
      HandleMetricsIngest(backends, claims, Some("gzip"), body, ByStatus(backends, [200, 500])).1
        == Created(STATUS_CREATED)
  {
    var backends := ["endpoint1", "endpoint2"];
    var respond := ByStatus(backends, [200, 500]);
    var posts := Posts(backends, claims, Some("gzip"), body);
    assert respond(posts[0]) == Responded(200) by {
      assert posts[0].backend == "endpoint1";
      assert "endpoint1" != "endpoint2";
    }
    assert respond(posts[1]) == Responded(500) by {
      assert posts[1].backend == "endpoint2";
      assert "endpoint1" != "endpoint2";
    }
  }

  /** Two backends, answering 500 and 401: the push is refused. */
  lemma AllFailureIsRejected(claims: Claims, body: seq<byte>)
    ensures var backends := ["endpoint1", "endpoint2"];
      HandleMetricsIngest(backends, claims, Some("gzip"), body, ByStatus(backends, [500, 401])).1.Rejected?
  {
    var backends := ["endpoint1", "endpoint2"];
    var respond := ByStatus(backends, [500, 401]);
    var posts := Posts(backends, claims, Some("gzip"), body);
    assert "endpoint1" != "endpoint2";
    assert posts[0].backend == "endpoint1" && posts[1].backend == "endpoint2";
    assert respond(posts[0]) == Responded(500);
    assert respond(posts[1]) == Responded(401);
  }

  /** Two backends, both answering 200: the push is accepted. */
  lemma AllSuccessIsAccepted(claims: Claims, body: seq<byte>)
    ensures var backends := ["endpoint1", "endpoint2"];
      HandleMetricsIngest(backends, claims, Some("gzip"), body, ByStatus(backends, [200, 200])).1
        == Created(STATUS_CREATED)
  {
    var backends := ["endpoint1", "endpoint2"];
    var respond := ByStatus(backends, [200, 200]);
    var posts := Posts(backends, claims, Some("gzip"), body);
    assert posts[0].backend == "endpoint1";
    assert respond(posts[0]) == Responded(200);
    assert posts[1].backend == "endpoint2";
    assert respond(posts[1]) == Responded(200);
  }

  /** Two backends, answering 200 and 304 Not Modified: the second answer
      is not a success, yet `error_for_status` finds no error in it, so the
      handler panics although the first backend took the push. */
  lemma NotModifiedPanics(claims: Claims, body: seq<byte>)
    ensures var backends := ["endpoint1", "endpoint2"];
      HandleMetricsIngest(backends, claims, Some("gzip"), body, ByStatus(backends, [200, 304])).1 == Panicked
  {
    var backends := ["endpoint1", "endpoint2"];
    var respond := ByStatus(backends, [200, 304]);
    var posts := Posts(backends, claims, Some("gzip"), body);
    assert "endpoint1" != "endpoint2";
    assert posts[1].backend == "endpoint2";
    assert Aborts(respond(posts[1]));
  }
}
