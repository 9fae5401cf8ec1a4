/**
 The values exchanged by the wallet canister and its clients: the shapes of the
 canister's candid interface (grants, target lists, queued calls and owner
 replies), plus the Option and Result wrappers used throughout.
 */
module Types {

  datatype Option<+T> = None | Some(value: T)

  datatype Result<+T, +E> = Ok(value: T) | Err(error: E)

  /** A principal, identified by its textual form (`to_text` / `fromText`). */
  datatype Principal = Principal(text: string)

  type Bytes = seq<bv8>

  /** The hex text of a SHA-256 digest that names a queued call. */
  type Hash = string

  /** How a target method is called. */
  datatype MethodType = CALL | OneWay | CompositeQuery | QUERY

  /** Which calls of a granted user are routed through the confirmation queue. */
  datatype MethodValidationType = ALL | KEY | UPDATE

  datatype Method = Method(name: string, methodType: MethodType, keyOperation: bool)

  /** One target canister of a grant, with its methods keyed by name. */
  datatype ProxyActorItem = ProxyActorItem(canister: Principal, methods: map<string, Method>)

  /** The argument of `add_expiry_user`: targets and an optional validity period. */
  datatype ProxyActorTargets = ProxyActorTargets(targets: seq<ProxyActorItem>, expiration: Option<nat>)

  /** A grant: who, when it was made, when it is meant to expire, and what it allows. */
  datatype ExpiryUser = ExpiryUser(user: Principal, timestamp: nat, expiryTimestamp: nat,
                                   targetList: seq<ProxyActorItem>)

  /** A call to forward: target canister, method, encoded arguments and cycles. */
  datatype CallCanisterArgs = CallCanisterArgs(canister: Principal, methodName: string,
                                               args: Bytes, cycles: nat)

  datatype CallResult = CallResult(ret: Bytes)

  /** What forwarding a call yields: the target's reply bytes, or an error text. */
  type CallOutcome = Result<CallResult, string>

  /** The owner's decision on a queued call; `NotFound` means none recorded yet. */
  datatype OwnerReply = Approved(result: CallOutcome) | NotFound | Rejected(reason: string)

  datatype MethodQueueItem = MethodQueueItem(hash: Hash, user: Principal, timeStamp: nat,
                                             payload: CallCanisterArgs, ownerReply: OwnerReply)

  /** The summary of a queued call that `get_queue_unconfirmed` lists. */
  datatype QueueHash = QueueHash(hash: Hash, user: Principal, timeStamp: nat)
}
