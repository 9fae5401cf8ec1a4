/**
 The client side of proxied calls: classifying a target's IDL methods,
 building the target list of a grant (with key operations flagged), unpacking
 decoded return values, polling the wallet's queue for the owner's decision,
 and turning a `proxy_call` answer into what the proxied method returns or
 throws.

 `get_queue_reply` answers are the parameter `answers` (the answer to the
 i-th poll attempt); IDL decoding of reply bytes is the parameter `decode`.
 */
module Client {
  import opened Types

  // ---------------------------------------------------------------------
  // Method classification

  /** A method of a target's IDL service: its name and its annotations. */
  datatype IdlField = IdlField(name: string, annotations: seq<string>)

  function FirstAnnotation(annotations: seq<string>): Option<string>
  {
    if |annotations| > 0 then Some(annotations[0]) else None
  }

  /** The call kind for a method's first annotation. The `'' || 'update'`
      case label is just `'update'`; the empty annotation, a missing one and
      any other text fall to the default, `CALL`. */
  function MethodTypeOf(annotation: Option<string>): (t: MethodType)
    ensures t == QUERY <==> annotation == Some("query")
    ensures t == CompositeQuery <==> annotation == Some("composite")
    ensures t == OneWay <==> annotation == Some("oneway")
    ensures t == CALL <==>
      annotation != Some("query") && annotation != Some("composite") && annotation != Some("oneway")
  {
    if annotation == Some("update") then CALL
    else if annotation == Some("query") then QUERY
    else if annotation == Some("composite") then CompositeQuery
    else if annotation == Some("oneway") then OneWay
    else CALL
  }

  /** The method list `_createProxyActor` derives from a service's fields:
      one method per field, in order, none flagged as a key operation. */
  function ClassifyMethods(fields: seq<IdlField>): (ms: seq<Method>)
    ensures |ms| == |fields|
    ensures forall i :: 0 <= i < |fields| ==>
      && ms[i].name == fields[i].name
      && ms[i].methodType == MethodTypeOf(FirstAnnotation(fields[i].annotations))
      && !ms[i].keyOperation
  {
    if fields == [] then []
    else
      [Method(fields[0].name, MethodTypeOf(FirstAnnotation(fields[0].annotations)), false)]
        + ClassifyMethods(fields[1..])
  }

  // ---------------------------------------------------------------------
  // Return values

  /** What `decodeReturnValue` hands back: `undefined`, the one value, or the
      whole list. */
  datatype ReturnValue<V> = Undefined | Single(value: V) | Values(values: seq<V>)

  /** The list of decoded values a return value stands for. */
  function Expand<V>(r: ReturnValue<V>): seq<V>
  {
    match r
    case Undefined => []
    case Single(v) => [v]
    case Values(vs) => vs
  }

  /** Collapses the decoded values by their number; nothing is lost. */
  function DecodeReturnValue<V>(values: seq<V>): (r: ReturnValue<V>)
    ensures Expand(r) == values
    ensures r.Undefined? <==> |values| == 0
    ensures r.Single? <==> |values| == 1
  {
    if |values| == 0 then Undefined
    else if |values| == 1 then Single(values[0])
    else Values(values)
  }

  // ---------------------------------------------------------------------
  // Building the target list of a grant

  /** A target of the client: canister id text and its classified methods. */
  datatype ActorItem = ActorItem(canister: string, methods: seq<Method>)

  /** Method names of one canister to flag as key operations. */
  datatype KeyOperation = KeyOperation(canister: string, keys: seq<string>)

  datatype TargetItem = TargetItem(canister: Principal, methods: seq<(string, Method)>)

  /** The `add_expiry_user` argument as the client builds it. */
  datatype Targets = Targets(expiration: Option<int>, targets: seq<TargetItem>)

  /** `findIndex` on canister text: the first actor for `canister`, or -1. */
  function FindActor(actors: seq<ActorItem>, canister: string): (k: int)
    ensures -1 <= k < |actors|
    ensures k >= 0 ==> actors[k].canister == canister
    ensures k >= 0 ==> forall j :: 0 <= j < k ==> actors[j].canister != canister
    ensures k == -1 ==> forall j :: 0 <= j < |actors| ==> actors[j].canister != canister
  {
    if actors == [] then -1
    else if actors[0].canister == canister then 0
    else
      var k := FindActor(actors[1..], canister);
      assert forall j :: 0 < j < |actors| ==> actors[j] == actors[1..][j - 1];
      if k == -1 then -1 else k + 1
  }

  /** `findIndex` on strings: the first position of `key`, or -1. */
  function FindKey(keys: seq<string>, key: string): (k: int)
    ensures -1 <= k < |keys|
    ensures k >= 0 <==> key in keys
    ensures k >= 0 ==> keys[k] == key
    ensures k >= 0 ==> forall j :: 0 <= j < k ==> keys[j] != key
  {
    if keys == [] then -1
    else if keys[0] == key then 0
    else
      var k := FindKey(keys[1..], key);
      if k == -1 then -1 else k + 1
  }

  function MarkKey(m: Method, keys: seq<string>): Method
  {
    if m.name in keys then m.(keyOperation := true) else m
  }

  /** The methods of an actor after one key operation's `forEach`. */
  function MarkKeys(methods: seq<Method>, keys: seq<string>): seq<Method>
  {
    seq(|methods|, i requires 0 <= i < |methods| => MarkKey(methods[i], keys))
  }

  /** The actors after one key operation: the first actor for its canister
      has the named methods flagged. */
  function ApplyKeyOperation(actors: seq<ActorItem>, op: KeyOperation): seq<ActorItem>
  {
    var k := FindActor(actors, op.canister);
    if k == -1 then actors
    else actors[k := actors[k].(methods := MarkKeys(actors[k].methods, op.keys))]
  }

  /** The actors after the key operations, applied in order. */
  function ApplyKeyOperations(actors: seq<ActorItem>, ops: seq<KeyOperation>): seq<ActorItem>
    decreases |ops|
  {
    if ops == [] then actors
    else ApplyKeyOperation(ApplyKeyOperations(actors, ops[..|ops| - 1]), ops[|ops| - 1])
  }

  /** Two actor lists agree on everything but key-operation flags. */
  predicate SameShape(a: seq<ActorItem>, b: seq<ActorItem>)
  {
    && |a| == |b|
    && forall i :: 0 <= i < |a| ==>
      && a[i].canister == b[i].canister
      && |a[i].methods| == |b[i].methods|
      && forall j :: 0 <= j < |a[i].methods| ==>
        a[i].methods[j].name == b[i].methods[j].name
        && a[i].methods[j].methodType == b[i].methods[j].methodType
  }

  /** Some key operation names method `j` of actor `i`, and actor `i` is the
      first for that operation's canister. */
  predicate Marked(actors: seq<ActorItem>, ops: seq<KeyOperation>, i: nat, j: nat)
    requires i < |actors| && j < |actors[i].methods|
  {
    exists k :: 0 <= k < |ops| && FindActor(actors, ops[k].canister) == i
      && actors[i].methods[j].name in ops[k].keys
  }

  lemma {:induction false} FindActorSameShape(a: seq<ActorItem>, b: seq<ActorItem>, canister: string)
    requires SameShape(a, b)
    ensures FindActor(a, canister) == FindActor(b, canister)
  {
    if a != [] && a[0].canister != canister {
      assert SameShape(a[1..], b[1..]) by {
        forall i | 0 <= i < |a| - 1
          ensures a[1..][i].canister == b[1..][i].canister
        {
          assert a[1..][i] == a[i + 1];
          assert b[1..][i] == b[i + 1];
        }
        assert forall i :: 0 <= i < |a| - 1 ==> a[1..][i] == a[i + 1] && b[1..][i] == b[i + 1];
      }
      FindActorSameShape(a[1..], b[1..], canister);
    }
  }

  /** One key operation changes only flags, and only raises those of the
      named methods of the first actor for its canister. */
  lemma KeyOperationEffect(actors: seq<ActorItem>, op: KeyOperation)
    ensures var r := ApplyKeyOperation(actors, op);
      && SameShape(actors, r)
      && forall i, j :: 0 <= i < |actors| && 0 <= j < |actors[i].methods| ==>
        (r[i].methods[j].keyOperation <==>
          actors[i].methods[j].keyOperation
          || (FindActor(actors, op.canister) == i && actors[i].methods[j].name in op.keys))
  {
  }

  /** `buildTargets`' flagging as a whole: shape unchanged, and a method is
      flagged afterwards iff it was before or some key operation names it on
      the first actor for its canister. */
  lemma {:induction false} KeyOperationsEffect(actors: seq<ActorItem>, ops: seq<KeyOperation>)
    ensures SameShape(actors, ApplyKeyOperations(actors, ops))
    ensures forall i, j :: 0 <= i < |actors| && 0 <= j < |actors[i].methods| ==>
      (ApplyKeyOperations(actors, ops)[i].methods[j].keyOperation <==>
        actors[i].methods[j].keyOperation || Marked(actors, ops, i, j))
    decreases |ops|
  {
    if ops != [] {
      var front := ops[..|ops| - 1];
      var op := ops[|ops| - 1];
      var mid := ApplyKeyOperations(actors, front);
      var r := ApplyKeyOperations(actors, ops);
      KeyOperationsEffect(actors, front);
      KeyOperationEffect(mid, op);
      FindActorSameShape(actors, mid, op.canister);
      assert r == ApplyKeyOperation(mid, op);
      forall i, j | 0 <= i < |actors| && 0 <= j < |actors[i].methods|
        ensures r[i].methods[j].keyOperation <==> actors[i].methods[j].keyOperation || Marked(actors, ops, i, j)
      {
        assert mid[i].methods[j].name == actors[i].methods[j].name;
        if Marked(actors, ops, i, j) {
          var k :| 0 <= k < |ops| && FindActor(actors, ops[k].canister) == i
            && actors[i].methods[j].name in ops[k].keys;
          if k < |ops| - 1 {
            assert front[k] == ops[k];
            assert Marked(actors, front, i, j);
          }
        }
        if Marked(actors, front, i, j) {
          var k :| 0 <= k < |front| && FindActor(actors, front[k].canister) == i
            && actors[i].methods[j].name in front[k].keys;
          assert ops[k] == front[k];
        }
        if FindActor(actors, op.canister) == i && actors[i].methods[j].name in op.keys {
          assert ops[|ops| - 1] == op;
        }
      }
    }
  }

  /** The `[name, method]` pairs of an actor, in order. */
  function ToTargetItem(a: ActorItem): (t: TargetItem)
    ensures t.canister == Principal(a.canister) && |t.methods| == |a.methods|
    ensures forall j :: 0 <= j < |a.methods| ==> t.methods[j] == (a.methods[j].name, a.methods[j])
  {
    TargetItem(Principal(a.canister), seq(|a.methods|, j requires 0 <= j < |a.methods| => (a.methods[j].name, a.methods[j])))
  }

  /** The expiration field: empty when absent or zero (the falsy values). */
  function ExpirationField(expiration: Option<int>): (r: Option<int>)
    ensures r.Some? <==> expiration.Some? && expiration.value != 0
    ensures r.Some? ==> r == expiration
  {
    if expiration.Some? && expiration.value != 0 then expiration else None
  }

  /** `ProxyTargets`: the client's actors and the grant's optional expiration. */
  class ProxyTargets {
    var actors: seq<ActorItem>
    const expiration: Option<int>

    constructor (actors: seq<ActorItem>, expiration: Option<int>)
      ensures this.actors == actors && this.expiration == expiration
    {
      this.actors := actors;
      this.expiration := expiration;
    }

    /** Flags the key operations on the stored actors (the flags stay set for
        later calls), then lists one target per actor. */
    method BuildTargets(keyOperations: Option<seq<KeyOperation>>) returns (t: Targets)
      modifies this
      ensures actors == if keyOperations.Some? then ApplyKeyOperations(old(actors), keyOperations.value)
                        else old(actors)
      ensures t.expiration == ExpirationField(expiration)
      ensures |t.targets| == |actors|
      ensures forall i :: 0 <= i < |actors| ==> t.targets[i] == ToTargetItem(actors[i])
    {
      if keyOperations.Some? {
        var ops := keyOperations.value;
        var index := 0;
        while index < |ops|
          invariant 0 <= index <= |ops|
          invariant actors == ApplyKeyOperations(old(actors), ops[..index])
        {
          var element := ops[index];
          var foundIndex := FindActor(actors, element.canister);
          if foundIndex > -1 {
            var foundActor := actors[foundIndex];
            var methods := foundActor.methods;
            var j := 0;
            while j < |methods|
              invariant 0 <= j <= |methods| == |foundActor.methods|
              invariant forall m :: 0 <= m < j ==> methods[m] == MarkKey(foundActor.methods[m], element.keys)
              invariant forall m :: j <= m < |methods| ==> methods[m] == foundActor.methods[m]
            {
              var found := FindKey(element.keys, methods[j].name);
              if found > -1 {
                methods := methods[j := methods[j].(keyOperation := true)];
              }
              j := j + 1;
            }
            assert methods == MarkKeys(foundActor.methods, element.keys);
            actors := actors[foundIndex := foundActor.(methods := methods)];
          }
          assert ops[..index + 1][..index] == ops[..index];
          index := index + 1;
        }
        assert ops[..|ops|] == ops;
      }
      var items := actors;
      var targets := seq(|items|, i requires 0 <= i < |items| => ToTargetItem(items[i]));
      t := Targets(ExpirationField(expiration), targets);
    }
  }

  // ---------------------------------------------------------------------
  // Polling the confirmation queue

  /** What an awaited query to the wallet yields: its answer, or the error the
      agent throws (for example when the caller guard traps). */
  type Answer<T> = Result<T, string>

  /** What the poll reports: the approved call's answer, if any, and whether
      the owner rejected the call. */
  datatype PollResult = PollResult(result: Option<CallOutcome>, reject: bool)

  /** A reply that ends the poll: anything but a recorded `NotFound`. */
  predicate Terminal(reply: Option<OwnerReply>)
  {
    reply != Some(NotFound)
  }

  /** The poll stops at this answer: a thrown query or a terminal reply. */
  predicate Stops(answer: Answer<Option<OwnerReply>>)
  {
    answer.Err? || Terminal(answer.value)
  }

  /** The poll result for the reply it stopped at. */
  function StopResult(reply: Option<OwnerReply>): PollResult
  {
    match reply
    case Some(Rejected(_)) => PollResult(None, true)
    case Some(Approved(x)) => PollResult(Some(x), false)
    case _ => PollResult(None, false)
  }

  /** How many times a `for (i = 0; i < totalRetries; i++)` loop can run. */
  function MaxAttempts(totalRetries: int): nat
  {
    if totalRetries > 0 then totalRetries else 0
  }

  /** `pollQueueMethod`: asks `get_queue_reply` until an answer other than
      `NotFound` arrives or the attempts run out; on such an answer it asks
      once to remove the hash (`removed` records the removals it issues). A
      query that throws ends the poll with that error and no removal. */
  method PollQueueMethod(hash: Hash, totalRetries: int, answers: nat -> Answer<Option<OwnerReply>>)
    returns (p: Answer<PollResult>, attempts: nat, removed: seq<Hash>)
    ensures attempts <= MaxAttempts(totalRetries)
    ensures forall j :: 0 <= j < attempts - 1 ==> answers(j) == Ok(Some(NotFound))
    ensures removed == [] || removed == [hash]
    ensures p.Err? <==> attempts > 0 && answers(attempts - 1).Err?
    ensures p.Err? ==> attempts > 0 && p.error == answers(attempts - 1).error && removed == []
    ensures removed == [hash] <==> attempts > 0 && answers(attempts - 1).Ok? && Terminal(answers(attempts - 1).value)
    ensures removed == [hash] ==> attempts > 0 && p == Ok(StopResult(answers(attempts - 1).value))
    ensures removed == [] && p.Ok? ==>
      && attempts == MaxAttempts(totalRetries)
      && p == Ok(PollResult(None, false))
      && forall j :: 0 <= j < attempts ==> answers(j) == Ok(Some(NotFound))
  {
    var result: Option<CallOutcome> := None;
    var reject := false;
    var thrown: Option<string> := None;
    removed := [];
    attempts := 0;
    var i := 0;
    while i < totalRetries
      invariant 0 <= i <= MaxAttempts(totalRetries)
      invariant attempts == i && removed == [] && result == None && !reject && thrown == None
      invariant forall j :: 0 <= j < i ==> answers(j) == Ok(Some(NotFound))
    {
      var out := false;
      attempts := attempts + 1;
      var answer := answers(i);
      if answer.Err? {
        thrown := Some(answer.error);
        break;
      }
      var rp := answer.value;
      if rp.Some? {
        match rp.value {
          case NotFound =>
            out := false;
          case Rejected(_) =>
            reject := true;
            out := true;
          case Approved(x) =>
            result := Some(x);
            reject := false;
            out := true;
        }
      } else {
        out := true;
      }
      if out {
        removed := removed + [hash];
        break;
      }
      i := i + 1;
    }
    p := if thrown.Some? then Err(thrown.value) else Ok(PollResult(result, reject));
  }

  // ---------------------------------------------------------------------
  // A proxied method call

  /** What a proxied method call ends with: a return value or a thrown error. */
  datatype Invocation<V> = Returned(value: ReturnValue<V>) | Thrown(message: string)

  const RejectedMessage: string := "Owner has rejected this call"
  const NoResponseMessage: string := "No response"

  /** The poll attempts `caller` allows. */
  const CallerRetries: int := 3

  /** How `caller` turns a poll result into its outcome. */
  function PollOutcome<V>(p: Answer<PollResult>, decode: Bytes -> seq<V>): Invocation<V>
  {
    match p
    case Err(e) => Thrown(e)
    case Ok(q) =>
      if q.reject then Thrown(RejectedMessage)
      else match q.result
        case Some(Ok(res)) => Returned(DecodeReturnValue(decode(res.ret)))
        case Some(Err(e)) => Thrown(e)
        case None => Thrown(NoResponseMessage)
  }

  /** The outcome the answer that ended the poll stands for. */
  function AnswerOutcome<V>(answer: Answer<Option<OwnerReply>>, decode: Bytes -> seq<V>): Invocation<V>
  {
    match answer
    case Err(e) => Thrown(e)
    case Ok(Some(Rejected(_))) => Thrown(RejectedMessage)
    case Ok(Some(Approved(Ok(res)))) => Returned(DecodeReturnValue(decode(res.ret)))
    case Ok(Some(Approved(Err(e)))) => Thrown(e)
    case _ => Thrown(NoResponseMessage)
  }

  /** `caller`: a `proxy_call` that throws (the wallet trapped) throws its
      error; a direct answer is decoded; otherwise the error text is taken as
      a queue hash and polled, and the call returns the approved answer or
      throws ("Owner has rejected this call", the call's error, the poll's
      error, "No response"). A genuine error text is not a queued hash: its
      first poll answer is absent, and the call throws "No response" instead
      of that error. */
  method InvokeThroughWallet<V>(response: Answer<CallOutcome>, answers: nat -> Answer<Option<OwnerReply>>,
                                decode: Bytes -> seq<V>)
    returns (r: Invocation<V>, attempts: nat, removed: seq<Hash>)
    ensures response.Err? ==> r == Thrown(response.error) && attempts == 0 && removed == []
    ensures response.Ok? && response.value.Ok? ==>
      r == Returned(DecodeReturnValue(decode(response.value.value.ret))) && attempts == 0 && removed == []
    ensures response.Ok? && response.value.Err? ==>
      && attempts <= CallerRetries
      && (forall j :: 0 <= j < attempts - 1 ==> answers(j) == Ok(Some(NotFound)))
      && (removed == [response.value.error] <==>
            attempts > 0 && answers(attempts - 1).Ok? && Terminal(answers(attempts - 1).value))
      && (removed == [] || removed == [response.value.error])
      && (attempts > 0 && Stops(answers(attempts - 1)) ==> r == AnswerOutcome(answers(attempts - 1), decode))
      && (!(attempts > 0 && Stops(answers(attempts - 1))) ==>
            && attempts == CallerRetries
            && r == Thrown(NoResponseMessage)
            && forall j :: 0 <= j < CallerRetries ==> answers(j) == Ok(Some(NotFound)))
    ensures response.Ok? && response.value.Err? && answers(0) == Ok(None) ==>
      r == Thrown(NoResponseMessage) && removed == [response.value.error]
  {
    match response {
      case Err(e) =>
        r, attempts, removed := Thrown(e), 0, [];
      case Ok(Ok(res)) =>
        r, attempts, removed := Returned(DecodeReturnValue(decode(res.ret))), 0, [];
      case Ok(Err(hash)) =>
        var p;
        p, attempts, removed := PollQueueMethod(hash, CallerRetries, answers);
        r := PollOutcome(p, decode);
    }
  }
}
