/**
 The wallet store and its service operations: grants with expiry, the
 blacklist of target canisters, the expiry-period setting, the validation mode
 and the queue of calls waiting for the owner's decision.

 Queries are functions of a `StoreState`, the value the store holds; the
 operations that change the store are methods of the class `WalletStore`,
 whose fields are that state, each specified by the new `State()` it leaves.
 The current time, read by the canister from the system, is the parameter
 `now` (nanoseconds); the SHA-256 digest is the parameter `digest`.
 */
module Service {
  import opened Types

  /** Seven days in nanoseconds: the expiry period of a fresh store. */
  const DefaultExpiryPeriod: nat := 7 * 24 * 60 * 60 * 1000 * 1000 * 1000

  /** SHA-256 over user, target canister, method name and time, as hex text. */
  type Digest = (Principal, Principal, string, nat) -> Hash

  /** Everything the wallet store holds. */
  datatype StoreState = StoreState(
    expiryUsers: map<Principal, ExpiryUser>,
    expiryPeriod: nat,
    proxyBlackList: map<Principal, string>,
    callQueue: map<Hash, MethodQueueItem>,
    validateType: MethodValidationType)

  /** The store invariant: each grant is filed under its own user and each
      queued call under its own hash. */
  predicate WellFormed(st: StoreState)
  {
    && (forall u :: u in st.expiryUsers ==> st.expiryUsers[u].user == u)
    && (forall h :: h in st.callQueue ==> st.callQueue[h].hash == h)
  }

  // ---------------------------------------------------------------------
  // Target lists of a grant

  /** The entry lists method `name` for `canister`. */
  predicate ListsMethod(item: ProxyActorItem, canister: Principal, name: string)
  {
    item.canister == canister && name in item.methods
  }

  /** The entry lists method `name` for `canister` and flags it as a key operation. */
  predicate FlagsKey(item: ProxyActorItem, canister: Principal, name: string)
  {
    ListsMethod(item, canister, name) && item.methods[name].keyOperation
  }

  /** Some entry of the list is for `canister` (`iter().any`). */
  function AnyCanister(list: seq<ProxyActorItem>, canister: Principal): (r: bool)
    ensures r <==> exists i :: 0 <= i < |list| && list[i].canister == canister
  {
    if list == [] then false
    else if list[0].canister == canister then true
    else
      var rest := AnyCanister(list[1..], canister);
      assert forall i :: 0 < i < |list| ==> list[i] == list[1..][i - 1];
      rest
  }

  /** Some entry of the list is for `canister` and lists `name`. */
  function AnyListedMethod(list: seq<ProxyActorItem>, canister: Principal, name: string): (r: bool)
    ensures r <==> exists i :: 0 <= i < |list| && ListsMethod(list[i], canister, name)
  {
    if list == [] then false
    else if ListsMethod(list[0], canister, name) then true
    else
      var rest := AnyListedMethod(list[1..], canister, name);
      assert forall i :: 0 < i < |list| ==> list[i] == list[1..][i - 1];
      rest
  }

  /** Some entry of the list is for `canister` and flags `name` as a key operation
      (`iter().find(..).is_some()`). */
  function AnyKeyOperation(list: seq<ProxyActorItem>, canister: Principal, name: string): (r: bool)
    ensures r <==> exists i :: 0 <= i < |list| && FlagsKey(list[i], canister, name)
  {
    if list == [] then false
    else if FlagsKey(list[0], canister, name) then true
    else
      var rest := AnyKeyOperation(list[1..], canister, name);
      assert forall i :: 0 < i < |list| ==> list[i] == list[1..][i - 1];
      rest
  }

  /** The call kind of `name` in the first entry for `canister` that lists it. */
  function FirstMethodType(list: seq<ProxyActorItem>, canister: Principal, name: string): (r: Option<MethodType>)
    ensures r.None? <==> forall i :: 0 <= i < |list| ==> !ListsMethod(list[i], canister, name)
    ensures r.Some? ==>
      exists i :: 0 <= i < |list| && ListsMethod(list[i], canister, name)
        && list[i].methods[name].methodType == r.value
        && forall j :: 0 <= j < i ==> !ListsMethod(list[j], canister, name)
  {
    if list == [] then None
    else if ListsMethod(list[0], canister, name) then Some(list[0].methods[name].methodType)
    else
      var rest := FirstMethodType(list[1..], canister, name);
      assert forall i :: 0 < i < |list| ==> list[i] == list[1..][i - 1];
      if rest.Some? then
        var k :| 0 <= k < |list| - 1 && ListsMethod(list[1..][k], canister, name)
          && list[1..][k].methods[name].methodType == rest.value
          && forall j :: 0 <= j < k ==> !ListsMethod(list[1..][j], canister, name);
        assert ListsMethod(list[k + 1], canister, name);
        assert forall j :: 0 <= j < k + 1 ==> !ListsMethod(list[j], canister, name);
        rest
      else rest
  }

  // ---------------------------------------------------------------------
  // Grant queries

  function GetExpiryUser(st: StoreState, user: Principal): (r: Option<ExpiryUser>)
    ensures r.Some? <==> user in st.expiryUsers
    ensures r.Some? ==> r.value == st.expiryUsers[user]
  {
    if user in st.expiryUsers then Some(st.expiryUsers[user]) else None
  }

  /** The user's grant has an entry for `canister` (expiry is not consulted). */
  function IsValidCanister(st: StoreState, user: Principal, canister: Principal): (r: bool)
    ensures r <==> (user in st.expiryUsers &&
      exists i :: 0 <= i < |st.expiryUsers[user].targetList|
        && st.expiryUsers[user].targetList[i].canister == canister)
  {
    match GetExpiryUser(st, user)
    case None => false
    case Some(g) => AnyCanister(g.targetList, canister)
  }

  /** The user's grant lists method `name` of `canister`. */
  function IsValidCanisterMethod(st: StoreState, user: Principal, canister: Principal, name: string): (r: bool)
    ensures r <==> (user in st.expiryUsers &&
      exists i :: 0 <= i < |st.expiryUsers[user].targetList|
        && ListsMethod(st.expiryUsers[user].targetList[i], canister, name))
  {
    match GetExpiryUser(st, user)
    case None => false
    case Some(g) => AnyListedMethod(g.targetList, canister, name)
  }

  /** The user's grant flags method `name` of `canister` as a key operation. */
  function IsMethodKeyOper(st: StoreState, user: Principal, canister: Principal, name: string): (r: bool)
    ensures r <==> (user in st.expiryUsers &&
      exists i :: 0 <= i < |st.expiryUsers[user].targetList|
        && FlagsKey(st.expiryUsers[user].targetList[i], canister, name))
  {
    match GetExpiryUser(st, user)
    case None => false
    case Some(g) => AnyKeyOperation(g.targetList, canister, name)
  }

  /** The call kind the user's grant records for method `name` of `canister`:
      that of the first entry for `canister` listing it. */
  function GetMethodType(st: StoreState, user: Principal, canister: Principal, name: string): (r: Option<MethodType>)
    ensures r.Some? <==> IsValidCanisterMethod(st, user, canister, name)
    ensures r.Some? ==>
      exists i :: 0 <= i < |st.expiryUsers[user].targetList|
        && ListsMethod(st.expiryUsers[user].targetList[i], canister, name)
        && st.expiryUsers[user].targetList[i].methods[name].methodType == r.value
  {
    match GetExpiryUser(st, user)
    case None => None
    case Some(g) => FirstMethodType(g.targetList, canister, name)
  }

  /** The three grant checks are nested: a key operation is a granted method,
      a granted method is of a granted canister, and without a grant nothing is. */
  lemma GrantChecksNest(st: StoreState, user: Principal, canister: Principal, name: string)
    ensures IsMethodKeyOper(st, user, canister, name) ==> IsValidCanisterMethod(st, user, canister, name)
    ensures IsValidCanisterMethod(st, user, canister, name) ==> IsValidCanister(st, user, canister)
    ensures user !in st.expiryUsers ==>
      !IsValidCanister(st, user, canister) && !IsValidCanisterMethod(st, user, canister, name)
      && !IsMethodKeyOper(st, user, canister, name)
  {
    if IsMethodKeyOper(st, user, canister, name) {
      var l := st.expiryUsers[user].targetList;
      var i :| 0 <= i < |l| && FlagsKey(l[i], canister, name);
      assert ListsMethod(l[i], canister, name);
    }
    if IsValidCanisterMethod(st, user, canister, name) {
      var l := st.expiryUsers[user].targetList;
      var i :| 0 <= i < |l| && ListsMethod(l[i], canister, name);
      assert l[i].canister == canister;
    }
  }

  // ---------------------------------------------------------------------
  // Expiry

  /** `is_valid_user`'s test as written: the grant's timestamp plus the
      CURRENT expiry period has not passed. */
  predicate UserValid(st: StoreState, user: Principal, now: nat)
  {
    user in st.expiryUsers && now <= st.expiryUsers[user].timestamp + st.expiryPeriod
  }

  /** Corrected validity: the grant's own expiry timestamp has not passed. */
  predicate UserValidByExpiry(st: StoreState, user: Principal, now: nat)
  {
    user in st.expiryUsers && now <= st.expiryUsers[user].expiryTimestamp
  }

  /** `remove_if_expiry`'s test as written: the grant is still inside its period. */
  predicate RemovedAsWritten(g: ExpiryUser, period: nat, now: nat)
  {
    now < g.timestamp + period
  }

  /** The grants `remove_all_expiries` leaves, as written. */
  function SweepAsWritten(users: map<Principal, ExpiryUser>, period: nat, now: nat): (r: map<Principal, ExpiryUser>)
    ensures forall u :: u in r ==> u in users && r[u] == users[u]
  {
    map u | u in users && !RemovedAsWritten(users[u], period, now) :: users[u]
  }

  /** The grants a sweep of expired grants should leave. */
  function SweepExpired(users: map<Principal, ExpiryUser>, period: nat, now: nat): (r: map<Principal, ExpiryUser>)
    ensures forall u :: u in r ==> u in users && r[u] == users[u]
  {
    map u | u in users && now <= users[u].timestamp + period :: users[u]
  }

  /** As written, the sweep deletes every grant `is_valid_user` would accept,
      except one exactly at its boundary, and keeps every expired one. */
  lemma SweepAsWrittenIsInverted(st: StoreState, user: Principal, now: nat)
    requires user in st.expiryUsers
    ensures UserValid(st, user, now) && now != st.expiryUsers[user].timestamp + st.expiryPeriod
      ==> user !in SweepAsWritten(st.expiryUsers, st.expiryPeriod, now)
    ensures !UserValid(st, user, now) ==> user in SweepAsWritten(st.expiryUsers, st.expiryPeriod, now)
  {
  }

  /** A concrete instance: a grant made at `now` under a positive period is
      valid, yet the sweep that `add_expiry_user` runs for anyone deletes it. */
  lemma SweepAsWrittenDropsFreshGrant(u: Principal, now: nat)
    ensures
      var g := ExpiryUser(u, now, now + DefaultExpiryPeriod, []);
      var st := StoreState(map[u := g], DefaultExpiryPeriod, map[], map[], ALL);
      UserValid(st, u, now) && u !in SweepAsWritten(st.expiryUsers, st.expiryPeriod, now)
  {
  }

  /** The corrected sweep keeps exactly the grants `is_valid_user` accepts. */
  lemma SweepExpiredKeepsValid(st: StoreState, now: nat)
    ensures forall u :: u in SweepExpired(st.expiryUsers, st.expiryPeriod, now) <==> UserValid(st, u, now)
  {
  }

  /** As written, validity ignores the grant's own expiration: a grant made
      with an expiration shorter than the period is still valid after it. */
  lemma ShortGrantOutlivesExpiration(u: Principal, t: nat, e: nat)
    requires e + 1 < DefaultExpiryPeriod
    ensures
      var g := ExpiryUser(u, t, t + e, []);
      var st := StoreState(map[u := g], DefaultExpiryPeriod, map[], map[], ALL);
      UserValid(st, u, t + e + 1) && !UserValidByExpiry(st, u, t + e + 1)
  {
  }

  /** The grant `add_expiry_user` stores at `now` with validity `e`: under the
      corrected test it is valid exactly up to `now + e`. The test as written
      disagrees both ways: with `e` below the period it still accepts the
      grant after `now + e`, with `e` above the period it already rejects it
      after `now + period`. */
  lemma GrantValidUntilExpiration(st: StoreState, user: Principal, now: nat, e: nat, targets: seq<ProxyActorItem>)
    ensures var st' := st.(expiryUsers := st.expiryUsers[user := ExpiryUser(user, now, now + e, targets)]);
      && (forall t: nat :: UserValidByExpiry(st', user, t) <==> t <= now + e)
      && (e < st.expiryPeriod ==> UserValid(st', user, now + e + 1) && !UserValidByExpiry(st', user, now + e + 1))
      && (st.expiryPeriod < e ==>
            !UserValid(st', user, now + st.expiryPeriod + 1) && UserValidByExpiry(st', user, now + st.expiryPeriod + 1))
  {
  }

  /** What the integration tests rely on: a grant made under the default
      period is revoked as soon as the owner shortens the period, although its
      own expiry timestamp is a week away. Only the test as written does that. */
  lemma ShorterPeriodRevokesGrant(u: Principal, t: nat, period: nat)
    requires period < DefaultExpiryPeriod
    ensures
      var g := ExpiryUser(u, t, t + DefaultExpiryPeriod, []);
      var st := StoreState(map[u := g], period, map[], map[], ALL);
      !UserValid(st, u, t + period + 1) && UserValidByExpiry(st, u, t + period + 1)
  {
  }

  // ---------------------------------------------------------------------
  // The call queue

  /** The queue entry for a call deferred by `user`: named by the digest of
      user, canister, method name and time (the argument bytes are not hashed),
      with no owner reply yet. */
  function HashMethod(user: Principal, args: CallCanisterArgs, now: nat, digest: Digest): (item: MethodQueueItem)
    ensures item.hash == digest(user, args.canister, args.methodName, now)
    ensures item.user == user && item.timeStamp == now && item.payload == args
    ensures item.ownerReply == NotFound
  {
    MethodQueueItem(digest(user, args.canister, args.methodName, now), user, now, args, NotFound)
  }

  /** Two calls by the same user to the same method at the same time get the
      same hash, whatever their arguments and cycles. */
  lemma HashIgnoresArguments(user: Principal, a: CallCanisterArgs, b: CallCanisterArgs, now: nat, digest: Digest)
    requires a.canister == b.canister && a.methodName == b.methodName
    ensures HashMethod(user, a, now, digest).hash == HashMethod(user, b, now, digest).hash
  {
  }

  /** The queue after `entry(item.hash).or_insert(item)`: insert if absent. */
  function QueueInsert(queue: map<Hash, MethodQueueItem>, item: MethodQueueItem): (r: map<Hash, MethodQueueItem>)
    ensures item.hash in r && r[item.hash] == if item.hash in queue then queue[item.hash] else item
    ensures forall h :: h != item.hash ==> (h in r <==> h in queue) && (h in queue ==> r[h] == queue[h])
  {
    if item.hash in queue then queue else queue[item.hash := item]
  }

  /** The queue after writing `reply` into the entry for `hash`, if there is one. */
  function QueueSetReply(queue: map<Hash, MethodQueueItem>, hash: Hash, reply: OwnerReply): (r: map<Hash, MethodQueueItem>)
    ensures r.Keys == queue.Keys
    ensures hash in queue ==> r[hash] == queue[hash].(ownerReply := reply)
    ensures forall h :: h in queue && h != hash ==> r[h] == queue[h]
  {
    if hash in queue then queue[hash := queue[hash].(ownerReply := reply)] else queue
  }

  function GetQueueMethod(st: StoreState, hash: Hash): (r: Option<MethodQueueItem>)
    ensures r.Some? <==> hash in st.callQueue
    ensures r.Some? ==> r.value == st.callQueue[hash]
  {
    if hash in st.callQueue then Some(st.callQueue[hash]) else None
  }

  /** The owner reply recorded for `hash`, if the hash is queued. */
  function GetQueueReply(st: StoreState, hash: Hash): (r: Option<OwnerReply>)
    ensures r.Some? <==> hash in st.callQueue
    ensures r.Some? ==> r.value == st.callQueue[hash].ownerReply
  {
    match GetQueueMethod(st, hash)
    case None => None
    case Some(item) => Some(item.ownerReply)
  }

  /** A reply written into the queue is the one read back for that hash, and
      the replies of other hashes are untouched. */
  lemma ReplyWrittenIsRead(st: StoreState, hash: Hash, reply: OwnerReply, other: Hash)
    requires hash in st.callQueue
    ensures var st' := st.(callQueue := QueueSetReply(st.callQueue, hash, reply));
      GetQueueReply(st', hash) == Some(reply)
      && (other != hash ==> GetQueueReply(st', other) == GetQueueReply(st, other))
  {
  }

  function Summary(item: MethodQueueItem): QueueHash
  {
    QueueHash(item.hash, item.user, item.timeStamp)
  }

  /** `get_queue_unconfirmed` as written: the summaries of the user's queued
      calls that already HAVE an owner reply. */
  function GetQueueUnconfirmed(st: StoreState, user: Principal): (r: set<QueueHash>)
    requires WellFormed(st)
    ensures forall h :: h in st.callQueue ==>
      (Summary(st.callQueue[h]) in r <==>
        st.callQueue[h].user == user && st.callQueue[h].ownerReply != NotFound)
    ensures forall q :: q in r ==> q.hash in st.callQueue && q == Summary(st.callQueue[q.hash])
  {
    set h | h in st.callQueue && st.callQueue[h].user == user && st.callQueue[h].ownerReply != NotFound
      :: Summary(st.callQueue[h])
  }

  /** Corrected: the summaries of the user's queued calls still awaiting a reply. */
  function GetQueuePending(st: StoreState, user: Principal): (r: set<QueueHash>)
    requires WellFormed(st)
    ensures forall h :: h in st.callQueue ==>
      (Summary(st.callQueue[h]) in r <==>
        st.callQueue[h].user == user && st.callQueue[h].ownerReply == NotFound)
    ensures forall q :: q in r ==> q.hash in st.callQueue && q == Summary(st.callQueue[q.hash])
  {
    set h | h in st.callQueue && st.callQueue[h].user == user && st.callQueue[h].ownerReply == NotFound
      :: Summary(st.callQueue[h])
  }

  /** As written, a call just deferred (no reply yet) is never listed as
      unconfirmed; the corrected listing always shows it. */
  lemma DeferredCallIsNotUnconfirmed(st: StoreState, user: Principal, args: CallCanisterArgs, now: nat, digest: Digest)
    requires WellFormed(st)
    ensures var item := HashMethod(user, args, now, digest);
      var st' := st.(callQueue := QueueInsert(st.callQueue, item));
      WellFormed(st') &&
      (st'.callQueue[item.hash] == item ==>
        Summary(item) !in GetQueueUnconfirmed(st', user) && Summary(item) in GetQueuePending(st', user))
  {
  }

  // ---------------------------------------------------------------------
  // Blacklist

  /** The target canister is on the proxy blacklist. */
  predicate IsProxyBlackList(st: StoreState, target: Principal)
  {
    target in st.proxyBlackList
  }

  /** Adding a target blacklists it and removing it lifts that; neither
      changes the standing of any other target. */
  lemma BlackListUpdates(st: StoreState, target: Principal, text: string, other: Principal)
    requires other != target
    ensures var added := st.(proxyBlackList := st.proxyBlackList[target := text]);
      IsProxyBlackList(added, target) && IsProxyBlackList(added, other) == IsProxyBlackList(st, other)
    ensures var removed := st.(proxyBlackList := st.proxyBlackList - {target});
      !IsProxyBlackList(removed, target) && IsProxyBlackList(removed, other) == IsProxyBlackList(st, other)
  {
  }

  // ---------------------------------------------------------------------
  // The store

  /** The store a fresh canister starts with, under validation mode `mode`. */
  function DefaultStore(mode: MethodValidationType): (st: StoreState)
    ensures WellFormed(st)
    ensures st.expiryUsers == map[] && st.proxyBlackList == map[] && st.callQueue == map[]
    ensures st.expiryPeriod == 604_800_000_000_000 && st.validateType == mode
  {
    StoreState(map[], DefaultExpiryPeriod, map[], map[], mode)
  }

  class WalletStore {
    var expiryUsers: map<Principal, ExpiryUser>
    var expiryPeriod: nat
    var proxyBlackList: map<Principal, string>
    var callQueue: map<Hash, MethodQueueItem>
    var validateType: MethodValidationType

    function State(): StoreState
      reads this
    {
      StoreState(expiryUsers, expiryPeriod, proxyBlackList, callQueue, validateType)
    }

    predicate Valid()
      reads this
    {
      WellFormed(State())
    }

    /** `WalletStore::default()`. */
    constructor (mode: MethodValidationType)
      ensures Valid() && State() == DefaultStore(mode)
    {
      expiryUsers := map[];
      expiryPeriod := DefaultExpiryPeriod;
      proxyBlackList := map[];
      callQueue := map[];
      validateType := mode;
    }

    /** Puts back a state saved earlier: what a trap does to the changes a
        message made before it. */
    method Rollback(saved: StoreState)
      requires WellFormed(saved)
      modifies this
      ensures Valid() && State() == saved
    {
      expiryUsers := saved.expiryUsers;
      expiryPeriod := saved.expiryPeriod;
      proxyBlackList := saved.proxyBlackList;
      callQueue := saved.callQueue;
      validateType := saved.validateType;
    }

    method RemoveExpiryUser(user: Principal) returns (r: Option<ExpiryUser>)
      requires Valid()
      modifies this
      ensures Valid()
      ensures r == GetExpiryUser(old(State()), user)
      ensures State() == old(State()).(expiryUsers := old(expiryUsers) - {user})
    {
      r := GetExpiryUser(State(), user);
      expiryUsers := expiryUsers - {user};
    }

    /** Deletes the user's grant when it is still inside its period (as written). */
    method RemoveIfExpiry(user: Principal, now: nat)
      requires Valid()
      modifies this
      ensures Valid()
      ensures State() == old(State()).(expiryUsers :=
        if user in old(expiryUsers) && RemovedAsWritten(old(expiryUsers)[user], expiryPeriod, now)
        then old(expiryUsers) - {user} else old(expiryUsers))
    {
      match GetExpiryUser(State(), user) {
        case None =>
        case Some(f) =>
          if now < f.timestamp + expiryPeriod {
            var _ := RemoveExpiryUser(user);
          }
      }
    }

    /** Runs `RemoveIfExpiry` for the user of every grant. */
    method RemoveAllExpiries(now: nat)
      requires Valid()
      modifies this
      ensures Valid()
      ensures State() == old(State()).(expiryUsers := SweepAsWritten(old(expiryUsers), expiryPeriod, now))
    {
      var allUsers := set u | u in expiryUsers :: expiryUsers[u].user;
      assert allUsers == old(expiryUsers).Keys;
      var todo := allUsers;
      while todo != {}
        invariant Valid()
        invariant todo <= old(expiryUsers).Keys
        invariant State() == old(State()).(expiryUsers := expiryUsers)
        invariant forall u :: u in expiryUsers ==> u in old(expiryUsers) && expiryUsers[u] == old(expiryUsers)[u]
        invariant forall u :: u in todo ==> u in expiryUsers
        invariant forall u :: u in old(expiryUsers) && u !in todo ==>
          (u in expiryUsers <==> !RemovedAsWritten(old(expiryUsers)[u], expiryPeriod, now))
        decreases todo
      {
        var u :| u in todo;
        RemoveIfExpiry(u, now);
        todo := todo - {u};
      }
      assert expiryUsers == SweepAsWritten(old(expiryUsers), expiryPeriod, now);
    }

    /** Sweeps grants (as written), then stores a new grant for `user`,
        replacing any earlier one. */
    method AddExpiryUser(user: Principal, targets: ProxyActorTargets, now: nat) returns (rt: ExpiryUser)
      requires Valid()
      modifies this
      ensures Valid()
      ensures rt.user == user && rt.timestamp == now && rt.targetList == targets.targets
      ensures rt.expiryTimestamp == now + match targets.expiration
        case Some(e) => e
        case None => old(expiryPeriod)
      ensures State() == old(State()).(expiryUsers :=
        SweepAsWritten(old(expiryUsers), old(expiryPeriod), now)[user := rt])
      ensures forall t: nat :: UserValidByExpiry(State(), user, t) <==> t <= rt.expiryTimestamp
    {
      RemoveAllExpiries(now);
      var actualPeriod := match targets.expiration
        case Some(v) => v
        case None => expiryPeriod;
      rt := ExpiryUser(user, now, actualPeriod + now, targets.targets);
      expiryUsers := expiryUsers[user := rt];
    }

    /** `is_valid_user`: true iff the grant passes the test as written; an
        existing grant that fails it is deleted. */
    method IsValidUser(user: Principal, now: nat) returns (valid: bool)
      requires Valid()
      modifies this
      ensures Valid()
      ensures valid == UserValid(old(State()), user, now)
      ensures State() ==
        if user in old(expiryUsers) && !valid
        then old(State()).(expiryUsers := old(expiryUsers) - {user})
        else old(State())
    {
      match GetExpiryUser(State(), user) {
        case None =>
          valid := false;
        case Some(r) =>
          if r.timestamp + expiryPeriod < now {
            var _ := RemoveExpiryUser(user);
            valid := false;
          } else {
            valid := true;
          }
      }
    }

    /** Adds `target` to the blacklist with its text, unless already there;
        returns the text stored for it. */
    method AddProxyBlackList(target: Principal) returns (text: string)
      requires Valid()
      modifies this
      ensures Valid()
      ensures text == if target in old(proxyBlackList) then old(proxyBlackList)[target] else target.text
      ensures State() == old(State()).(proxyBlackList := old(proxyBlackList)[target := text])
    {
      if target !in proxyBlackList {
        proxyBlackList := proxyBlackList[target := target.text];
      }
      text := proxyBlackList[target];
    }

    /** Removes `target` from the blacklist, returning the text it had. */
    method RemoveProxyBlackList(target: Principal) returns (r: Option<string>)
      requires Valid()
      modifies this
      ensures Valid()
      ensures r == if target in old(proxyBlackList) then Some(old(proxyBlackList)[target]) else None
      ensures State() == old(State()).(proxyBlackList := old(proxyBlackList) - {target})
    {
      r := if target in proxyBlackList then Some(proxyBlackList[target]) else None;
      proxyBlackList := proxyBlackList - {target};
    }

    method SetExpiryPeriod(secs: nat)
      requires Valid()
      modifies this
      ensures Valid()
      ensures State() == old(State()).(expiryPeriod := secs)
    {
      expiryPeriod := secs;
    }

    method SetMethodValidateType(mode: MethodValidationType)
      requires Valid()
      modifies this
      ensures Valid()
      ensures State() == old(State()).(validateType := mode)
    {
      validateType := mode;
    }

    /** Queues `item` under its hash unless that hash is already queued;
        returns the hash either way. */
    method AddMethodQueue(item: MethodQueueItem) returns (h: Hash)
      requires Valid()
      modifies this
      ensures Valid()
      ensures h == item.hash
      ensures State() == old(State()).(callQueue := QueueInsert(old(callQueue), item))
    {
      if item.hash !in callQueue {
        callQueue := callQueue[item.hash := item];
      }
      h := item.hash;
    }

    /** Overwrites the owner reply of the entry for `hash`, if queued. */
    method UpdateQueueReply(hash: Hash, reply: OwnerReply) returns (r: Option<OwnerReply>)
      requires Valid()
      modifies this
      ensures Valid()
      ensures r == if hash in old(callQueue) then Some(reply) else None
      ensures State() == old(State()).(callQueue := QueueSetReply(old(callQueue), hash, reply))
    {
      if hash in callQueue {
        callQueue := callQueue[hash := callQueue[hash].(ownerReply := reply)];
        r := Some(reply);
      } else {
        r := None;
      }
    }

    /** Deletes the entry for `hash`; returns the hash iff it was queued. */
    method RemoveQueueMethod(hash: Hash) returns (r: Option<Hash>)
      requires Valid()
      modifies this
      ensures Valid()
      ensures r == if hash in old(callQueue) then Some(hash) else None
      ensures hash !in callQueue
      ensures State() == old(State()).(callQueue := old(callQueue) - {hash})
    {
      r := if hash in callQueue then Some(hash) else None;
      callQueue := callQueue - {hash};
    }
  }
}
