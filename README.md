# Wallet canister: proxied calls with owner confirmation

This project models the dapp wallet canister of `wallet_call` and the client helpers that drive it.

## The canister

The wallet canister forwards calls to other canisters for its owners. It also forwards calls for users the owners have granted access: a grant lists target canisters and methods, and is valid for a limited period.

- **Checks.** For a granted user, the canister first checks two things: that the target canister is not blacklisted, and that the grant covers the canister and the method.
- **Direct or queued.** The validation mode then decides the route:
  - `ALL`: every call is queued.
  - `UPDATE`: calls are queued when the method is an update `CALL`.
  - `KEY`: calls are queued when the method is flagged as a key operation.
  Any other call is forwarded directly.
- **The queue.** A queued call waits under a SHA-256 hash until an owner approves it (the call is then executed and its answer recorded) or rejects it.

## The client

The TypeScript client does four things:
- classifies the methods of a target's IDL;
- builds the target list of a grant, flagging key operations;
- unpacks decoded return values;
- when a call was queued, polls the queue for the owner's decision and turns that decision into a return value or an error.

## Files

| file | module | what it holds |
|---|---|---|
| `types.dfy` | `Types` | the candid shapes (grants, target lists, queued calls, owner replies) and the Option/Result wrappers |
| `service.dfy` | `Service` | `WalletService`: pure queries on a store value `StoreState`, and the class `WalletStore` whose methods update the store in place |
| `actor.dfy` | `Actor` | the entry points: caller guard, the `targets_guard` decision, `proxy_call`, `owner_confirm`, queue queries and removal, owner-only settings |
| `client.dfy` | `Client` | `proxyActor.ts`: classification, `ProxyTargets.buildTargets`, `decodeReturnValue`, `pollQueueMethod`, the outcome mapping of `caller` |

## How the environment is represented

- **Time.** `api::time()` becomes a parameter, `now` (nanoseconds).
- **Hashing.** SHA-256 and hex encoding become a function parameter `digest` over user, canister, method name and time. The argument bytes are not hashed.
- **Forwarded calls.** `call_raw128` becomes a function parameter `target` returning reply bytes or an error text. `wallet_call` keeps its own self-call refusal.
- **Identity and framework.** The caller, the owners and the wallet's canister id are given by an `Env` value. The ego owner framework becomes a set of owners.
- **Helpers defined outside the modelled files.** `is_owner` comes from the ego owner macros. `get_method_validate_type`, `set_method_validate_type` and `get_method_type` are called by the actor, but `service.rs` does not define them.
  - `is_owner` is membership in the owner set.
  - The validation mode is a field of the store (`validateType`), read and set directly.
  - `get_method_type` is the `method_type` of the method in the first entry of the caller's grant that lists it for that canister.
- **Messages.** Each entry point runs as one atomic message.
  - A trap discards every change the message made (`WalletStore.Rollback`). So the grant deletion that `is_valid_user` makes before the guard traps does not persist.
  - An owner-only entry point called by anyone else ends in `Denied`.
- **Client I/O.** On the client, the `get_queue_reply` answers are a function from attempt number to answer: a reply, or the error the awaited query throws. The answer of `proxy_call` is likewise a reply or a thrown error. The `remove_queue_method` calls the poll issues are returned as a list. IDL decoding is a parameter.

## Behaviour that may surprise

The model follows the code in each case:

- `owner_confirm` is not once-only. It overwrites any reply already recorded, and an approval executes the stored call again.
- `add_expiry_user` does not check the blacklist.
- The blacklist is checked against the target canister, not the caller.
- Owners bypass every check of `targets_guard`: blacklist, grant and mode.
- Under `UPDATE`, a key-operation flag is ignored. Key-flagged methods are queued only under `KEY` (and under `ALL`, which queues everything).
- Three behaviours are kept exactly as the code has them; each is listed under "## Findings":
  - `get_queue_unconfirmed` lists the calls that already have a reply;
  - `remove_if_expiry` removes grants that are still valid;
  - `is_valid_user` measures validity with the current expiry period.
- The client's `case '' || 'update'` label is the single string `'update'`, so `''` is matched only by `default`. It still becomes `CALL`, as intended.
- **The client cannot tell a hash from an error.** It treats every `Err` text of `proxy_call` as a queue hash. A genuine error (for example a rejection by the target) is not a queued hash: its first poll answer is absent, the client issues a `remove_queue_method` for it, and the call throws "No response" instead of the error. `Client.InvokeThroughWallet` states this case.

## Model

| member | source | states |
|---|---|---|
| Service.DefaultStore | canisters/dapp/wallet_canister/mod/src/service.rs:23-34 | a fresh store has no grants, no blacklist and an empty queue, and an expiry period of seven days in nanoseconds (604 800 000 000 000) |
| Service.WalletStore.constructor | canisters/dapp/wallet_canister/mod/src/service.rs:23-34 | the constructed store holds exactly the default state |
| Service.AnyCanister | canisters/dapp/wallet_canister/mod/src/service.rs:62 | true iff some entry of the target list is for the canister |
| Service.AnyListedMethod | canisters/dapp/wallet_canister/mod/src/service.rs:73-76 | true iff some entry is for the canister and lists the method |
| Service.AnyKeyOperation | canisters/dapp/wallet_canister/mod/src/service.rs:87-96 | true iff some entry is for the canister, lists the method and flags it as a key operation |
| Service.GetExpiryUser | canisters/dapp/wallet_canister/mod/src/service.rs:183-191 | the user's grant iff one is stored |
| Service.IsValidCanister | canisters/dapp/wallet_canister/mod/src/service.rs:59-64 | true iff the user has a grant with an entry for the canister; expiry is not consulted |
| Service.IsValidCanisterMethod | canisters/dapp/wallet_canister/mod/src/service.rs:66-78 | true iff the user has a grant with an entry for the canister that lists the method |
| Service.IsMethodKeyOper | canisters/dapp/wallet_canister/mod/src/service.rs:80-98 | true iff the user has a grant with an entry for the canister that lists the method as a key operation |
| Service.FirstMethodType | canisters/dapp/wallet_canister/actor/src/actor.rs:62-66 | the method kind from the first entry for the canister listing the method; none iff no entry lists it |
| Service.GetMethodType | canisters/dapp/wallet_canister/actor/src/actor.rs:62-66 | a kind is found iff the grant lists the method for the canister, and it is the kind of a listing entry |
| Service.GrantChecksNest | canisters/dapp/wallet_canister/mod/src/service.rs:59-98 | a key operation is a granted method, a granted method belongs to a granted canister, and without a grant all three checks are false |
| Service.SweepAsWritten | canisters/dapp/wallet_canister/mod/src/service.rs:246-266 | the grants a sweep leaves are a subset of the grants before, unchanged |
| Service.SweepExpired | canisters/dapp/wallet_canister/mod/src/service.rs:246-266 | the corrected sweep also leaves only existing grants, unchanged |
| Service.SweepAsWrittenIsInverted | canisters/dapp/wallet_canister/mod/src/service.rs:257-266 | as written, the sweep deletes every grant that is valid and not exactly at its boundary, and keeps every expired one |
| Service.SweepAsWrittenDropsFreshGrant | canisters/dapp/wallet_canister/mod/src/service.rs:39-40 | a grant made now under the default period is valid, yet the sweep run by the next `add_expiry_user` deletes it |
| Service.SweepExpiredKeepsValid | canisters/dapp/wallet_canister/mod/src/service.rs:193-205 | the corrected sweep keeps exactly the grants `is_valid_user` accepts |
| Service.ShortGrantOutlivesExpiration | canisters/dapp/wallet_canister/mod/src/service.rs:197 | a grant whose expiration e is below the default period is still accepted at t + e + 1 by the test as written, and rejected by the corrected one |
| Service.GrantValidUntilExpiration | canisters/dapp/wallet_canister/mod/src/service.rs:39-57 | the grant `add_expiry_user` stores at `now` with validity `e` is valid under the corrected test exactly up to `now + e`; the test as written accepts it after `now + e` when `e` is below the period, and rejects it after `now + period` when `e` is above |
| Service.HashMethod | canisters/dapp/wallet_canister/mod/src/service.rs:100-115 | the queued item is named by the digest of user, canister, method and time; it holds the user, the time and the payload, with reply `NotFound` |
| Service.HashIgnoresArguments | canisters/dapp/wallet_canister/mod/src/service.rs:103-106 | two calls of one user to one method at the same time get the same hash, whatever their arguments |
| Service.QueueInsert | canisters/dapp/wallet_canister/mod/src/service.rs:175-178 | insert-if-absent: an existing entry under the hash stays; every other hash keeps its entry |
| Service.QueueSetReply | canisters/dapp/wallet_canister/mod/src/service.rs:120-126 | the hashes stay the same; only the reply of the given hash changes |
| Service.GetQueueMethod | canisters/dapp/wallet_canister/mod/src/service.rs:130-138 | the queued item iff the hash is queued |
| Service.GetQueueReply | canisters/dapp/wallet_canister/mod/src/service.rs:140-145 | some reply iff the hash is queued, and it is that item's reply |
| Service.ReplyWrittenIsRead | canisters/dapp/wallet_canister/mod/src/service.rs:117-145 | a reply written for a queued hash is the one read back; other hashes read as before |
| Service.GetQueueUnconfirmed | canisters/dapp/wallet_canister/mod/src/service.rs:147-160 | lists exactly the user's queued calls whose reply is not `NotFound`, as hash, user and time |
| Service.GetQueuePending | canisters/dapp/wallet_canister/mod/src/service.rs:147-160 | corrected: lists exactly the user's queued calls still without a reply |
| Service.DeferredCallIsNotUnconfirmed | canisters/dapp/wallet_canister/mod/src/service.rs:152 | a freshly queued call is never in the as-written listing, and always in the corrected one |
| Service.BlackListUpdates | canisters/dapp/wallet_canister/mod/src/service.rs:207-230 | a target is on the blacklist after an add and off it after a remove; other targets are unaffected |
| Service.WalletStore.Rollback | canisters/dapp/wallet_canister/actor/src/actor.rs:35 | the store holds exactly the saved state again |
| Service.WalletStore.RemoveExpiryUser | canisters/dapp/wallet_canister/mod/src/service.rs:239-244 | returns the grant that was stored, and only the user's grant is gone |
| Service.WalletStore.RemoveIfExpiry | canisters/dapp/wallet_canister/mod/src/service.rs:257-266 | deletes the user's grant exactly when `now < timestamp + period`; nothing else changes |
| Service.WalletStore.RemoveAllExpiries | canisters/dapp/wallet_canister/mod/src/service.rs:246-255 | the grants become exactly the as-written sweep of the old ones; nothing else changes |
| Service.WalletStore.AddExpiryUser | canisters/dapp/wallet_canister/mod/src/service.rs:39-57 | the returned grant has `timestamp = now`, the given targets, and expiry `now + (expiration, or else the period)`; the store is the sweep of the old grants with this grant stored under the user, replacing any earlier one; under the corrected test the stored grant is valid exactly up to its expiry timestamp |
| Service.WalletStore.IsValidUser | canisters/dapp/wallet_canister/mod/src/service.rs:193-205 | true iff a grant exists and `now <= timestamp + the current period`; an existing grant that fails is deleted, and otherwise the store is unchanged |
| Service.WalletStore.AddProxyBlackList | canisters/dapp/wallet_canister/mod/src/service.rs:207-217 | idempotent: the first text stored for the target stays and is returned; only the blacklist changes |
| Service.WalletStore.RemoveProxyBlackList | canisters/dapp/wallet_canister/mod/src/service.rs:218-223 | returns the text the target had, if any; only that blacklist entry is gone |
| Service.WalletStore.SetExpiryPeriod | canisters/dapp/wallet_canister/mod/src/service.rs:232-237 | only the expiry period changes |
| Service.WalletStore.SetMethodValidateType | canisters/dapp/wallet_canister/actor/src/actor.rs:193-197 | only the validation mode changes |
| Service.WalletStore.AddMethodQueue | canisters/dapp/wallet_canister/mod/src/service.rs:172-181 | returns the item's hash, and the queue becomes the insert-if-absent of the item |
| Service.WalletStore.UpdateQueueReply | canisters/dapp/wallet_canister/mod/src/service.rs:117-128 | `Some(reply)` iff the hash is queued, with only that entry's reply overwritten; nothing changes for an absent hash |
| Service.WalletStore.RemoveQueueMethod | canisters/dapp/wallet_canister/mod/src/service.rs:162-170 | `Some(hash)` iff the hash was queued; afterwards it is absent (so a second call gives `None`) and nothing else changes |
| Service.IsProxyBlackList | canisters/dapp/wallet_canister/mod/src/service.rs:225-230 | the target is blacklisted iff it has a blacklist entry; also the unguarded query `is_proxy_black_list` (actor.rs lines 223-227) |
| Service.UserValid | canisters/dapp/wallet_canister/mod/src/service.rs:197 | the test as written: a grant exists and `now <= timestamp + the current period` |
| Service.ShorterPeriodRevokesGrant | canisters/dapp/wallet_canister/mod/src/service.rs:197 | a grant made under the default period is rejected once the period is shortened, although its own expiry timestamp has not passed (the scenario of the integration tests) |
| Actor.GuardAdmits | canisters/dapp/wallet_canister/actor/src/actor.rs:32 | the guard's condition: the caller is an owner or passes the `is_valid_user` test |
| Actor.TargetsVerdict | canisters/dapp/wallet_canister/actor/src/actor.rs:39-113 | the decision tree of `targets_guard`; a trap verdict needs a non-owner, and a direct or queued verdict needs an owner or a granted method of a target that is not blacklisted |
| Actor.WalletCall | canisters/dapp/wallet_canister/mod/src/mod.rs:7-19 | a call from the wallet itself is refused with the self-call text; otherwise the target's bytes or error are passed on |
| Actor.OwnerOrValidUserGuard | canisters/dapp/wallet_canister/actor/src/actor.rs:29-37 | admits iff the caller is an owner or passes `is_valid_user`, trapping with "<caller> unauthorized" otherwise; the store is unchanged either way |
| Actor.VerdictCheckOrder | canisters/dapp/wallet_canister/actor/src/actor.rs:43-107 | for a non-owner, the blacklist trap fires iff the target is blacklisted; then the canister trap iff the canister is not granted; then the method trap iff the method is not granted |
| Actor.DeferredIff | canisters/dapp/wallet_canister/actor/src/actor.rs:55-96 | a non-owner's call is queued iff it passes the checks and: the mode is ALL; or the mode is UPDATE and the kind is CALL; or the mode is KEY and the method is a key operation |
| Actor.DirectNeedsOwnerOrGrant | canisters/dapp/wallet_canister/actor/src/actor.rs:39-113 | a call goes directly only for an owner, or for a granted method of a non-blacklisted target under a mode other than ALL |
| Actor.OwnerCallsDirect | canisters/dapp/wallet_canister/actor/src/actor.rs:110-112 | an owner's call always goes directly, whatever the blacklist, grants and mode |
| Actor.KeyModeDefersKeyOperations | canisters/dapp/wallet_canister/actor/src/actor.rs:83-96 | under KEY, a non-owner's key operation is queued unless its target is blacklisted |
| Actor.UpdateModeIgnoresKeyFlag | canisters/dapp/wallet_canister/actor/src/actor.rs:61-82 | under UPDATE, a granted method whose kind is not CALL goes directly, key flag or not |
| Actor.TargetsGuard | canisters/dapp/wallet_canister/actor/src/actor.rs:39-113 | a direct verdict gives `None` with the store unchanged; a queued verdict inserts the hashed item if absent and returns its hash; a failing verdict traps with its message and changes nothing |
| Actor.ProxyCall | canisters/dapp/wallet_canister/actor/src/actor.rs:124-137 | `Err(hash)` exactly when the call is queued, with the queue gaining the item; the `wallet_call` answer when the call goes directly; a trap, with nothing changed, when a guard refuses |
| Actor.OwnerConfirm | canisters/dapp/wallet_canister/actor/src/actor.rs:139-157 | for an absent hash, `NotFound` and no change; otherwise it records and returns `Rejected(hash)`, or `Approved` with the stored call's answer, overwriting any earlier reply |
| Actor.HasQueueMethod | canisters/dapp/wallet_canister/actor/src/actor.rs:159-163 | behind the caller guard: true iff the hash is queued |
| Actor.GetQueueReply | canisters/dapp/wallet_canister/actor/src/actor.rs:165-169 | behind the caller guard: some reply iff the hash is queued, and it is the recorded one |
| Actor.GetQueueUnconfirmed | canisters/dapp/wallet_canister/actor/src/actor.rs:171-175 | refused for non-owners; for owners, exactly the summaries of the user's queued calls that have a reply, and nothing else |
| Actor.RemoveQueueMethod | canisters/dapp/wallet_canister/actor/src/actor.rs:177-191 | `Ok(false)` for an absent hash; `Ok(true)` and removal for the owner or the call's user; `Err("Not Authorized Execution")` with the queue unchanged for anyone else |
| Actor.SetMethodValidateType | canisters/dapp/wallet_canister/actor/src/actor.rs:193-197 | owner-only; the mode becomes the given one |
| Actor.AddExpiryUser | canisters/dapp/wallet_canister/actor/src/actor.rs:199-203 | owner-only; returns and stores the grant `WalletService::add_expiry_user` makes: user, `timestamp = now`, the given targets, expiry `now + (expiration, or else the period)`, after the as-written sweep |
| Actor.SetExpiryPeriod | canisters/dapp/wallet_canister/actor/src/actor.rs:205-209 | owner-only; the period becomes the given one |
| Actor.AddProxyBlackList | canisters/dapp/wallet_canister/actor/src/actor.rs:211-215 | owner-only; returns the first text stored for the target (its own text if it was not listed), so repeating it changes nothing; afterwards the target is blacklisted and only the blacklist changed |
| Actor.RemoveProxyBlackList | canisters/dapp/wallet_canister/actor/src/actor.rs:217-221 | owner-only; returns the text the target had, or none; afterwards the target is not blacklisted and only the blacklist changed |
| Client.MethodTypeOf | clients/tests/proxyActor.ts:36-53 | `query` gives QUERY, `composite` gives CompositeQuery and `oneway` gives OneWay, each iff; everything else (`update`, empty, absent, unknown) gives CALL |
| Client.ClassifyMethods | clients/tests/proxyActor.ts:34-60 | one method per field, in order, with the field's name, the kind of its first annotation, and no key-operation flag |
| Client.DecodeReturnValue | clients/tests/proxyActor.ts:100-110 | no values give undefined and one value gives that value, each iff; expanding the result gives back the decoded values |
| Client.FindActor | clients/tests/proxyActor.ts:168 | the first actor for the canister, or -1 iff there is none |
| Client.FindKey | clients/tests/proxyActor.ts:172 | a position holding the key iff the key is listed, else -1 |
| Client.FindActorSameShape | clients/tests/proxyActor.ts:168-177 | flagging methods never changes which actor a canister finds |
| Client.KeyOperationEffect | clients/tests/proxyActor.ts:167-178 | one key operation changes only flags, and raises exactly those of the named methods of the first actor for its canister |
| Client.KeyOperationsEffect | clients/tests/proxyActor.ts:165-180 | after all key operations: the actors keep their canisters, method names and kinds; a flag is set iff it was set before, or some operation names the method and the actor is that operation's first match |
| Client.ToTargetItem | clients/tests/proxyActor.ts:181-189 | the target has the actor's canister as a principal and its `[name, method]` pairs in order |
| Client.ExpirationField | clients/tests/proxyActor.ts:192 | empty iff the expiration is absent or zero, and otherwise the expiration itself |
| Client.ProxyTargets.constructor | clients/tests/proxyActor.ts:161-162 | stores the actors and the expiration |
| Client.ProxyTargets.BuildTargets | clients/tests/proxyActor.ts:164-195 | the stored actors become the key operations applied in order; the result has one target per actor in order, and the expiration field |
| Client.PollQueueMethod | clients/tests/proxyActor.ts:210-252 | at most `totalRetries` attempts, every attempt but the last answered `NotFound`; a query that throws ends the poll with that error and no remove; one `remove_queue_method(hash)` exactly when it stopped at an absent, Rejected or Approved reply, returning that reply's result; on running out, no remove and `{result: undefined, reject: false}` |
| Client.InvokeThroughWallet | clients/tests/proxyActor.ts:113-147 | a `proxy_call` that throws throws its error; an `Ok` answer is decoded. An `Err` is polled as a hash, three times at most: Rejected throws "Owner has rejected this call"; Approved(Ok) is decoded; Approved(Err e) throws e; a throwing query throws its error; an absent reply or running out throws "No response"; a genuine error text is polled, removed and reported as "No response" |

## Left out

- Integer widths: time, timestamps, periods and cycles are unbounded naturals, so the u64 additions `timestamp + expiry_period` (service.rs lines 197 and 261) and `actual_period + ts` (line 50) never overflow in the model. In the canister they can: `set_expiry_period` and a grant's `expiration` accept any u64 an owner chooses, and a "never expires" value near the u64 maximum makes those additions overflow for every grant. The model does not capture that.
- SHA-256 and hex encoding are a parameter. Collisions between different (user, canister, method, time) tuples are not ruled out and not studied.
- `call_raw128` and the formatting of its error text ("An error happened during the call: …") are part of the parameter `target`.
- Async interleaving: `owner_confirm` awaits the forwarded call between its lookup and its update. Each entry point is modelled as one atomic step.
- The ego owner framework (`is_owner`, `owner_guard` and its message, `owner_add`, `init`) and stable memory (`pre_upgrade`/`post_upgrade`) are not part of this model. Owners are a given set, and an owner-guard refusal is `Denied`.
- `balance_get` appears only in the IDL bindings; it is not part of this model.
- Order of lists:
  - `Service.GetQueueUnconfirmed`/`Actor.GetQueueUnconfirmed`: the listing is a set. The order in which the queue map yields its entries is not modelled.
  - The argument of `add_expiry_user` is handed over as the canister's own shapes. For those shapes, the client's conversion of `[name, method]` pairs into a map is not modelled.
- Client plumbing is not modelled:
  - the `ProxyActor` class;
  - IDL encoding and decoding (decoding is a parameter);
  - the `proxy_call` transport, beyond its outcome: an answer, or an error the agent throws;
  - `sleep`/`setTimeout` and the poll interval;
  - `DEFAULT_ACTOR_CONFIG`;
  - `Principal.fromText` validation (a principal is its text);
  - the aliasing of JavaScript method objects shared between actors.
- `Client.PollQueueMethod`: the error a throwing `get_queue_reply` raises is taken as given (for instance the caller guard's "<caller> unauthorized" trap once the caller's grant has been swept away); how the agent words it is not modelled. The test-only `owner_confirm` injection at the third attempt is not modelled. The `remove_queue_method` call is recorded, not awaited; its effect on the canister is `Actor.RemoveQueueMethod`.
- The stale files are not part of this model: `canisters/wallet_canister/actor/src/actor.rs`, `types.rs` of the dapp module, and the IDL bindings. The integration tests are not part of it either.

## Findings

| source | as written | input that shows it | evidently intended | confidence | as-written member | corrected member |
|---|---|---|---|---|---|---|
| canisters/dapp/wallet_canister/mod/src/service.rs:261 | `remove_if_expiry` deletes a grant when `now < timestamp + expiry_period`, that is while it is still valid; `remove_all_expiries`, run by every `add_expiry_user`, therefore deletes valid grants and keeps expired ones | grant made at time t under the default period, then `add_expiry_user` for anyone at time t: the grant, valid at t, is deleted | delete grants with `timestamp + expiry_period < now`, the complement of `is_valid_user`'s test | high, not executed | Service.SweepAsWrittenDropsFreshGrant | Service.SweepExpiredKeepsValid |
| canisters/dapp/wallet_canister/mod/src/service.rs:152 | `get_queue_unconfirmed` keeps items whose reply is not `NotFound`, i.e. the ones the owner has already decided | a call just queued by `targets_guard` (reply `NotFound`) is missing from the listing | list the calls still waiting for the owner (`== NotFound`) | medium, not executed | Service.DeferredCallIsNotUnconfirmed | Service.GetQueuePending |
| canisters/dapp/wallet_canister/mod/src/service.rs:197 | `is_valid_user` compares `now` with `timestamp + current expiry_period`; the grant's own `expiry_timestamp`, written at line 50, is never read | grant with expiration e shorter than the period, checked at t + e + 1: accepted, although its expiry timestamp t + e has passed | a design question rather than a clear bug: the unused `expiry_timestamp` suggests validity should follow it, but both integration tests (clients/tests/walletCall.test.ts lines 135-165, test/walletCall.test.ts lines 166-191) shorten the period to expire a grant made under the default period, which only the test as written does (`Service.ShorterPeriodRevokesGrant`) | low, not executed | Service.ShortGrantOutlivesExpiration | Service.GrantValidUntilExpiration |

The store methods and entry points follow the code as written. The corrected definitions (`Service.SweepExpired`, `Service.GetQueuePending`, `Service.UserValidByExpiry`) stand beside them, with the intended property proved about each.
