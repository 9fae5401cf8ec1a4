/**
 The wallet canister's entry points: the caller guard, the dispatch decision
 of `targets_guard`, `proxy_call`, the owner's confirmation of queued calls,
 the queue queries and reclaim, and the owner-only settings.

 Each entry point runs as one atomic message against the store `s`. A trap
 ends the message and discards every change it made; an owner-only entry
 point called by anyone else is rejected by the owner guard (`Denied`). The
 forwarded call to the target canister is the parameter `target`.
 */
module Actor {
  import opened Types
  import opened Service

  /** The context of one message: its sender, the current time, the wallet's
      owners and the wallet's own canister id. */
  datatype Env = Env(caller: Principal, now: nat, owners: set<Principal>, canisterId: Principal)

  /** The target canister's answer to a forwarded call: its reply bytes, or
      the error text made from the rejection code and message. */
  type TargetCall = CallCanisterArgs -> Result<Bytes, string>

  /** How a message ends: with a reply, with a trap, or rejected by the owner guard. */
  datatype Outcome<+T> = Reply(value: T) | Trap(message: string) | Denied

  const SelfCallMessage: string :=
    "Attempted to call forward on self. This is not allowed. Call this method via a different custodian."

  const NotAuthorizedMessage: string := "Not Authorized Execution"

  predicate IsOwner(env: Env)
  {
    env.caller in env.owners
  }

  /** `wallet_call`: refuses a call forwarded by the wallet itself, and
      otherwise passes the target's answer on. */
  function WalletCall(env: Env, args: CallCanisterArgs, target: TargetCall): (r: CallOutcome)
    ensures env.canisterId == env.caller ==> r == Err(SelfCallMessage)
    ensures env.canisterId != env.caller ==>
      (r.Ok? <==> target(args).Ok?) &&
      (r.Ok? ==> r.value.ret == target(args).value) &&
      (r.Err? ==> r.error == target(args).error)
  {
    if env.canisterId == env.caller then Err(SelfCallMessage)
    else match target(args)
      case Ok(bytes) => Ok(CallResult(bytes))
      case Err(e) => Err(e)
  }

  // ---------------------------------------------------------------------
  // The caller guard

  /** Who `owner_or_valid_user_guard` lets through. */
  predicate GuardAdmits(env: Env, st: StoreState)
  {
    IsOwner(env) || UserValid(st, env.caller, env.now)
  }

  function UnauthorizedMessage(caller: Principal): string
  {
    caller.text + " unauthorized"
  }

  /** Admits owners and users whose grant passes `is_valid_user`; traps on
      anyone else. The deletion `is_valid_user` makes before such a trap is
      discarded with the trap, so the guard never changes the store. */
  method OwnerOrValidUserGuard(s: WalletStore, env: Env) returns (r: Outcome<()>)
    requires s.Valid()
    modifies s
    ensures s.Valid() && s.State() == old(s.State())
    ensures r == if GuardAdmits(env, old(s.State())) then Reply(()) else Trap(UnauthorizedMessage(env.caller))
  {
    if IsOwner(env) {
      return Reply(());
    }
    var saved := s.State();
    var valid := s.IsValidUser(env.caller, env.now);
    if valid {
      r := Reply(());
    } else {
      s.Rollback(saved);
      r := Trap(UnauthorizedMessage(env.caller));
    }
  }

  // ---------------------------------------------------------------------
  // targets_guard

  /** Where `targets_guard` sends a call: straight to the target, into the
      confirmation queue, or to one of its three traps. */
  datatype Verdict = Direct | Deferred | BlackListed | CanisterNotGranted | MethodNotGranted
  {
    predicate Fails()
    {
      BlackListed? || CanisterNotGranted? || MethodNotGranted?
    }
  }

  /** The decision tree of `targets_guard`. Owners pass unchecked; for anyone
      else the target's blacklisting, the grant's canister and method, and
      then the validation mode decide. */
  function TargetsVerdict(env: Env, st: StoreState, args: CallCanisterArgs): (v: Verdict)
    ensures v.Fails() ==> !IsOwner(env)
    ensures v == Direct || v == Deferred ==>
      || IsOwner(env)
      || (!IsProxyBlackList(st, args.canister)
          && IsValidCanisterMethod(st, env.caller, args.canister, args.methodName))
  {
    if IsOwner(env) then Direct
    else if IsProxyBlackList(st, args.canister) then BlackListed
    else if !IsValidCanister(st, env.caller, args.canister) then CanisterNotGranted
    else if !IsValidCanisterMethod(st, env.caller, args.canister, args.methodName) then MethodNotGranted
    else match st.validateType
      case ALL => Deferred
      case UPDATE =>
        (match GetMethodType(st, env.caller, args.canister, args.methodName)
         case None => MethodNotGranted
         case Some(t) => if t == CALL then Deferred else Direct)
      case KEY =>
        if IsMethodKeyOper(st, env.caller, args.canister, args.methodName) then Deferred else Direct
  }

  /** The trap message of a failing verdict. */
  function VerdictMessage(v: Verdict, args: CallCanisterArgs): string
  {
    match v
    case BlackListed => "Canister " + args.canister.text + " is in proxy black list"
    case CanisterNotGranted => "Canister " + args.canister.text + " is not in authorized targets"
    case _ => "Method " + args.methodName + " is not in authorized targets"
  }

  /** For a non-owner the checks come in order: the target's blacklisting,
      then the granted canister, then the granted method; the UPDATE branch's
      own "not in authorized targets" trap cannot fire after they pass. */
  lemma VerdictCheckOrder(env: Env, st: StoreState, args: CallCanisterArgs)
    requires !IsOwner(env)
    ensures var v := TargetsVerdict(env, st, args);
      && (v == BlackListed <==> IsProxyBlackList(st, args.canister))
      && (v == CanisterNotGranted <==>
            !IsProxyBlackList(st, args.canister) && !IsValidCanister(st, env.caller, args.canister))
      && (v == MethodNotGranted <==>
            !IsProxyBlackList(st, args.canister) && IsValidCanister(st, env.caller, args.canister)
            && !IsValidCanisterMethod(st, env.caller, args.canister, args.methodName))
  {
    GrantChecksNest(st, env.caller, args.canister, args.methodName);
  }

  /** For a non-owner a call is queued iff it passes the three checks and the
      mode asks for it: always under ALL, for CALL methods under UPDATE, for
      key operations under KEY. */
  lemma DeferredIff(env: Env, st: StoreState, args: CallCanisterArgs)
    requires !IsOwner(env)
    ensures TargetsVerdict(env, st, args) == Deferred <==>
      && !IsProxyBlackList(st, args.canister)
      && IsValidCanisterMethod(st, env.caller, args.canister, args.methodName)
      && (|| st.validateType == ALL
          || (st.validateType == UPDATE && GetMethodType(st, env.caller, args.canister, args.methodName) == Some(CALL))
          || (st.validateType == KEY && IsMethodKeyOper(st, env.caller, args.canister, args.methodName)))
  {
    GrantChecksNest(st, env.caller, args.canister, args.methodName);
  }

  /** A call reaches its target directly only from an owner, or from a user
      whose grant lists the method of a target that is not blacklisted, under
      a mode other than ALL. */
  lemma DirectNeedsOwnerOrGrant(env: Env, st: StoreState, args: CallCanisterArgs)
    ensures TargetsVerdict(env, st, args) == Direct ==>
      IsOwner(env) ||
      (!IsProxyBlackList(st, args.canister)
       && IsValidCanisterMethod(st, env.caller, args.canister, args.methodName)
       && st.validateType != ALL)
  {
  }

  /** Owners are never checked: their calls go straight to the target. */
  lemma OwnerCallsDirect(env: Env, st: StoreState, args: CallCanisterArgs)
    requires IsOwner(env)
    ensures TargetsVerdict(env, st, args) == Direct
  {
  }

  /** Under KEY, a key operation of a non-owner is queued unless its target is
      blacklisted; it never reaches the target directly. */
  lemma KeyModeDefersKeyOperations(env: Env, st: StoreState, args: CallCanisterArgs)
    requires !IsOwner(env) && st.validateType == KEY
    requires IsMethodKeyOper(st, env.caller, args.canister, args.methodName)
    ensures TargetsVerdict(env, st, args) ==
      if IsProxyBlackList(st, args.canister) then BlackListed else Deferred
  {
    GrantChecksNest(st, env.caller, args.canister, args.methodName);
  }

  /** Under UPDATE, a granted method whose recorded kind is not CALL goes
      straight to the target even when it is flagged as a key operation. */
  lemma UpdateModeIgnoresKeyFlag(env: Env, st: StoreState, args: CallCanisterArgs, t: MethodType)
    requires !IsOwner(env) && st.validateType == UPDATE && !IsProxyBlackList(st, args.canister)
    requires GetMethodType(st, env.caller, args.canister, args.methodName) == Some(t) && t != CALL
    ensures TargetsVerdict(env, st, args) == Direct
  {
    GrantChecksNest(st, env.caller, args.canister, args.methodName);
  }

  /** `targets_guard`: queues the call when the verdict defers it, returning
      its hash; passes it with `None`; traps otherwise. */
  method TargetsGuard(s: WalletStore, env: Env, args: CallCanisterArgs, digest: Digest)
    returns (r: Outcome<Option<Hash>>)
    requires s.Valid()
    modifies s
    ensures s.Valid()
    ensures var v := TargetsVerdict(env, old(s.State()), args);
      var item := HashMethod(env.caller, args, env.now, digest);
      && (v == Direct ==> r == Reply(None) && s.State() == old(s.State()))
      && (v == Deferred ==>
            r == Reply(Some(item.hash))
            && s.State() == old(s.State()).(callQueue := QueueInsert(old(s.callQueue), item)))
      && (v.Fails() ==> r == Trap(VerdictMessage(v, args)) && s.State() == old(s.State()))
  {
    var v := TargetsVerdict(env, s.State(), args);
    if v == Deferred {
      var h := s.AddMethodQueue(HashMethod(env.caller, args, env.now, digest));
      r := Reply(Some(h));
    } else if v == Direct {
      r := Reply(None);
    } else {
      r := Trap(VerdictMessage(v, args));
    }
  }

  // ---------------------------------------------------------------------
  // Entry points for proxied calls and the queue

  /** `proxy_call`: after the caller guard and `targets_guard`, either forwards
      the call and returns the target's answer, or returns the queued call's
      hash in the error channel. */
  method ProxyCall(s: WalletStore, env: Env, args: CallCanisterArgs, digest: Digest, target: TargetCall)
    returns (r: Outcome<CallOutcome>)
    requires s.Valid()
    modifies s
    ensures s.Valid()
    ensures var st := old(s.State());
      var v := TargetsVerdict(env, st, args);
      var item := HashMethod(env.caller, args, env.now, digest);
      && (!GuardAdmits(env, st) ==> r == Trap(UnauthorizedMessage(env.caller)) && s.State() == st)
      && (GuardAdmits(env, st) && v.Fails() ==> r == Trap(VerdictMessage(v, args)) && s.State() == st)
      && (GuardAdmits(env, st) && v == Deferred ==>
            r == Reply(Err(item.hash)) && s.State() == st.(callQueue := QueueInsert(st.callQueue, item)))
      && (GuardAdmits(env, st) && v == Direct ==> r == Reply(WalletCall(env, args, target)) && s.State() == st)
  {
    var admitted := OwnerOrValidUserGuard(s, env);
    if admitted.Trap? {
      return Trap(admitted.message);
    }
    var guard := TargetsGuard(s, env, args, digest);
    if guard.Trap? {
      r := Trap(guard.message);
    } else if guard.value.None? {
      r := Reply(WalletCall(env, args, target));
    } else {
      r := Reply(Err(guard.value.value));
    }
  }

  /** `owner_confirm`: for a queued call, records and returns `Approved` with
      the stored call's answer, or `Rejected` with its hash, whatever reply
      was recorded before; `NotFound` for a hash not queued. */
  method OwnerConfirm(s: WalletStore, env: Env, hash: Hash, approve: bool, target: TargetCall)
    returns (r: Outcome<OwnerReply>)
    requires s.Valid()
    modifies s
    ensures s.Valid()
    ensures var st := old(s.State());
      && (!IsOwner(env) ==> r == Denied && s.State() == st)
      && (IsOwner(env) && hash !in st.callQueue ==> r == Reply(NotFound) && s.State() == st)
      && (IsOwner(env) && hash in st.callQueue ==>
            && r == Reply(if approve then Approved(WalletCall(env, st.callQueue[hash].payload, target))
                          else Rejected(hash))
            && s.State() == st.(callQueue := QueueSetReply(st.callQueue, hash, r.value)))
  {
    if !IsOwner(env) {
      return Denied;
    }
    match GetQueueMethod(s.State(), hash) {
      case None =>
        r := Reply(NotFound);
      case Some(item) =>
        var reply := if approve then Approved(WalletCall(env, item.payload, target)) else Rejected(hash);
        var _ := s.UpdateQueueReply(hash, reply);
        r := Reply(reply);
    }
  }

  /** `has_queue_method`: whether `hash` is queued. */
  method HasQueueMethod(s: WalletStore, env: Env, hash: Hash) returns (r: Outcome<bool>)
    requires s.Valid()
    modifies s
    ensures s.Valid() && s.State() == old(s.State())
    ensures r == if GuardAdmits(env, old(s.State())) then Reply(hash in old(s.callQueue))
                 else Trap(UnauthorizedMessage(env.caller))
  {
    var admitted := OwnerOrValidUserGuard(s, env);
    if admitted.Trap? {
      return Trap(admitted.message);
    }
    r := Reply(GetQueueMethod(s.State(), hash).Some?);
  }

  /** `get_queue_reply`: the reply recorded for `hash`, if queued. */
  method GetQueueReply(s: WalletStore, env: Env, hash: Hash) returns (r: Outcome<Option<OwnerReply>>)
    requires s.Valid()
    modifies s
    ensures s.Valid() && s.State() == old(s.State())
    ensures !GuardAdmits(env, old(s.State())) ==> r == Trap(UnauthorizedMessage(env.caller))
    ensures GuardAdmits(env, old(s.State())) ==>
      r.Reply? && (r.value.Some? <==> hash in old(s.callQueue)) &&
      (r.value.Some? ==> r.value.value == old(s.callQueue)[hash].ownerReply)
  {
    var admitted := OwnerOrValidUserGuard(s, env);
    if admitted.Trap? {
      return Trap(admitted.message);
    }
    r := Reply(Service.GetQueueReply(s.State(), hash));
  }

  /** `get_queue_unconfirmed` behind the owner guard. */
  function GetQueueUnconfirmed(env: Env, st: StoreState, user: Principal): (r: Outcome<set<QueueHash>>)
    requires WellFormed(st)
    ensures !IsOwner(env) ==> r == Denied
    ensures IsOwner(env) ==> r.Reply? && forall h :: h in st.callQueue ==>
      (Summary(st.callQueue[h]) in r.value <==>
        st.callQueue[h].user == user && st.callQueue[h].ownerReply != NotFound)
    ensures IsOwner(env) ==> forall q :: q in r.value ==>
      q.hash in st.callQueue && q == Summary(st.callQueue[q.hash])
  {
    if IsOwner(env) then Reply(Service.GetQueueUnconfirmed(st, user)) else Denied
  }

  /** `remove_queue_method`: `Ok(false)` for a hash not queued; the owner or
      the user who queued the call removes it with `Ok(true)`; anyone else
      gets an error and the queue stays as it is. */
  method RemoveQueueMethod(s: WalletStore, env: Env, hash: Hash) returns (r: Outcome<Result<bool, string>>)
    requires s.Valid()
    modifies s
    ensures s.Valid()
    ensures var st := old(s.State());
      && (!GuardAdmits(env, st) ==> r == Trap(UnauthorizedMessage(env.caller)) && s.State() == st)
      && (GuardAdmits(env, st) && hash !in st.callQueue ==> r == Reply(Ok(false)) && s.State() == st)
      && (GuardAdmits(env, st) && hash in st.callQueue && (IsOwner(env) || st.callQueue[hash].user == env.caller) ==>
            r == Reply(Ok(true)) && s.State() == st.(callQueue := st.callQueue - {hash}))
      && (GuardAdmits(env, st) && hash in st.callQueue && !IsOwner(env) && st.callQueue[hash].user != env.caller ==>
            r == Reply(Err(NotAuthorizedMessage)) && s.State() == st)
  {
    var admitted := OwnerOrValidUserGuard(s, env);
    if admitted.Trap? {
      return Trap(admitted.message);
    }
    match GetQueueMethod(s.State(), hash) {
      case None =>
        r := Reply(Ok(false));
      case Some(item) =>
        if IsOwner(env) || item.user == env.caller {
          var removed := s.RemoveQueueMethod(hash);
          r := Reply(Ok(removed.Some?));
        } else {
          r := Reply(Err(NotAuthorizedMessage));
        }
    }
  }

  // ---------------------------------------------------------------------
  // Owner-only settings and the blacklist query

  method SetMethodValidateType(s: WalletStore, env: Env, mode: MethodValidationType) returns (r: Outcome<()>)
    requires s.Valid()
    modifies s
    ensures s.Valid()
    ensures !IsOwner(env) ==> r == Denied && s.State() == old(s.State())
    ensures IsOwner(env) ==> r == Reply(()) && s.State() == old(s.State()).(validateType := mode)
  {
    if !IsOwner(env) {
      return Denied;
    }
    s.SetMethodValidateType(mode);
    r := Reply(());
  }

  method AddExpiryUser(s: WalletStore, env: Env, user: Principal, targets: ProxyActorTargets)
    returns (r: Outcome<ExpiryUser>)
    requires s.Valid()
    modifies s
    ensures s.Valid()
    ensures !IsOwner(env) ==> r == Denied && s.State() == old(s.State())
    ensures IsOwner(env) ==>
      && r.Reply? && r.value.user == user && r.value.timestamp == env.now
      && r.value.targetList == targets.targets
      && r.value.expiryTimestamp == env.now + (match targets.expiration
           case Some(e) => e
           case None => old(s.expiryPeriod))
      && s.State() == old(s.State()).(expiryUsers :=
           SweepAsWritten(old(s.expiryUsers), old(s.expiryPeriod), env.now)[user := r.value])
  {
    if !IsOwner(env) {
      return Denied;
    }
    var grant := s.AddExpiryUser(user, targets, env.now);
    r := Reply(grant);
  }

  method SetExpiryPeriod(s: WalletStore, env: Env, secs: nat) returns (r: Outcome<()>)
    requires s.Valid()
    modifies s
    ensures s.Valid()
    ensures !IsOwner(env) ==> r == Denied && s.State() == old(s.State())
    ensures IsOwner(env) ==> r == Reply(()) && s.State() == old(s.State()).(expiryPeriod := secs)
  {
    if !IsOwner(env) {
      return Denied;
    }
    s.SetExpiryPeriod(secs);
    r := Reply(());
  }

  method AddProxyBlackList(s: WalletStore, env: Env, target: Principal) returns (r: Outcome<string>)
    requires s.Valid()
    modifies s
    ensures s.Valid()
    ensures !IsOwner(env) ==> r == Denied && s.State() == old(s.State())
    ensures IsOwner(env) ==>
      && r.Reply? && IsProxyBlackList(s.State(), target)
      && r.value == (if target in old(s.proxyBlackList) then old(s.proxyBlackList)[target] else target.text)
      && s.State() == old(s.State()).(proxyBlackList := old(s.proxyBlackList)[target := r.value])
  {
    if !IsOwner(env) {
      return Denied;
    }
    var text := s.AddProxyBlackList(target);
    r := Reply(text);
  }

  method RemoveProxyBlackList(s: WalletStore, env: Env, target: Principal) returns (r: Outcome<Option<string>>)
    requires s.Valid()
    modifies s
    ensures s.Valid()
    ensures !IsOwner(env) ==> r == Denied && s.State() == old(s.State())
    ensures IsOwner(env) ==>
      && r.Reply? && !IsProxyBlackList(s.State(), target)
      && r.value == (if target in old(s.proxyBlackList) then Some(old(s.proxyBlackList)[target]) else None)
      && s.State() == old(s.State()).(proxyBlackList := old(s.proxyBlackList) - {target})
  {
    if !IsOwner(env) {
      return Denied;
    }
    var previous := s.RemoveProxyBlackList(target);
    r := Reply(previous);
  }
}
