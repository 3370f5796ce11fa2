/**
 * The commitment contract: an admin marks users eligible for a payout tier; each
 * eligible user either claims the "now" payout at once, or locks and later
 * withdraws an early or a mature payout. The admin can reopen a user.
 *
 * The contract's instance storage (Admin, Token, Tiers, Users) is the state of
 * class `Contract`. Token transfers are recorded in the ghost log `transfers`;
 * the token contract itself is not modelled. `require_auth` is modelled by the
 * set `signers` of addresses that signed the invocation: a missing signature
 * aborts the invocation (`Trap`), which leaves storage as it was.
 */
module Commitment {
  import opened Options

  type u32 = x: int | 0 <= x < 0x1_0000_0000
  type u64 = x: int | 0 <= x < 0x1_0000_0000_0000_0000
  type i128 = x: int | -0x8000_0000_0000_0000_0000_0000_0000_0000 <= x < 0x8000_0000_0000_0000_0000_0000_0000_0000

  /** An account or contract address. */
  type Address = string

  datatype Tier = Tier(lock_secs: u64, payout_now: i128, payout_early: i128, payout_mature: i128)

  datatype UserState = UserState(
    eligible: bool,
    tier_id: u32,
    locked_at: u64,
    unlock_at: u64,
    claimed_now: bool,
    locked: bool,
    withdrawn: bool)

  /** The contract's error enum. */
  datatype Err =
    | NotAdmin
    | NotEligible
    | AlreadyFinalized
    | NotLocked
    | AlreadyWithdrawn
    | TierNotFound
    | NotInitialized
    | AlreadyInitialized

  /** The numeric code each error carries on the wire. */
  function Code(e: Err): (c: nat)
    ensures 1 <= c <= 8
  {
    match e
    case NotAdmin => 1
    case NotEligible => 2
    case AlreadyFinalized => 3
    case NotLocked => 4
    case AlreadyWithdrawn => 5
    case TierNotFound => 6
    case NotInitialized => 7
    case AlreadyInitialized => 8
  }

  /** Distinct errors carry distinct codes. */
  lemma CodeInjective(e1: Err, e2: Err)
    ensures Code(e1) == Code(e2) ==> e1 == e2
  {
  }

  /** Why the host aborted an invocation (a panic or a failed `require_auth`). */
  datatype Trap = Unauthorized | NotAdminPanic | AdminNotSet

  /** What an entry point returns: a value, a contract error, or an abort. */
  datatype Outcome<+T> = Ok(value: T) | Fail(err: Err) | Trap(reason: Trap)

  /** The verdict of an entry point's guards: the tier to pay from, or the first error. */
  datatype Guard = Pass(tier: Tier) | Refuse(err: Err)

  /** One token transfer from the contract's own account. */
  datatype Transfer = Transfer(to: Address, amount: i128)

  /** Tier 1 as `init` creates it: 90 days, 20 now, 15 early, 35 mature (7 decimals). */
  const DefaultTier := Tier(90 * 24 * 60 * 60, 20_0000000, 15_0000000, 35_0000000)

  /** The record of an address the contract has never seen. */
  function DefaultUser(): (s: UserState)
    ensures !s.eligible && !Finalized(s) && Consistent(s)
    ensures s.tier_id == 0
  {
    UserState(false, 0, 0, 0, false, false, false)
  }

  /** A record has been finalized by a claim, a lock or a withdrawal. */
  predicate Finalized(s: UserState) {
    s.claimed_now || s.locked || s.withdrawn
  }

  /**
   * The lifecycle a record can be in: open, claimed now (terminal), locked, or
   * locked and withdrawn (terminal). Lock times are zero unless locked.
   */
  predicate Consistent(s: UserState) {
    && !(s.claimed_now && s.locked)
    && (s.claimed_now ==> s.withdrawn)
    && (s.withdrawn ==> s.claimed_now || s.locked)
    && (s.locked ==> s.locked_at <= s.unlock_at)
    && (!s.locked ==> s.locked_at == 0 && s.unlock_at == 0)
  }

  /**
   * The guards `claim_now` and `lock` share, in their order: the user must have an
   * eligible record, not be finalized, and have an existing tier, which is returned.
   */
  function OpenTier(users: map<Address, UserState>, tiers: map<u32, Tier>, user: Address): (g: Guard)
    ensures g.Pass? <==>
      user in users && users[user].eligible && !Finalized(users[user]) && users[user].tier_id in tiers
    ensures g.Pass? ==> g.tier == tiers[users[user].tier_id]
    ensures g == Refuse(NotEligible) <==> user !in users || !users[user].eligible
    ensures g == Refuse(AlreadyFinalized) <==> user in users && users[user].eligible && Finalized(users[user])
    ensures g.Refuse? ==> g.err in {NotEligible, AlreadyFinalized, TierNotFound}
  {
    if user !in users || !users[user].eligible then Refuse(NotEligible)
    else if Finalized(users[user]) then Refuse(AlreadyFinalized)
    else if users[user].tier_id !in tiers then Refuse(TierNotFound)
    else Pass(tiers[users[user].tier_id])
  }

  /**
   * The guards of `withdraw`, in their order: an eligible record that is locked
   * and not yet withdrawn, with an existing tier, which is returned.
   */
  function LockedTier(users: map<Address, UserState>, tiers: map<u32, Tier>, user: Address): (g: Guard)
    ensures g.Pass? <==>
      && user in users && users[user].eligible && users[user].locked && !users[user].withdrawn
      && users[user].tier_id in tiers
    ensures g.Pass? ==> g.tier == tiers[users[user].tier_id]
    ensures g == Refuse(NotEligible) <==> user !in users || !users[user].eligible
    ensures g == Refuse(NotLocked) <==> user in users && users[user].eligible && !users[user].locked
    ensures g == Refuse(AlreadyWithdrawn) <==>
      user in users && users[user].eligible && users[user].locked && users[user].withdrawn
    ensures g.Refuse? ==> g.err in {NotEligible, NotLocked, AlreadyWithdrawn, TierNotFound}
  {
    if user !in users || !users[user].eligible then Refuse(NotEligible)
    else if !users[user].locked then Refuse(NotLocked)
    else if users[user].withdrawn then Refuse(AlreadyWithdrawn)
    else if users[user].tier_id !in tiers then Refuse(TierNotFound)
    else Pass(tiers[users[user].tier_id])
  }

  /** The withdrawal payout: early strictly before the unlock time, mature from then on. */
  function Payout(tier: Tier, unlockAt: u64, now: u64): (amount: i128)
    ensures amount == tier.payout_early || amount == tier.payout_mature
    ensures now < unlockAt ==> amount == tier.payout_early
    ensures unlockAt <= now ==> amount == tier.payout_mature
  {
    if now < unlockAt then tier.payout_early else tier.payout_mature
  }

  /**
   * With a tier whose mature payout is at least its early one (tier 1: 35 against
   * 15), waiting never lowers the withdrawal.
   */
  lemma PayoutNeverDecreases(tier: Tier, unlockAt: u64, t1: u64, t2: u64)
    requires tier.payout_early <= tier.payout_mature && t1 <= t2
    ensures Payout(tier, unlockAt, t1) <= Payout(tier, unlockAt, t2)
  {
  }

  /** The record `admin_reset_user` writes over `s`: eligible, open, times zeroed, same tier. */
  function Reopened(s: UserState): (r: UserState)
    ensures r.eligible && !Finalized(r) && Consistent(r)
    ensures r.tier_id == s.tier_id
  {
    s.(eligible := true, claimed_now := false, withdrawn := false, locked := false, locked_at := 0, unlock_at := 0)
  }

  class Contract {
    var admin: Option<Address>
    var token: Option<Address>
    var tiers: map<u32, Tier>
    var users: map<Address, UserState>
    /** Every payout the contract has transferred, in order. */
    ghost var transfers: seq<Transfer>

    /**
     * Admin and token are stored together, and every stored record is eligible
     * and in a consistent lifecycle state.
     */
    ghost predicate Valid()
      reads this
    {
      && (admin.Some? <==> token.Some?)
      && forall u :: u in users ==> users[u].eligible && Consistent(users[u])
    }

    /**
     * `ensure_initialized`: both Admin and Token are stored. Under the invariant
     * this is the same as the Admin-only test `init` makes.
     */
    predicate Initialized(): (r: bool)
      reads this
      ensures r ==> admin.Some? && token.Some?
      ensures Valid() ==> (r <==> admin.Some?)
    {
      admin.Some? && token.Some?
    }

    /** The stored admin signed this invocation. */
    predicate AdminSigned(signers: set<Address>)
      reads this
    {
      admin.Some? && admin.value in signers
    }

    /** `now + lock_secs` of the user's tier fits in a u64 when `lock` would reach that sum. */
    predicate LockFits(user: Address, now: u64)
      reads this
    {
      var t := OpenTier(users, tiers, user);
      t.Pass? ==> now + t.tier.lock_secs < 0x1_0000_0000_0000_0000
    }

    /** A freshly deployed instance: empty storage, nothing transferred. */
    constructor ()
      ensures Valid()
      ensures admin == None && token == None && tiers == map[] && users == map[] && transfers == []
    {
      admin, token := None, None;
      tiers, users := map[], map[];
      transfers := [];
    }

    /** `init`: store admin and token, tier 1 only, no users; refused once an admin is stored. */
    method Init(newAdmin: Address, tokenAddr: Address) returns (r: Outcome<()>)
      requires Valid()
      modifies this
      ensures Valid()
      ensures r == (if old(admin).Some? then Fail(AlreadyInitialized) else Ok(()))
      ensures !r.Ok? ==> unchanged(this)
      ensures r.Ok? ==>
        && admin == Some(newAdmin) && token == Some(tokenAddr)
        && tiers == map[1 := DefaultTier] && users == map[]
        && transfers == old(transfers)
    {
      if admin.Some? {
        return Fail(AlreadyInitialized);
      }
      admin := Some(newAdmin);
      token := Some(tokenAddr);
      var t: map<u32, Tier> := map[];
      t := t[1 := DefaultTier];
      tiers := t;
      users := map[];
      r := Ok(());
    }

    /** `admin_set_tier`: the admin adds or replaces one tier. */
    method AdminSetTier(tierId: u32, tier: Tier, signers: set<Address>) returns (r: Outcome<()>)
      requires Valid()
      modifies this
      ensures Valid()
      ensures r == (if !old(Initialized()) then Fail(NotInitialized)
                    else if !old(AdminSigned(signers)) then Trap(Unauthorized)
                    else Ok(()))
      ensures !r.Ok? ==> unchanged(this)
      ensures r.Ok? ==>
        && tiers == old(tiers)[tierId := tier]
        && admin == old(admin) && token == old(token) && users == old(users)
        && transfers == old(transfers)
    {
      if !Initialized() {
        return Fail(NotInitialized);
      }
      if admin.value !in signers {
        return Trap(Unauthorized);
      }
      var t := tiers;
      t := t[tierId := tier];
      tiers := t;
      r := Ok(());
    }

    /**
     * `admin_set_eligible`: the admin marks a user eligible for an existing tier.
     * An existing record keeps its other fields; a new one starts from the default.
     */
    method AdminSetEligible(user: Address, tierId: u32, signers: set<Address>) returns (r: Outcome<()>)
      requires Valid()
      modifies this
      ensures Valid()
      ensures r == (if !old(Initialized()) then Fail(NotInitialized)
                    else if !old(AdminSigned(signers)) then Trap(Unauthorized)
                    else if tierId !in old(tiers) then Fail(TierNotFound)
                    else Ok(()))
      ensures !r.Ok? ==> unchanged(this)
      ensures r.Ok? ==>
        && users == old(users)[user := (if user in old(users) then old(users)[user] else DefaultUser()).(eligible := true, tier_id := tierId)]
        && admin == old(admin) && token == old(token) && tiers == old(tiers)
        && transfers == old(transfers)
    {
      if !Initialized() {
        return Fail(NotInitialized);
      }
      if admin.value !in signers {
        return Trap(Unauthorized);
      }
      if tierId !in tiers {
        return Fail(TierNotFound);
      }
      var u := users;
      var state: UserState;
      if user in u {
        state := u[user];
        state := state.(eligible := true, tier_id := tierId);
      } else {
        state := DefaultUser().(eligible := true, tier_id := tierId);
      }
      u := u[user := state];
      users := u;
      r := Ok(());
    }

    /**
     * `get_user`: the stored record, or the default for an unknown address. Under
     * the invariant a user reads as eligible exactly when a record is stored.
     */
    method GetUser(user: Address) returns (r: Outcome<UserState>)
      requires Valid()
      ensures r == (if !Initialized() then Fail(NotInitialized)
                    else Ok(if user in users then users[user] else DefaultUser()))
      ensures r.Ok? ==> Consistent(r.value) && (r.value.eligible <==> user in users)
      ensures r.Ok? && user !in users ==> !Finalized(r.value) && r.value.tier_id == 0
    {
      if !Initialized() {
        return Fail(NotInitialized);
      }
      var u := users;
      r := Ok(if user in u then u[user] else DefaultUser());
    }

    /**
     * `claim_now`: pay the tier's "now" amount and finish the user (claimed and
     * withdrawn), so that a second claim or a lock is refused.
     */
    method ClaimNow(user: Address, signers: set<Address>) returns (r: Outcome<i128>)
      requires Valid()
      modifies this
      ensures Valid()
      ensures !old(Initialized()) ==> r == Fail(NotInitialized)
      ensures old(Initialized()) && user !in signers ==> r == Trap(Unauthorized)
      ensures old(Initialized()) && user in signers ==>
        var t := OpenTier(old(users), old(tiers), user);
        r == (if t.Pass? then Ok(t.tier.payout_now) else Fail(t.err))
      ensures !r.Ok? ==> unchanged(this)
      ensures r.Ok? ==>
        && users == old(users)[user := old(users)[user].(claimed_now := true, withdrawn := true)]
        && transfers == old(transfers) + [Transfer(user, r.value)]
        && admin == old(admin) && token == old(token) && tiers == old(tiers)
      ensures r.Ok? ==> Finalized(users[user]) && OpenTier(users, tiers, user) == Refuse(AlreadyFinalized)
    {
      if !Initialized() {
        return Fail(NotInitialized);
      }
      if user !in signers {
        return Trap(Unauthorized);
      }
      var u := users;
      if user !in u {
        return Fail(NotEligible);
      }
      var s := u[user];
      if !s.eligible {
        return Fail(NotEligible);
      }
      if s.claimed_now || s.locked || s.withdrawn {
        return Fail(AlreadyFinalized);
      }
      if s.tier_id !in tiers {
        return Fail(TierNotFound);
      }
      var tier := tiers[s.tier_id];
      transfers := transfers + [Transfer(user, tier.payout_now)];
      s := s.(claimed_now := true);
      s := s.(withdrawn := true);
      u := u[user := s];
      users := u;
      r := Ok(tier.payout_now);
    }

    /**
     * `lock`: start the lock period at `now` (the ledger time) and return its end,
     * `now + lock_secs`. Claimed and locked never hold together.
     */
    method Lock(user: Address, now: u64, signers: set<Address>) returns (r: Outcome<u64>)
      requires Valid()
      requires LockFits(user, now)
      modifies this
      ensures Valid()
      ensures !old(Initialized()) ==> r == Fail(NotInitialized)
      ensures old(Initialized()) && user !in signers ==> r == Trap(Unauthorized)
      ensures old(Initialized()) && user in signers ==>
        var t := OpenTier(old(users), old(tiers), user);
        r == (if t.Pass? then Ok(now + t.tier.lock_secs) else Fail(t.err))
      ensures !r.Ok? ==> unchanged(this)
      ensures r.Ok? ==>
        && users == old(users)[user := old(users)[user].(locked := true, locked_at := now, unlock_at := r.value)]
        && admin == old(admin) && token == old(token) && tiers == old(tiers)
        && transfers == old(transfers)
      ensures r.Ok? ==> now <= r.value && OpenTier(users, tiers, user) == Refuse(AlreadyFinalized)
    {
      if !Initialized() {
        return Fail(NotInitialized);
      }
      if user !in signers {
        return Trap(Unauthorized);
      }
      var u := users;
      if user !in u {
        return Fail(NotEligible);
      }
      var s := u[user];
      if !s.eligible {
        return Fail(NotEligible);
      }
      if s.claimed_now || s.locked || s.withdrawn {
        return Fail(AlreadyFinalized);
      }
      if s.tier_id !in tiers {
        return Fail(TierNotFound);
      }
      var tier := tiers[s.tier_id];
      var unlockAt: u64 := now + tier.lock_secs;
      s := s.(locked := true);
      s := s.(locked_at := now);
      s := s.(unlock_at := unlockAt);
      u := u[user := s];
      users := u;
      r := Ok(unlockAt);
    }

    /**
     * `withdraw`: pay a locked user the early amount strictly before `unlock_at`
     * and the mature amount from then on; a second withdrawal is refused.
     */
    method Withdraw(user: Address, now: u64, signers: set<Address>) returns (r: Outcome<i128>)
      requires Valid()
      modifies this
      ensures Valid()
      ensures !old(Initialized()) ==> r == Fail(NotInitialized)
      ensures old(Initialized()) && user !in signers ==> r == Trap(Unauthorized)
      ensures old(Initialized()) && user in signers ==>
        var t := LockedTier(old(users), old(tiers), user);
        r == (if t.Pass? then Ok(if now < old(users)[user].unlock_at then t.tier.payout_early else t.tier.payout_mature) else Fail(t.err))
      ensures !r.Ok? ==> unchanged(this)
      ensures r.Ok? ==>
        && users == old(users)[user := old(users)[user].(withdrawn := true)]
        && transfers == old(transfers) + [Transfer(user, r.value)]
        && admin == old(admin) && token == old(token) && tiers == old(tiers)
      ensures r.Ok? ==> LockedTier(users, tiers, user) == Refuse(AlreadyWithdrawn)
    {
      if !Initialized() {
        return Fail(NotInitialized);
      }
      if user !in signers {
        return Trap(Unauthorized);
      }
      var u := users;
      if user !in u {
        return Fail(NotEligible);
      }
      var s := u[user];
      if !s.eligible {
        return Fail(NotEligible);
      }
      if !s.locked {
        return Fail(NotLocked);
      }
      if s.withdrawn {
        return Fail(AlreadyWithdrawn);
      }
      if s.tier_id !in tiers {
        return Fail(TierNotFound);
      }
      var tier := tiers[s.tier_id];
      var payout := Payout(tier, s.unlock_at, now);
      transfers := transfers + [Transfer(user, payout)];
      s := s.(withdrawn := true);
      u := u[user := s];
      users := u;
      r := Ok(payout);
    }

    /**
     * `admin_reset_user`: the stored admin reopens a user, who becomes eligible
     * and unfinalized with zeroed lock times and the same tier. Any other caller
     * aborts the invocation.
     */
    method AdminResetUser(caller: Address, user: Address, signers: set<Address>) returns (r: Outcome<()>)
      requires Valid()
      modifies this
      ensures Valid()
      ensures r == (if old(admin).None? then Trap(AdminNotSet)
                    else if caller !in signers then Trap(Unauthorized)
                    else if caller != old(admin).value then Trap(NotAdminPanic)
                    else Ok(()))
      ensures !r.Ok? ==> unchanged(this)
      ensures r.Ok? ==>
        && users == old(users)[user := UserState(true, if user in old(users) then old(users)[user].tier_id else 0, 0, 0, false, false, false)]
        && admin == old(admin) && token == old(token) && tiers == old(tiers)
        && transfers == old(transfers)
      ensures r.Ok? ==> OpenTier(users, tiers, user) == (if users[user].tier_id in tiers then Pass(tiers[users[user].tier_id]) else Refuse(TierNotFound))
    {
      if admin.None? {
        return Trap(AdminNotSet);
      }
      var storedAdmin := admin.value;
      if caller !in signers {
        return Trap(Unauthorized);
      }
      if caller != storedAdmin {
        return Trap(NotAdminPanic);
      }
      var u := users;
      var s := if user in u then u[user] else DefaultUser();
      s := Reopened(s);
      u := u[user := s];
      users := u;
      r := Ok(());
    }
  }
}
