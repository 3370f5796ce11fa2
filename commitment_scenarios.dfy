/**
 * Runs of the commitment contract from a fresh deployment, stated as the
 * outcomes every run of that shape must produce. Each one composes the entry
 * points' contracts; none of them assumes anything about the addresses used.
 */
module CommitmentScenarios {
  import opened Commitment

  /**
   * After `init` alone, granting tier 0 (the tier the demo reset grants) is
   * refused with TierNotFound: `init` creates only tier 1.
   */
  method GrantTierZeroAfterInit(admin: Address, token: Address, user: Address) returns (r: Outcome<()>)
    ensures r == Fail(TierNotFound)
  {
    var c := new Contract();
    var i := c.Init(admin, token);
    r := c.AdminSetEligible(user, 0, {admin});
  }

  /** Once the admin has created tier 0, the same grant succeeds. */
  method GrantTierZeroAfterSetTier(admin: Address, token: Address, user: Address, tier: Tier) returns (r: Outcome<()>, state: Outcome<UserState>)
    ensures r == Ok(())
    ensures state == Ok(UserState(true, 0, 0, 0, false, false, false))
  {
    var c := new Contract();
    var i := c.Init(admin, token);
    var t := c.AdminSetTier(0, tier, {admin});
    r := c.AdminSetEligible(user, 0, {admin});
    state := c.GetUser(user);
  }

  /**
   * An eligible tier-1 user claims 20 tokens once; a second claim and a later
   * lock are both refused as AlreadyFinalized.
   */
  method ClaimOnlyOnce(admin: Address, token: Address, user: Address) returns (first: Outcome<i128>, second: Outcome<i128>, lockAfter: Outcome<u64>)
    ensures first == Ok(20_0000000)
    ensures second == Fail(AlreadyFinalized)
    ensures lockAfter == Fail(AlreadyFinalized)
  {
    var c := new Contract();
    var i := c.Init(admin, token);
    var e := c.AdminSetEligible(user, 1, {admin});
    first := c.ClaimNow(user, {user});
    second := c.ClaimNow(user, {user});
    lockAfter := c.Lock(user, 0, {user});
  }

  /**
   * A tier-1 user locked at `t0` unlocks 90 days later; withdrawing at `t1` pays
   * 15 before then and 35 from then on; a second withdrawal and a claim are refused.
   */
  method LockThenWithdraw(admin: Address, token: Address, user: Address, t0: u64, t1: u64)
    returns (unlockAt: Outcome<u64>, payout: Outcome<i128>, again: Outcome<i128>, claim: Outcome<i128>)
    requires t0 + 7776000 < 0x1_0000_0000_0000_0000
    ensures unlockAt == Ok(t0 + 7776000)
    ensures payout == Ok(if t1 < t0 + 7776000 then 15_0000000 else 35_0000000)
    ensures again == Fail(AlreadyWithdrawn)
    ensures claim == Fail(AlreadyFinalized)
  {
    var c := new Contract();
    var i := c.Init(admin, token);
    var e := c.AdminSetEligible(user, 1, {admin});
    unlockAt := c.Lock(user, t0, {user});
    payout := c.Withdraw(user, t1, {user});
    again := c.Withdraw(user, t1, {user});
    claim := c.ClaimNow(user, {user});
  }

  /** After a claim, the admin's reset lets the same user claim again. */
  method ResetReopensClaim(admin: Address, token: Address, user: Address) returns (first: Outcome<i128>, reset: Outcome<()>, second: Outcome<i128>)
    ensures first == Ok(20_0000000)
    ensures reset == Ok(())
    ensures second == Ok(20_0000000)
  {
    var c := new Contract();
    var i := c.Init(admin, token);
    var e := c.AdminSetEligible(user, 1, {admin});
    first := c.ClaimNow(user, {user});
    reset := c.AdminResetUser(admin, user, {admin});
    second := c.ClaimNow(user, {user});
  }

  /** Only the stored admin can reset: any other caller aborts, even when it signed. */
  method ResetByOther(admin: Address, token: Address, other: Address, user: Address) returns (r: Outcome<()>)
    requires other != admin
    ensures r == Trap(NotAdminPanic)
  {
    var c := new Contract();
    var i := c.Init(admin, token);
    r := c.AdminResetUser(other, user, {other});
  }

  /** Before `init`, every guarded entry point answers NotInitialized. */
  method BeforeInit(user: Address, now: u64) returns (g: Outcome<UserState>, cl: Outcome<i128>, lk: Outcome<u64>, w: Outcome<i128>)
    ensures g == Fail(NotInitialized) && cl == Fail(NotInitialized)
    ensures lk == Fail(NotInitialized) && w == Fail(NotInitialized)
  {
    var c := new Contract();
    g := c.GetUser(user);
    cl := c.ClaimNow(user, {user});
    lk := c.Lock(user, now, {user});
    w := c.Withdraw(user, now, {user});
  }
}
