/**
 * The dashboard page's logic: shortening identifiers for display, cleaning the
 * balance text, enabling the Claim button, and choosing the warning text shown
 * after a failed write.
 */
module Dashboard {
  import opened Options
  import opened JsText
  import opened Process
  import Commitment
  import ClaimNowApi
  import ResetDemoApi

  /** What the page is busy with, if anything. */
  datatype Busy = Refreshing | Claiming | Resetting

  /**
   * `prettyShort`: "—" for a missing or empty id, a short id unchanged, and a
   * long one as its first 6 characters, "…", and its last 5, always 12 long.
   */
  function PrettyShort(id: Option<string>): (r: string)
    ensures id.None? || id.value == "" ==> r == "\U{2014}"
    ensures id.Some? && 0 < |id.value| <= 12 ==> r == id.value
    ensures id.Some? && |id.value| > 12 ==>
      && |r| == 12
      && r[..6] == id.value[..6]
      && r[6] == '\U{2026}'
      && r[7..] == id.value[|id.value| - 5..]
    ensures 1 <= |r| <= 12
  {
    if id.None? || id.value == "" then "\U{2014}"
    else if |id.value| <= 12 then id.value
    else id.value[..6] + "\U{2026}" + id.value[|id.value| - 5..]
  }

  /** `balanceNum`: every quote removed, then trimmed; null stays null. */
  function BalanceNum(balance: Option<string>): (r: Option<string>)
    ensures r.None? <==> balance.None?
    ensures r.Some? ==> '"' !in r.value && Bare(IsJsSpace, r.value)
  {
    if balance.None? then None
    else
      var cleaned := RemoveAll('"', balance.value);
      StripKeepsAbsent(IsJsSpace, '"', cleaned);
      Some(Trim(cleaned))
  }

  /** Cleaning a cleaned balance changes nothing. */
  lemma BalanceNumIdempotent(balance: Option<string>)
    ensures BalanceNum(BalanceNum(balance)) == BalanceNum(balance)
  {
    if balance.Some? {
      var once := BalanceNum(balance).value;
      assert RemoveAll('"', once) == once;
      TrimIdempotent(RemoveAll('"', balance.value));
    }
  }

  /**
   * Only the wrapping goes: whitespace runs around a core that has no quote and
   * no whitespace at its ends leave exactly that core.
   */
  lemma BalanceNumUnwraps(w1: string, m: string, w2: string)
    requires All(IsJsSpace, w1) && All(IsJsSpace, w2)
    requires Bare(IsJsSpace, m) && '"' !in m
    ensures BalanceNum(Some(w1 + m + w2)) == Some(m)
  {
    var s := w1 + m + w2;
    assert '"' !in s by {
      forall i | 0 <= i < |s| ensures s[i] != '"' {
        if i < |w1| { assert s[i] == w1[i]; }
        else if i < |w1| + |m| { assert s[i] == m[i - |w1|]; }
        else { assert s[i] == w2[i - |w1| - |m|]; }
      }
    }
    StripUnwraps(IsJsSpace, w1, m, w2);
  }

  /** A quote inserted anywhere in the balance text does not change the cleaned balance. */
  lemma BalanceNumIgnoresQuote(a: string, b: string)
    ensures BalanceNum(Some(a + "\"" + b)) == BalanceNum(Some(a + b))
  {
    assert "\"" == ['"'];
    RemoveAllSkips('"', a, b);
  }

  /**
   * The Claim button is enabled exactly when the page is idle and the user
   * record read back is eligible and not claimed; with no record it is disabled.
   */
  function ClaimEnabled(busy: Option<Busy>, user: Option<Commitment.UserState>): (r: bool)
    ensures r ==> user.Some?
    ensures r <==> busy.None? && user.Some? && user.value.eligible && !user.value.claimed_now
  {
    var claimed := if user.Some? then user.value.claimed_now else false;
    var eligible := if user.Some? then user.value.eligible else false;
    !(busy.Some? || !eligible || claimed)
  }

  /**
   * The button looks only at `claimed_now`: a locked record keeps it enabled,
   * although the contract refuses that user's claim as AlreadyFinalized.
   */
  lemma EnabledForLockedUser(user: Commitment.Address, s: Commitment.UserState, tiers: map<Commitment.u32, Commitment.Tier>)
    requires s.eligible && s.locked && Commitment.Consistent(s)
    ensures ClaimEnabled(None, Some(s))
    ensures Commitment.OpenTier(map[user := s], tiers, user) == Commitment.Refuse(Commitment.AlreadyFinalized)
  {
  }

  /** The warning after a failed write: its stderr, else its error, else the fallback. */
  function Banner(stderr: Option<string>, error: Option<string>, fallback: string): (r: string)
    ensures Truthy(stderr) ==> r == stderr.value
    ensures !Truthy(stderr) && Truthy(error) ==> r == error.value
    ensures fallback != "" ==> r != ""
    ensures r == fallback || Some(r) == stderr || Some(r) == error
  {
    if Truthy(stderr) then stderr.value
    else if Truthy(error) then error.value
    else fallback
  }

  /**
   * A failed claim-now shows the tool's stderr when the invocation failed and
   * the handler's error text otherwise: never an empty warning.
   */
  lemma ClaimNowWarning(resp: ClaimNowApi.Response)
    requires !resp.Ok()
    ensures resp.InvokeFailed? && resp.stderr != "" ==> Banner(resp.Stderr(), resp.Error(), "claim-now failed") == resp.stderr
    ensures (resp.MissingConfig? || resp.UnknownSigner?) && resp.error != "" ==> Banner(resp.Stderr(), resp.Error(), "claim-now failed") == resp.error
    ensures Banner(resp.Stderr(), resp.Error(), "claim-now failed") != ""
  {
  }

  /** A failed reset shows the failing step's stderr, or "Use POST" for a wrong method. */
  lemma ResetDemoWarning(resp: ResetDemoApi.Response)
    requires !resp.Ok()
    ensures resp.StepFailed? && resp.stderr != "" ==> Banner(resp.Stderr(), resp.Error(), "reset-demo failed") == resp.stderr
    ensures resp.WrongMethod? ==> Banner(resp.Stderr(), resp.Error(), "reset-demo failed") == "Use POST"
    ensures resp.MissingConfig? && resp.error != "" ==> Banner(resp.Stderr(), resp.Error(), "reset-demo failed") == resp.error
    ensures Banner(resp.Stderr(), resp.Error(), "reset-demo failed") != ""
  {
  }
}
