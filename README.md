# Stellar commitment prototype — a Dafny model

This project models the core of a demo dashboard for a Soroban "commitment"
smart contract on a local Stellar network:

- **The commitment contract** (`commitment.dfy`, module `Commitment`). An admin
  marks users eligible for a payout tier. Each eligible user then either claims the
  "now" payout, which ends their cycle, or locks and later withdraws. A withdrawal
  pays the early amount before the unlock time and the mature amount from then on.
  The admin can reopen a user. The contract's storage is the class `Contract`,
  and every entry point is a method with guard-then-update semantics.
  The class invariant `Valid()` says that every stored record is eligible and in
  one of four lifecycle states: open, claimed now, locked, or locked and withdrawn.
  In particular `claimed_now && locked` never holds, and lock times are zero
  unless the record is locked. `commitment_scenarios.dfy` states what whole runs
  from a fresh deployment must return.
- **The API handlers** that drive the `stellar` command-line client:
  `claim_now.dfy`, `reset_demo.dfy`, `get_user.dfy` and `get_balance.dfy`.
  They are modelled against a process invoker (`process.dfy`). The operating
  system is a scripted oracle that answers each handler's n-th invocation, and
  every handler returns, next to its JSON response, the list of argument lists
  it invoked. Their contracts are ordering and "this call never happened"
  properties over that log:
  - missing configuration invokes nothing;
  - `claim_now` is invoked only for a resolved signer;
  - the mint step of the reset runs only after the eligibility step succeeded;
  - the balance read never decides `ok`.
- **String helpers** (`text.dfy`, `get_balance.dfy`, `dashboard.dfy`). These are
  JavaScript's `trim`, the quote stripping of the balance endpoint, the
  dashboard's `prettyShort` and balance cleaning, the Claim button predicate and
  the choice of the warning text.

One cross-file observation is stated as a proved run. The reset handler grants
`--tier_id 0` (frontend/pages/api/reset-demo.ts:59-60). But `init` creates only
tier 1, and `admin_set_eligible` refuses unknown tiers. So the reset's first step
fails unless the admin has created tier 0 first:
`CommitmentScenarios.GrantTierZeroAfterInit` and
`CommitmentScenarios.GrantTierZeroAfterSetTier`.

Three behaviours of the handlers are worth stating plainly:

- claim-now signs as "user2" when both identities have the configured address;
  an ambiguous match is not refused;
- get-user performs the balance read whatever the user read returned;
- reset-demo reports a failed setup step through `step`, `cmd`, `stdout` and
  `stderr` only.

Modelling choices:

- Integers: `u32`, `u64` and `i128` are subset types of `int`.
- `require_auth`: each entry point that calls `require_auth` takes the set of
  addresses that signed the invocation. A missing signature, like a panic, is a `Trap` outcome that leaves
  storage unchanged.
- Ledger time: the ledger timestamp is the parameter `now`.
- Token transfers: they are appended to the ghost log `transfers`.
- JavaScript values: `undefined`/`null` values are `Option`s, and JavaScript
  truthiness of a string is `Process.Truthy` (present and non-empty).
- Strings are sequences of code points, and the identifiers handled are ASCII.

## Model

| member | source | states |
|---|---|---|
| `Commitment.Code` | contract/commitment_contract/contracts/commitment/src/lib.rs:41-52 | every contract error carries a code from 1 to 8 |
| `Commitment.CodeInjective` | contract/commitment_contract/contracts/commitment/src/lib.rs:41-52 | distinct errors carry distinct codes |
| `Commitment.DefaultUser` | contract/commitment_contract/contracts/commitment/src/lib.rs:101-111 | the record of an unseen address is not eligible, not finalized, in a consistent state, with tier 0 |
| `Commitment.Contract.Initialized` | contract/commitment_contract/contracts/commitment/src/lib.rs:57-63 | initialized means admin and token are both stored; under the invariant this is the same as init's admin-only test |
| `Commitment.OpenTier` | contract/commitment_contract/contracts/commitment/src/lib.rs:211-222 | the shared claim_now/lock guards pass iff the record is stored, eligible, not finalized and has an existing tier, which is returned; NotEligible and AlreadyFinalized each hold exactly in their case, and no other error arises |
| `Commitment.LockedTier` | contract/commitment_contract/contracts/commitment/src/lib.rs:278-292 | the withdraw guards pass iff the record is stored, eligible, locked, not withdrawn and has an existing tier, which is returned; NotEligible, NotLocked and AlreadyWithdrawn each hold exactly in their case, checked in that order, so TierNotFound is left for an open, locked record whose tier is missing |
| `Commitment.Payout` | contract/commitment_contract/contracts/commitment/src/lib.rs:294-299 | the payout is the early amount strictly before the unlock time and the mature amount from then on |
| `Commitment.PayoutNeverDecreases` | contract/commitment_contract/contracts/commitment/src/lib.rs:294-299 | when the mature payout is at least the early one, a later withdrawal never pays less |
| `Commitment.Reopened` | contract/commitment_contract/contracts/commitment/src/lib.rs:321-327 | the reset record is eligible, not finalized and consistent, and keeps the tier |
| `Commitment.Contract.constructor` | contract/commitment_contract/contracts/commitment/src/lib.rs:33-39 | a fresh instance stores no admin, no token, no tiers and no users, and satisfies the lifecycle invariant |
| `Commitment.Contract.Init` | contract/commitment_contract/contracts/commitment/src/lib.rs:118-146 | AlreadyInitialized, with nothing changed, once an admin is stored; otherwise it stores admin and token, tier 1 = {7776000, 200000000, 150000000, 350000000} only, and no users |
| `Commitment.Contract.AdminSetTier` | contract/commitment_contract/contracts/commitment/src/lib.rs:149-161 | NotInitialized unless admin and token are stored, then a trap without the admin's signature, both with nothing changed; otherwise only that tier is set |
| `Commitment.Contract.AdminSetEligible` | contract/commitment_contract/contracts/commitment/src/lib.rs:164-196 | NotInitialized, unauthorized, then TierNotFound with users unchanged; otherwise the user becomes eligible for the tier, keeping the other fields of an existing record or starting from the default |
| `Commitment.Contract.GetUser` | contract/commitment_contract/contracts/commitment/src/lib.rs:199-203 | the stored record, or the all-false, all-zero default for an unknown address; changes nothing; a user reads as eligible exactly when a record is stored |
| `Commitment.Contract.ClaimNow` | contract/commitment_contract/contracts/commitment/src/lib.rs:207-236 | guards in order NotInitialized, unauthorized, NotEligible, AlreadyFinalized, TierNotFound, all changing nothing; on success it transfers and returns the tier's payout_now, sets claimed_now and withdrawn only, and a repeat is refused as AlreadyFinalized |
| `Commitment.Contract.Lock` | contract/commitment_contract/contracts/commitment/src/lib.rs:239-269 | the same guards as claim_now; on success sets locked, locked_at = now and unlock_at = now + lock_secs, returns unlock_at, and preserves the invariant that claimed and locked never hold together |
| `Commitment.Contract.Withdraw` | contract/commitment_contract/contracts/commitment/src/lib.rs:274-312 | guards in order NotInitialized, unauthorized, NotEligible, NotLocked, AlreadyWithdrawn, TierNotFound; pays payout_early iff now < unlock_at, else payout_mature, sets withdrawn only, and a repeat is refused as AlreadyWithdrawn |
| `Commitment.Contract.AdminResetUser` | contract/commitment_contract/contracts/commitment/src/lib.rs:313-329 | aborts unless the signed caller is the stored admin; otherwise the record becomes eligible with claimed_now, locked and withdrawn cleared and lock times zero, keeping tier_id, so claim_now's record guards can refuse only for a missing tier |
| `CommitmentScenarios.GrantTierZeroAfterInit` | contract/commitment_contract/contracts/commitment/src/lib.rs:129-172 | after init alone, granting tier 0 is refused with TierNotFound |
| `CommitmentScenarios.GrantTierZeroAfterSetTier` | contract/commitment_contract/contracts/commitment/src/lib.rs:149-196 | after the admin sets tier 0, the grant succeeds and the user reads as eligible for tier 0 and open |
| `CommitmentScenarios.ClaimOnlyOnce` | contract/commitment_contract/contracts/commitment/src/lib.rs:207-254 | an eligible tier-1 user claims 20 tokens once; a second claim and a later lock are AlreadyFinalized |
| `CommitmentScenarios.LockThenWithdraw` | contract/commitment_contract/contracts/commitment/src/lib.rs:239-312 | lock at t0 unlocks at t0 + 7776000; withdraw at t1 pays 15 tokens before then and 35 after; a second withdrawal is AlreadyWithdrawn and a claim AlreadyFinalized |
| `CommitmentScenarios.ResetReopensClaim` | contract/commitment_contract/contracts/commitment/src/lib.rs:313-329 | after a claim, the admin's reset lets the same user claim 20 tokens again |
| `CommitmentScenarios.ResetByOther` | contract/commitment_contract/contracts/commitment/src/lib.rs:315-319 | a signed caller that is not the stored admin aborts the reset |
| `CommitmentScenarios.BeforeInit` | contract/commitment_contract/contracts/commitment/src/lib.rs:57-63 | before init, get_user, claim_now, lock and withdraw all return NotInitialized |
| `JsText.DropLeadingWhile` | frontend/pages/api/get-balance.ts:42 | removes exactly the longest prefix of matching characters and returns the rest of the string |
| `JsText.DropTrailingWhile` | frontend/pages/api/get-balance.ts:42 | removes exactly the longest suffix of matching characters and returns the start of the string |
| `JsText.Strip` | frontend/pages/api/get-balance.ts:42 | the result neither starts nor ends with a matching character and is no longer than the input |
| `JsText.Trim` | frontend/pages/api/get-user.ts:8-9 | `trim`: the result neither starts nor ends with JavaScript whitespace |
| `JsText.RemoveAll` | frontend/pages/index.tsx:199 | `replaceAll`: the character no longer occurs, every other character is kept as often as it occurs in the input, and a string without it is unchanged |
| `JsText.RemoveAllConcat` | frontend/pages/index.tsx:199 | removal works piecewise over a concatenation, so the kept characters stay in their order |
| `JsText.RemoveAllSkips` | frontend/pages/index.tsx:199 | an occurrence of the character anywhere in the input leaves no trace in the result |
| `JsText.StripUnwraps` | frontend/pages/api/get-balance.ts:42 | stripping removes exactly the wrapping runs: any runs around a core that does not start or end with one leave that core |
| `JsText.StripBare` | frontend/pages/api/get-balance.ts:42 | a string with neither end matching is left unchanged |
| `JsText.StripIdempotent` | frontend/pages/api/get-balance.ts:42 | stripping twice equals stripping once |
| `JsText.StripKeepsAbsent` | frontend/pages/index.tsx:199 | stripping introduces no character that was not in the input |
| `JsText.TrimIdempotent` | frontend/pages/index.tsx:199 | trimming twice equals trimming once |
| `Process.Run` | frontend/pages/api/claim-now.ts:4-17 | never fails; stdout defaults to ""; after a process error stderr is the captured stderr if non-empty, else the error message if non-empty, else ""; after success it is the captured stderr; so an invocation counts as failed exactly when its stderr or the error message is non-empty, even when the exit status was success |
| `JsText.JoinAppend` | frontend/pages/api/claim-now.ts:73 | `join`: appending an item to a non-empty list appends the separator and the item |
| `Process.CmdLeads` | frontend/pages/api/claim-now.ts:73 | the echoed command starts with `stellar `, followed by the first argument |
| `Process.KeysCmd` | frontend/pages/api/claim-now.ts:33-34 | a key lookup has three arguments ending in the identity and is echoed as `stellar keys address <identity>` |
| `Process.InvokeLayout` | frontend/pages/api/claim-now.ts:52-66 | every invocation is `contract invoke --network local --source-account <signer> --id <id>`, then `--send=yes` when sent, then `--` and the call |
| `ClaimNowApi.ClaimArgs` | frontend/pages/api/claim-now.ts:52-66 | all 13 arguments: `contract invoke --network local --source-account` the signer, `--id` the contract, `--send=yes -- claim_now --user` the user address |
| `ClaimNowApi.ResolveSigner` | frontend/pages/api/claim-now.ts:36-38 | "user2" iff the address equals user2's; "user1" iff it equals user1's and not user2's; "" iff it matches neither |
| `ClaimNowApi.Handle` | frontend/pages/api/claim-now.ts:19-86 | missing config invokes nothing; otherwise logs the two key lookups, then the claim for the resolved signer only; with no match the response carries the three addresses; a failed claim echoes cmd, stdout and stderr; success reports signedAs and cmd |
| `ResetDemoApi.NextUser` | frontend/pages/api/reset-demo.ts:38-42 | user1 iff the current address equals user2's, otherwise user2; with distinct identities it never picks the current one of the pair |
| `ResetDemoApi.SetEligibleArgs` | frontend/pages/api/reset-demo.ts:45-61 | all 15 arguments: `contract invoke --network local --source-account admin --id` the contract `--send=yes -- admin_set_eligible --user` the user `--tier_id 0` |
| `ResetDemoApi.MintArgs` | frontend/pages/api/reset-demo.ts:76-92 | all 15 arguments: `contract invoke --network local --source-account admin --id` the token `--send=yes -- mint --to` the contract `--amount 1000` |
| `ResetDemoApi.Handle` | frontend/pages/api/reset-demo.ts:19-128 | non-POST gives 405 with no invocation; missing ids invoke nothing; otherwise keys, then setEligible; mint only if setEligible succeeded; each failure is reported under its step name; success returns nextUserPrepared and both steps after exactly four invocations |
| `GetUserApi.RunStellar` | frontend/pages/api/get-user.ts:4-14 | both streams trimmed; code is 1 iff the process errored, else 0 |
| `GetUserApi.UserArgs` | frontend/pages/api/get-user.ts:29-42 | all 12 arguments of the unsent read: `contract invoke --network local --source-account admin --id` the contract `-- get_user --user` the user address |
| `GetUserApi.BalanceArgs` | frontend/pages/api/get-user.ts:51-64 | all 12 arguments of the unsent read: `contract invoke --network local --source-account user2 --id` the token `-- balance --id` the user address |
| `GetUserApi.Handle` | frontend/pages/api/get-user.ts:16-90 | missing config invokes nothing; ok is exactly the user read's success; userRaw, user and userErr depend on the user read alone; the balance read happens iff a token id is set; a failed balance read sets balanceErr and leaves balance null; balance and balanceErr are never both set |
| `GetBalanceApi.StripQuotes` | frontend/pages/api/get-balance.ts:42 | the result neither starts nor ends with a quote |
| `GetBalanceApi.Normalize` | frontend/pages/api/get-balance.ts:41-42 | the trimmed output with its wrapping quotes removed never starts or ends with a quote |
| `GetBalanceApi.StripQuotesUnwraps` | frontend/pages/api/get-balance.ts:42 | interior characters are preserved: quotes around a core leave exactly the core |
| `GetBalanceApi.StripQuotesIdempotent` | frontend/pages/api/get-balance.ts:42 | stripping quotes is idempotent |
| `GetBalanceApi.TrimBare` | frontend/pages/api/get-balance.ts:41 | a string without whitespace at its ends is its own trim |
| `GetBalanceApi.NormalizeQuoted` | frontend/pages/api/get-balance.ts:41-42 | `"5"` normalises to `5` |
| `GetBalanceApi.NormalizeDoublyQuoted` | frontend/pages/api/get-balance.ts:41-42 | `""5""` normalises to `5` |
| `GetBalanceApi.NormalizePlain` | frontend/pages/api/get-balance.ts:41-42 | `5` normalises to itself |
| `GetBalanceApi.Handle` | frontend/pages/api/get-balance.ts:4-46 | missing token id or user address invokes nothing; a process error returns the trimmed streams; otherwise the balance is the normalised stdout, whatever stderr holds |
| `Dashboard.PrettyShort` | frontend/pages/index.tsx:36-40 | "—" for a missing or empty id; a short id is unchanged; a longer one is its first 6 characters, "…" and its last 5, exactly 12 long; never longer than 12 |
| `Dashboard.BalanceNum` | frontend/pages/index.tsx:196-201 | null stays null; otherwise the result has no quote anywhere and no whitespace at either end |
| `Dashboard.BalanceNumUnwraps` | frontend/pages/index.tsx:196-201 | whitespace runs around a quote-free core with no whitespace at its ends clean to exactly that core, so every other character survives in order |
| `Dashboard.BalanceNumIgnoresQuote` | frontend/pages/index.tsx:199 | a quote inserted anywhere in the balance text does not change the cleaned balance |
| `Dashboard.BalanceNumIdempotent` | frontend/pages/index.tsx:196-201 | cleaning a cleaned balance changes nothing |
| `Dashboard.ClaimEnabled` | frontend/pages/index.tsx:259 | enabled iff idle, and the record is present, eligible and not claimed; no record means disabled |
| `Dashboard.EnabledForLockedUser` | frontend/pages/index.tsx:259 | the button stays enabled for any locked record, withdrawn or not, which the contract's claim guard refuses as AlreadyFinalized |
| `Dashboard.Banner` | frontend/pages/index.tsx:153-155 | the warning is the stderr if non-empty, else the error if non-empty, else the fallback; never empty |
| `Dashboard.ClaimNowWarning` | frontend/pages/index.tsx:153-155 | a failed claim-now shows the tool's stderr or the handler's error text, and never an empty warning |
| `Dashboard.ResetDemoWarning` | frontend/pages/index.tsx:176-178 | a failed reset shows the failing step's stderr, "Use POST" for a wrong method, or the missing-configuration error, and never an empty warning |

## Left out

- Process spawning, environment reads and HTTP plumbing are abstracted. The
  `stellar` process is the scripted oracle `Process.Oracle`, configuration is an
  explicit `Config` value, and each response is a datatype with its HTTP status.
- The handlers' `catch` blocks are not modelled. The modelled `run` never
  rejects, so they are unreachable here.
- The constant `note` text of the reset's success response is not modelled.
- `JSON.parse` is the abstract parameter `parse` of `GetUserApi.Handle`.
- Soroban SDK internals are abstracted:
  - authorization is the `signers` set;
  - events are not modelled;
  - the token contract's transfer semantics are not modelled, and a transfer
    that the token contract would refuse is not modelled either;
  - storage persistence is the class fields.
- `admin_reset_user` calls `read_admin`, `read_user` and `write_user`, which are
  not defined in lib.rs (lines 315, 321, 328). The model follows the evident
  intent:
  - the stored admin is read as `get_admin` does, and the call aborts when there
    is none;
  - the record is read as `get_user` does: stored, or the default;
  - the record is written back into the same users map.
- The contract's `NotAdmin` error (code 1) is never returned by any entry point.
  A non-admin reset panics instead.
- `Commitment.Contract.Lock`: requires that `now + lock_secs` fits in a u64
  (`LockFits`). Whether an overflowing sum would panic or wrap depends on build
  settings that are not part of this model.
- `Commitment.Contract.Withdraw` (like ClaimNow): a token transfer that fails
  (for example an underfunded contract) aborts the transaction in the contract;
  here every transfer succeeds.
- Strings are sequences of Unicode code points, while JavaScript measures and
  slices UTF-16 code units. `Dashboard.PrettyShort` agrees with `prettyShort`
  only for identifiers without characters outside the Basic Multilingual Plane,
  such as the ASCII Stellar addresses it is given.
- frontend/pages/api/claim.ts is not part of this model. It is a single
  shell-library call over a constant argument list with the fixed signer user2.
- frontend/pages/api/reset-local.ts and frontend/index.js are not part of this
  model: one only runs a script, the other only displays environment values.
- React rendering, hooks, `fetch`, polling and `safeJsonStringify` in index.tsx
  are not modelled; only the helpers and predicates listed above are.
