/**
 * The get-user handler: read the current user's record from the commitment
 * contract, and, when a token id is configured, the user's token balance as a
 * best-effort second read whose outcome never decides `ok`.
 */
module GetUserApi {
  import opened Options
  import opened JsText
  import opened Process
  import Commitment

  /** The configuration the handler reads: contract id, user address, token id. */
  datatype Config = Config(commitId: Option<string>, userAddr: Option<string>, tokenId: Option<string>)

  const MISSING_CONFIG := "Missing NEXT_PUBLIC_COMMIT_ID or NEXT_PUBLIC_USER_ADDR in .env.local"
  const BALANCE_FAILED := "balance command failed"

  /** The record `runStellar` resolves to. */
  datatype StellarOutput = StellarOutput(stdout: string, stderr: string, code: nat)

  /** Decoding of the user-read output as JSON (`JSON.parse`), kept abstract. */
  type Parser = string -> Option<Commitment.UserState>

  datatype Response =
    | MissingConfig(error: string)
    | Report(
        ok: bool,
        cmd: string,
        user: Option<Commitment.UserState>,
        userRaw: string,
        userErr: Option<string>,
        balance: Option<string>,
        balanceErr: Option<string>)
  {
    function Status(): nat { if MissingConfig? then 500 else 200 }
  }

  /**
   * `runStellar`: both streams trimmed, and exit code 1 exactly when the process
   * reported an error, 0 otherwise.
   */
  function RunStellar(x: Exec): (out: StellarOutput)
    ensures out.code == 0 || out.code == 1
    ensures out.code == 0 <==> x.error.None?
    ensures out.stdout == Trim(x.stdout.GetOr("")) && out.stderr == Trim(x.stderr.GetOr(""))
    ensures Bare(IsJsSpace, out.stdout) && Bare(IsJsSpace, out.stderr)
  {
    StellarOutput(Trim(x.stdout.GetOr("")), Trim(x.stderr.GetOr("")), if x.error.Some? then 1 else 0)
  }

  /** The read-only `get_user` query, simulated with the admin identity. */
  function UserArgs(commitId: string, userAddr: string): (args: Args)
    ensures |args| == 12 && args[0] == "contract" && args[1] == "invoke" && args[2] == "--network" && args[3] == "local"
    ensures args[4] == "--source-account" && args[6] == "--id"
    ensures args[5] == "admin" && args[7] == commitId && args[8] == "--"
    ensures args[9] == "get_user" && args[10] == "--user" && args[11] == userAddr
  {
    InvokeArgs("admin", commitId, false, ["get_user", "--user", userAddr])
  }

  /** The read-only token `balance` query, simulated with the user2 identity. */
  function BalanceArgs(tokenId: string, userAddr: string): (args: Args)
    ensures |args| == 12 && args[0] == "contract" && args[1] == "invoke" && args[2] == "--network" && args[3] == "local"
    ensures args[4] == "--source-account" && args[6] == "--id"
    ensures args[5] == "user2" && args[7] == tokenId && args[8] == "--"
    ensures args[9] == "balance" && args[10] == "--id" && args[11] == userAddr
  {
    InvokeArgs("user2", tokenId, false, ["balance", "--id", userAddr])
  }

  /**
   * The handler. Without contract id or user address nothing is invoked. The
   * user read always happens first; `ok`, `userRaw`, `user` and `userErr` are
   * functions of its output alone. The balance read happens only with a token
   * id: a failure fills `balanceErr` and leaves `balance` null, a success with
   * empty output also gives a null `balance`.
   */
  method Handle(cfg: Config, oracle: Oracle, parse: Parser) returns (resp: Response, log: seq<Args>)
    ensures resp.MissingConfig? <==> !(Truthy(cfg.commitId) && Truthy(cfg.userAddr))
    ensures resp.MissingConfig? ==> log == [] && resp.error == MISSING_CONFIG
    ensures resp.Report? ==>
      var u := RunStellar(oracle(0, UserArgs(cfg.commitId.value, cfg.userAddr.value)));
      && 1 <= |log| <= 2
      && log[0] == UserArgs(cfg.commitId.value, cfg.userAddr.value)
      && resp.ok == (u.code == 0)
      && resp.cmd == Cmd(log[0])
      && resp.userRaw == u.stdout
      && resp.user == parse(u.stdout)
      && resp.userErr == (if resp.ok then None else Some(u.stderr))
      && (|log| == 2 <==> Truthy(cfg.tokenId))
    ensures resp.Report? && !Truthy(cfg.tokenId) ==> resp.balance == None && resp.balanceErr == None
    ensures resp.Report? && Truthy(cfg.tokenId) ==>
      var b := RunStellar(oracle(1, BalanceArgs(cfg.tokenId.value, cfg.userAddr.value)));
      && log[1] == BalanceArgs(cfg.tokenId.value, cfg.userAddr.value)
      && (b.code != 0 ==> resp.balance == None && resp.balanceErr == Some(if b.stderr != "" then b.stderr else BALANCE_FAILED))
      && (b.code == 0 ==> resp.balanceErr == None && resp.balance == (if b.stdout == "" then None else Some(b.stdout)))
    ensures resp.Report? ==> !(resp.balance.Some? && resp.balanceErr.Some?)
    ensures resp.Report? && resp.balance.Some? ==> resp.balance.value != "" && Bare(IsJsSpace, resp.balance.value)
    ensures resp.Report? && resp.balanceErr.Some? ==> resp.balanceErr.value != ""
  {
    log := [];
    if !Truthy(cfg.commitId) || !Truthy(cfg.userAddr) {
      resp := MissingConfig(MISSING_CONFIG);
      return;
    }
    var commitId := cfg.commitId.value;
    var userAddr := cfg.userAddr.value;

    var userArgs := UserArgs(commitId, userAddr);
    var userOut := RunStellar(oracle(|log|, userArgs));
    log := log + [userArgs];

    var balanceValue: Option<string> := None;
    var balanceErr: Option<string> := None;

    if Truthy(cfg.tokenId) {
      var balArgs := BalanceArgs(cfg.tokenId.value, userAddr);
      var balOut := RunStellar(oracle(|log|, balArgs));
      log := log + [balArgs];
      if balOut.code == 0 {
        balanceValue := if balOut.stdout != "" then Some(balOut.stdout) else None;
      } else {
        balanceErr := Some(if balOut.stderr != "" then balOut.stderr else BALANCE_FAILED);
      }
    }

    var userJson := parse(userOut.stdout);

    resp := Report(
      userOut.code == 0,
      Cmd(userArgs),
      userJson,
      userOut.stdout,
      if userOut.code == 0 then None else Some(userOut.stderr),
      balanceValue,
      balanceErr);
  }
}
