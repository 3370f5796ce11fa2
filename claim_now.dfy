/**
 * The claim-now handler: resolve which local identity (user1 or user2) owns the
 * configured user address, then have that identity invoke `claim_now` for the
 * user on the commitment contract.
 */
module ClaimNowApi {
  import opened Options
  import opened JsText
  import opened Process

  /** The configuration the handler reads: contract id and current user address. */
  datatype Config = Config(commitId: Option<string>, userAddr: Option<string>)

  const MISSING_CONFIG := "Missing NEXT_PUBLIC_COMMIT_ID or NEXT_PUBLIC_USER_ADDR in frontend/.env.local"
  const UNKNOWN_SIGNER := "NEXT_PUBLIC_USER_ADDR is not user1/user2 on this machine. Set it to stellar keys address user1 or user2."

  datatype Response =
    | MissingConfig(error: string)
    | UnknownSigner(error: string, envUserAddr: string, user1Addr: string, user2Addr: string)
    | InvokeFailed(cmd: string, stdout: string, stderr: string)
    | Claimed(signedAs: string, cmd: string, stdout: string)
  {
    predicate Ok() { Claimed? }

    function Status(): nat { if Claimed? then 200 else 500 }

    /** The `stderr` field (absent or null unless the invocation failed). */
    function Stderr(): Option<string> {
      if InvokeFailed? then Some(stderr) else None
    }

    /** The `error` field. */
    function Error(): Option<string> {
      if MissingConfig? || UnknownSigner? then Some(error) else None
    }
  }

  /** The `claim_now` invocation signed by `signer` for `userAddr`. */
  function ClaimArgs(signer: string, commitId: string, userAddr: string): (args: Args)
    ensures |args| == 13 && args[0] == "contract" && args[1] == "invoke" && args[2] == "--network" && args[3] == "local"
    ensures args[4] == "--source-account" && args[6] == "--id" && args[9] == "--"
    ensures args[5] == signer && args[7] == commitId && args[8] == "--send=yes"
    ensures args[10] == "claim_now" && args[11] == "--user" && args[12] == userAddr
  {
    InvokeArgs(signer, commitId, true, ["claim_now", "--user", userAddr])
  }

  /**
   * The signing identity for `userAddr`: "user1" or "user2" by exact comparison
   * with their addresses, "user2" when both match, "" when neither does.
   */
  method ResolveSigner(userAddr: string, user1Addr: string, user2Addr: string) returns (account: string)
    ensures account == "user2" <==> userAddr == user2Addr
    ensures account == "user1" <==> userAddr == user1Addr && userAddr != user2Addr
    ensures account == "" <==> userAddr != user1Addr && userAddr != user2Addr
  {
    account := "";
    if userAddr == user1Addr {
      account := "user1";
    }
    if userAddr == user2Addr {
      account := "user2";
    }
  }

  /**
   * The handler. Missing configuration invokes nothing; otherwise the two key
   * lookups come first, and `claim_now` is invoked only for a resolved signer.
   */
  method Handle(cfg: Config, oracle: Oracle) returns (resp: Response, log: seq<Args>)
    ensures !(Truthy(cfg.commitId) && Truthy(cfg.userAddr)) <==> resp.MissingConfig?
    ensures resp.MissingConfig? ==> log == [] && resp.error == MISSING_CONFIG
    ensures !resp.MissingConfig? ==>
      var user := cfg.userAddr.value;
      var u1 := Trim(Run(oracle(0, KeysArgs("user1"))).stdout);
      var u2 := Trim(Run(oracle(1, KeysArgs("user2"))).stdout);
      && 2 <= |log| <= 3
      && log[0] == KeysArgs("user1") && log[1] == KeysArgs("user2")
      && (resp.UnknownSigner? <==> user != u1 && user != u2)
      && (resp.UnknownSigner? ==> |log| == 2 && resp == UnknownSigner(UNKNOWN_SIGNER, user, u1, u2))
      && (!resp.UnknownSigner? ==>
            |log| == 3 && log[2] == ClaimArgs(if user == u2 then "user2" else "user1", cfg.commitId.value, user))
    ensures |log| == 3 ==>
      var out := Run(oracle(2, log[2]));
      && (resp.InvokeFailed? <==> Failed(out))
      && (resp.InvokeFailed? ==> resp == InvokeFailed(Cmd(log[2]), out.stdout, out.stderr.value))
      && (resp.Claimed? ==> resp == Claimed(log[2][5], Cmd(log[2]), out.stdout))
    ensures resp.Claimed? ==> resp.signedAs in {"user1", "user2"}
  {
    log := [];
    if !Truthy(cfg.commitId) || !Truthy(cfg.userAddr) {
      resp := MissingConfig(MISSING_CONFIG);
      return;
    }
    var commitId := cfg.commitId.value;
    var userAddr := cfg.userAddr.value;

    var keys1 := KeysArgs("user1");
    var user1Addr := Trim(Run(oracle(0, keys1)).stdout);
    var keys2 := KeysArgs("user2");
    var user2Addr := Trim(Run(oracle(1, keys2)).stdout);
    log := [keys1, keys2];

    var sourceAccount := ResolveSigner(userAddr, user1Addr, user2Addr);
    if sourceAccount == "" {
      resp := UnknownSigner(UNKNOWN_SIGNER, userAddr, user1Addr, user2Addr);
      return;
    }
    assert sourceAccount == if userAddr == user2Addr then "user2" else "user1";

    var args := ClaimArgs(sourceAccount, commitId, userAddr);
    var out := Run(oracle(2, args));
    log := [keys1, keys2, args];

    if Truthy(out.stderr) {
      resp := InvokeFailed(Cmd(args), out.stdout, out.stderr.value);
      return;
    }
    resp := Claimed(sourceAccount, Cmd(args), out.stdout);
  }
}
