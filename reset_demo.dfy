/**
 * The reset-demo handler: prepare the demo identity other than the current user,
 * in two ordered steps signed by the admin identity: grant it eligibility
 * (tier 0) on the commitment contract, then mint 1000 tokens to the contract.
 * The first failing step ends the request and is reported by name.
 */
module ResetDemoApi {
  import opened Options
  import opened JsText
  import opened Process

  /** The configuration the handler reads: contract id, token id, current user address. */
  datatype Config = Config(commitId: Option<string>, tokenId: Option<string>, userAddr: Option<string>)

  const MISSING_CONFIG := "Missing NEXT_PUBLIC_COMMIT_ID or NEXT_PUBLIC_TOKEN_ID in frontend/.env.local"

  /** The command and output of a step that succeeded (its stderr is reported as null). */
  datatype StepOutput = StepOutput(cmd: string, stdout: string)

  datatype Response =
    | WrongMethod
    | MissingConfig(error: string)
    | StepFailed(step: string, cmd: string, stdout: string, stderr: string)
    | Prepared(nextUserPrepared: string, setEligible: StepOutput, mintToContract: StepOutput)
  {
    predicate Ok() { Prepared? }

    function Status(): nat {
      if WrongMethod? then 405 else if Prepared? then 200 else 500
    }

    /** The `stderr` field (absent unless a step failed). */
    function Stderr(): Option<string> {
      if StepFailed? then Some(stderr) else None
    }

    /** The `error` field. */
    function Error(): Option<string> {
      match this
      case WrongMethod => Some("Use POST")
      case MissingConfig(e) => Some(e)
      case _ => None
    }
  }

  /**
   * The identity to prepare: user1 when the current address is user2's,
   * otherwise user2. With two distinct identities this alternates: the current
   * one of the pair is never chosen, and an unknown current address gets user2.
   */
  function NextUser(current: string, user1: string, user2: string): (next: string)
    ensures next == user1 || next == user2
    ensures current == user2 ==> next == user1
    ensures current != user2 ==> next == user2
    ensures user1 != user2 && (current == user1 || current == user2) ==> next != current
  {
    if current == user2 then user1 else user2
  }

  /** Step 1: the admin grants `user` eligibility for tier 0. */
  function SetEligibleArgs(commitId: string, user: string): (args: Args)
    ensures |args| == 15 && args[0] == "contract" && args[1] == "invoke" && args[2] == "--network" && args[3] == "local"
    ensures args[4] == "--source-account" && args[6] == "--id" && args[9] == "--"
    ensures args[5] == "admin" && args[7] == commitId && args[8] == "--send=yes"
    ensures args[10] == "admin_set_eligible" && args[11] == "--user" && args[12] == user
    ensures args[13] == "--tier_id" && args[14] == "0"
  {
    InvokeArgs("admin", commitId, true, ["admin_set_eligible", "--user", user, "--tier_id", "0"])
  }

  /** Step 2: the admin mints 1000 tokens to the contract. */
  function MintArgs(tokenId: string, commitId: string): (args: Args)
    ensures |args| == 15 && args[0] == "contract" && args[1] == "invoke" && args[2] == "--network" && args[3] == "local"
    ensures args[4] == "--source-account" && args[6] == "--id" && args[9] == "--"
    ensures args[5] == "admin" && args[7] == tokenId && args[8] == "--send=yes"
    ensures args[10] == "mint" && args[11] == "--to" && args[12] == commitId
    ensures args[13] == "--amount" && args[14] == "1000"
  {
    InvokeArgs("admin", tokenId, true, ["mint", "--to", commitId, "--amount", "1000"])
  }

  /**
   * The handler. Anything but POST, or missing ids, invokes nothing. Otherwise
   * the key lookups for user1 and user2 come first, then step 1, and step 2
   * only if step 1 succeeded; a failed step is reported with its own command,
   * stdout and stderr.
   */
  method Handle(httpMethod: string, cfg: Config, oracle: Oracle) returns (resp: Response, log: seq<Args>)
    ensures httpMethod != "POST" ==> resp == WrongMethod && log == []
    ensures httpMethod == "POST" && !(Truthy(cfg.commitId) && Truthy(cfg.tokenId)) ==>
      resp == MissingConfig(MISSING_CONFIG) && log == []
    ensures httpMethod == "POST" && Truthy(cfg.commitId) && Truthy(cfg.tokenId) ==>
      var next := NextUser(Trim(cfg.userAddr.GetOr("")),
                           Trim(Run(oracle(0, KeysArgs("user1"))).stdout),
                           Trim(Run(oracle(1, KeysArgs("user2"))).stdout));
      && 3 <= |log| <= 4
      && log[..3] == [KeysArgs("user1"), KeysArgs("user2"), SetEligibleArgs(cfg.commitId.value, next)]
      && (|log| == 4 <==> !Failed(Run(oracle(2, log[2]))))
      && (|log| == 4 ==> log[3] == MintArgs(cfg.tokenId.value, cfg.commitId.value))
      && (resp.Prepared? ==> resp.nextUserPrepared == next)
    ensures |log| == 3 ==>
      var s1 := Run(oracle(2, log[2]));
      resp == StepFailed("setEligible", Cmd(log[2]), s1.stdout, s1.stderr.value)
    ensures |log| == 4 ==>
      var s1 := Run(oracle(2, log[2]));
      var s2 := Run(oracle(3, log[3]));
      && (Failed(s2) ==> resp == StepFailed("mintToContract", Cmd(log[3]), s2.stdout, s2.stderr.value))
      && (!Failed(s2) ==>
            && resp.Prepared?
            && resp.setEligible == StepOutput(Cmd(log[2]), s1.stdout)
            && resp.mintToContract == StepOutput(Cmd(log[3]), s2.stdout))
    ensures resp.Prepared? <==> |log| == 4 && !Failed(Run(oracle(3, log[3])))
  {
    log := [];
    if httpMethod != "POST" {
      resp := WrongMethod;
      return;
    }
    if !Truthy(cfg.commitId) || !Truthy(cfg.tokenId) {
      resp := MissingConfig(MISSING_CONFIG);
      return;
    }
    var commitId := cfg.commitId.value;
    var tokenId := cfg.tokenId.value;

    var keys1 := KeysArgs("user1");
    var user1 := Trim(Run(oracle(0, keys1)).stdout);
    var keys2 := KeysArgs("user2");
    var user2 := Trim(Run(oracle(1, keys2)).stdout);
    var current := Trim(cfg.userAddr.GetOr(""));

    var nextUser := NextUser(current, user1, user2);

    var setEligibleArgs := SetEligibleArgs(commitId, nextUser);
    var setEligible := Run(oracle(2, setEligibleArgs));
    log := [keys1, keys2, setEligibleArgs];

    if Truthy(setEligible.stderr) {
      resp := StepFailed("setEligible", Cmd(setEligibleArgs), setEligible.stdout, setEligible.stderr.value);
      return;
    }

    var mintArgs := MintArgs(tokenId, commitId);
    var mintToContract := Run(oracle(3, mintArgs));
    log := [keys1, keys2, setEligibleArgs, mintArgs];
    assert log[..3] == [keys1, keys2, setEligibleArgs];

    if Truthy(mintToContract.stderr) {
      resp := StepFailed("mintToContract", Cmd(mintArgs), mintToContract.stdout, mintToContract.stderr.value);
      return;
    }

    resp := Prepared(
      nextUser,
      StepOutput(Cmd(setEligibleArgs), setEligible.stdout),
      StepOutput(Cmd(mintArgs), mintToContract.stdout));
  }
}
