/**
 * The process invoker the API handlers use to run the `stellar` command-line
 * client. The operating system is a scripted oracle: the reply to a handler's
 * n-th invocation (counting from 0) given its argument list. Each handler keeps
 * the list of argument lists it invoked, in order, as its invocation log.
 */
module Process {
  import opened Options
  import opened JsText

  /** One argument list passed to `stellar`. */
  type Args = seq<string>

  /**
   * What `execFile`'s callback receives: the error's message when the process
   * failed (could not start or exited non-zero), and the captured output streams.
   */
  datatype Exec = Exec(error: Option<string>, stdout: Option<string>, stderr: Option<string>)

  /** The scripted replies: `oracle(n, args)` answers the n-th invocation. */
  type Oracle = (nat, Args) -> Exec

  /** JavaScript truthiness of a possibly-missing string: present and non-empty. */
  predicate Truthy(o: Option<string>) {
    o.Some? && o.value != ""
  }

  /** The `{ stdout, stderr }` record `run` resolves to. */
  datatype Output = Output(stdout: string, stderr: Option<string>)

  /** A handler treats an invocation as failed when its stderr is truthy. */
  predicate Failed(out: Output) {
    Truthy(out.stderr)
  }

  /**
   * `run`: never rejects. After a process error stderr is the captured stderr,
   * else the error message, else ""; after success it is the captured stderr or
   * null. So an invocation fails exactly when some diagnostic text came back,
   * also when the process itself reported success.
   */
  function Run(x: Exec): (out: Output)
    ensures out.stdout == x.stdout.GetOr("")
    ensures Failed(out) <==> Truthy(x.stderr) || (x.error.Some? && Truthy(x.error))
    ensures x.error.Some? && Truthy(x.stderr) ==> out.stderr == x.stderr
    ensures x.error.Some? && !Truthy(x.stderr) && Truthy(x.error) ==> out.stderr == x.error
    ensures x.error.Some? && !Truthy(x.stderr) && !Truthy(x.error) ==> out.stderr == Some("")
    ensures x.error.None? ==> out.stderr == x.stderr
  {
    var stdout := x.stdout.GetOr("");
    if x.error.Some? then
      Output(stdout, Some(if Truthy(x.stderr) then x.stderr.value else if Truthy(x.error) then x.error.value else ""))
    else
      Output(stdout, x.stderr)
  }

  /** The command line echoed back for diagnostics: `stellar` and the arguments joined by spaces. */
  function Cmd(args: Args): string {
    "stellar " + Join(args, " ")
  }

  /** The echoed command starts with `stellar `, then the first argument. */
  lemma CmdLeads(args: Args)
    ensures |Cmd(args)| >= 8 && Cmd(args)[..8] == "stellar "
    ensures |args| > 0 ==> |Cmd(args)| >= 8 + |args[0]| && Cmd(args)[8..8 + |args[0]|] == args[0]
  {
  }

  /** `stellar keys address <identity>`: print the address of a local identity. */
  function KeysArgs(identity: string): Args {
    ["keys", "address", identity]
  }

  /** A key lookup is echoed as `stellar keys address <identity>`. */
  lemma KeysCmd(identity: string)
    ensures |KeysArgs(identity)| == 3 && KeysArgs(identity)[2] == identity
    ensures Cmd(KeysArgs(identity)) == "stellar keys address " + identity
  {
    var args := KeysArgs(identity);
    assert args == ["keys"] + ["address"] + [identity];
    JoinAppend(["keys"], "address", " ");
    assert ["keys"] + ["address"] == ["keys", "address"];
    JoinAppend(["keys", "address"], identity, " ");
  }

  /**
   * `stellar contract invoke` on the local network: the signing identity and the
   * contract id, `--send=yes` for a transaction that is submitted, then `--` and
   * the contract call.
   */
  function InvokeArgs(source: string, id: string, send: bool, call: seq<string>): Args {
    ["contract", "invoke", "--network", "local", "--source-account", source, "--id", id]
    + (if send then ["--send=yes"] else []) + ["--"] + call
  }

  /** The layout of every `contract invoke`: fixed flags, signer, id, optional send, `--`, the call. */
  lemma InvokeLayout(source: string, id: string, send: bool, call: seq<string>)
    ensures var args := InvokeArgs(source, id, send, call);
      && |args| == (if send then 10 else 9) + |call|
      && args[0] == "contract" && args[1] == "invoke" && args[2] == "--network" && args[3] == "local"
      && args[4] == "--source-account" && args[5] == source && args[6] == "--id" && args[7] == id
      && (send ==> args[8] == "--send=yes")
      && args[|args| - |call| - 1] == "--" && args[|args| - |call|..] == call
  {
  }
}
