/**
 * The get-balance handler: one read-only token `balance` query for the
 * configured user, whose output is normalised by trimming and then removing
 * every leading and every trailing double quote.
 */
module GetBalanceApi {
  import opened Options
  import opened JsText
  import opened Process

  /** The configuration the handler reads: token id and user address. */
  datatype Config = Config(tokenId: Option<string>, userAddr: Option<string>)

  datatype Response =
    | MissingConfig(error: string, tokenId: Option<string>, userAddr: Option<string>)
    | CommandFailed(error: string, stderr: string, stdout: string)
    | Balance(balance: string)
  {
    predicate Ok() { Balance? }

    function Status(): nat { if MissingConfig? then 500 else 200 }
  }

  predicate IsQuote(c: char) { c == '"' }

  /** `s.replace(/^"+|"+$/g, "")`: the maximal runs of quotes at both ends removed. */
  function StripQuotes(s: string): (r: string)
    ensures Bare(IsQuote, r)
    ensures |r| <= |s|
  {
    Strip(IsQuote, s)
  }

  /** The balance the handler returns for the query's stdout. */
  function Normalize(stdout: string): (r: string)
    ensures Bare(IsQuote, r)
  {
    StripQuotes(Trim(stdout))
  }

  /**
   * Only the wrapping quotes go: any number of quotes around a core that does
   * not itself start or end with a quote leaves exactly that core.
   */
  lemma StripQuotesUnwraps(q1: string, m: string, q2: string)
    requires All(IsQuote, q1) && All(IsQuote, q2)
    requires Bare(IsQuote, m)
    ensures StripQuotes(q1 + m + q2) == m
  {
    StripUnwraps(IsQuote, q1, m, q2);
  }

  /** Stripping quotes twice is stripping them once. */
  lemma StripQuotesIdempotent(s: string)
    ensures StripQuotes(StripQuotes(s)) == StripQuotes(s)
  {
    StripIdempotent(IsQuote, s);
  }

  /** A string that does not start or end with a space is its own trim. */
  lemma TrimBare(s: string)
    requires Bare(IsJsSpace, s)
    ensures Trim(s) == s
  {
    assert [] + s + [] == s;
    StripUnwraps(IsJsSpace, [], s, []);
  }

  /** `"5"` normalises to `5`. */
  lemma NormalizeQuoted()
    ensures Normalize("\"5\"") == "5"
  {
    TrimBare("\"5\"");
    assert "\"" + "5" + "\"" == "\"5\"";
    StripQuotesUnwraps("\"", "5", "\"");
  }

  /** `""5""` normalises to `5`. */
  lemma NormalizeDoublyQuoted()
    ensures Normalize("\"\"5\"\"") == "5"
  {
    TrimBare("\"\"5\"\"");
    assert "\"\"" + "5" + "\"\"" == "\"\"5\"\"";
    StripQuotesUnwraps("\"\"", "5", "\"\"");
  }

  /** `5` is already normal. */
  lemma NormalizePlain()
    ensures Normalize("5") == "5"
  {
    TrimBare("5");
    assert [] + "5" + [] == "5";
    StripQuotesUnwraps([], "5", []);
  }

  /**
   * The handler. Without token id or user address nothing is invoked. A process
   * error reports the trimmed streams; otherwise the normalised stdout is the
   * balance, whatever stderr holds.
   */
  function Handle(cfg: Config, oracle: Oracle): (r: (Response, seq<Args>))
    ensures r.0.MissingConfig? <==> !(Truthy(cfg.tokenId) && Truthy(cfg.userAddr))
    ensures r.0.MissingConfig? ==> r.1 == [] && r.0 == MissingConfig("Missing env vars", cfg.tokenId, cfg.userAddr)
    ensures !r.0.MissingConfig? ==>
      var args := InvokeArgs("admin", cfg.tokenId.value, false, ["balance", "--id", cfg.userAddr.value]);
      var x := oracle(0, args);
      && r.1 == [args]
      && (x.error.Some? ==> r.0 == CommandFailed("stellar command failed", Trim(x.stderr.GetOr("")), Trim(x.stdout.GetOr(""))))
      && (x.error.None? ==> r.0 == Balance(Normalize(x.stdout.GetOr(""))))
    ensures r.0.Balance? ==> Bare(IsQuote, r.0.balance)
  {
    if !Truthy(cfg.tokenId) || !Truthy(cfg.userAddr) then
      (MissingConfig("Missing env vars", cfg.tokenId, cfg.userAddr), [])
    else
      var args := InvokeArgs("admin", cfg.tokenId.value, false, ["balance", "--id", cfg.userAddr.value]);
      var x := oracle(0, args);
      if x.error.Some? then
        (CommandFailed("stellar command failed", Trim(x.stderr.GetOr("")), Trim(x.stdout.GetOr(""))), [args])
      else
        (Balance(Normalize(x.stdout.GetOr(""))), [args])
  }
}
