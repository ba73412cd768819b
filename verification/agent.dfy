/**
  The external mail agent as seen by the cache: a scripted oracle that answers each process
  launch, the three-attempt retry wrapper (`run_himalaya_with_retry`, which also serves
  `run_himalaya_raw`) and the JSON-decoding variant (`run_himalaya_json`).
*/
module Agent {
  import opened Wrappers
  import opened Text
  import opened Records

  /** What one launch of the agent produced. */
  datatype Attempt =
    | LaunchFailed(reason: string)
    | Exited(success: bool, stdout: Bytes, stderr: string)

  datatype AgentError =
    | LaunchError(reason: string)   // the binary could not be started; never retried
    | CommandFailed(stderr: string) // every attempt exited unsuccessfully; trimmed last stderr
    | DecodeFailed                  // stdout was not the expected JSON

  const MaxAttempts: nat := 3

  /** The outcome of the retry loop: its result, how many launches it made and how often it slept. */
  datatype RetryRun = RetryRun(result: Result<Bytes, AgentError>, attempts: nat, sleeps: nat)

  /**
    The retry loop from attempt number `attempt` (counting from 0) on, given the outcomes the
    next `MaxAttempts` launches will have. A launch error or a success ends the loop; an
    unsuccessful exit records its stderr and sleeps when another attempt remains.
  */
  function RetryFrom(window: seq<Attempt>, attempt: nat, lastError: Option<string>, sleeps: nat): (run: RetryRun)
    requires |window| == MaxAttempts && attempt <= MaxAttempts
    ensures attempt <= run.attempts <= MaxAttempts
    ensures attempt < MaxAttempts ==> attempt < run.attempts
    ensures run.sleeps + attempt == sleeps + run.attempts - (if run.attempts == attempt then 0 else 1)
    decreases MaxAttempts - attempt
  {
    if attempt == MaxAttempts then
      RetryRun(Failure(CommandFailed(Trim(lastError.GetOr("unknown error")))), attempt, sleeps)
    else
      match window[attempt]
      case LaunchFailed(reason) => RetryRun(Failure(LaunchError(reason)), attempt + 1, sleeps)
      case Exited(success, stdout, stderr) =>
        if success then RetryRun(Success(stdout), attempt + 1, sleeps)
        else RetryFrom(window, attempt + 1, Some(stderr), if attempt + 1 < MaxAttempts then sleeps + 1 else sleeps)
  }

  function Retry(window: seq<Attempt>): RetryRun
    requires |window| == MaxAttempts
  {
    RetryFrom(window, 0, None, 0)
  }

  predicate FailedExit(a: Attempt) {
    a.Exited? && !a.success
  }

  /** At most three launches, and one sleep between each two consecutive launches, never after the last. */
  lemma RetryBounds(window: seq<Attempt>)
    requires |window| == MaxAttempts
    ensures 1 <= Retry(window).attempts <= MaxAttempts
    ensures Retry(window).sleeps == Retry(window).attempts - 1
  {
  }

  /** The first successful launch ends the loop and its stdout is the result. */
  lemma RetryReturnsFirstSuccess(window: seq<Attempt>, k: nat)
    requires |window| == MaxAttempts && k < MaxAttempts
    requires forall j :: 0 <= j < k ==> FailedExit(window[j])
    requires window[k].Exited? && window[k].success
    ensures Retry(window) == RetryRun(Success(window[k].stdout), k + 1, k)
  {
    if k >= 1 {
      assert Retry(window) == RetryFrom(window, 1, Some(window[0].stderr), 1);
      if k >= 2 {
        assert RetryFrom(window, 1, Some(window[0].stderr), 1) == RetryFrom(window, 2, Some(window[1].stderr), 2);
      }
    }
  }

  /** A launch error surfaces at once: no further launch and no further sleep. */
  lemma RetryStopsOnLaunchError(window: seq<Attempt>, k: nat)
    requires |window| == MaxAttempts && k < MaxAttempts
    requires forall j :: 0 <= j < k ==> FailedExit(window[j])
    requires window[k].LaunchFailed?
    ensures Retry(window) == RetryRun(Failure(LaunchError(window[k].reason)), k + 1, k)
  {
    if k >= 1 {
      assert Retry(window) == RetryFrom(window, 1, Some(window[0].stderr), 1);
      if k >= 2 {
        assert RetryFrom(window, 1, Some(window[0].stderr), 1) == RetryFrom(window, 2, Some(window[1].stderr), 2);
      }
    }
  }

  /** Three unsuccessful exits: the error carries the trimmed stderr of the third, after exactly two sleeps. */
  lemma RetryExhausted(window: seq<Attempt>)
    requires |window| == MaxAttempts
    requires FailedExit(window[0]) && FailedExit(window[1]) && FailedExit(window[2])
    ensures Retry(window) == RetryRun(Failure(CommandFailed(Trim(window[2].stderr))), 3, 2)
  {
    assert Retry(window) == RetryFrom(window, 1, Some(window[0].stderr), 1);
    assert RetryFrom(window, 1, Some(window[0].stderr), 1) == RetryFrom(window, 2, Some(window[1].stderr), 2);
    assert RetryFrom(window, 2, Some(window[1].stderr), 2) == RetryFrom(window, 3, Some(window[2].stderr), 2);
  }

  /** The outcomes of the next `MaxAttempts` launches once `n` launches have been made. */
  function WindowOf(script: nat -> Attempt, n: nat): (w: seq<Attempt>)
    ensures |w| == MaxAttempts && forall k :: 0 <= k < MaxAttempts ==> w[k] == script(n + k)
  {
    seq(MaxAttempts, k requires 0 <= k => script(n + k))
  }

  /** `run_himalaya_json` on a known window of outcomes: the retried stdout, decoded. */
  function FetchJson<T>(window: seq<Attempt>, decode: Bytes -> Option<T>): (r: Result<T, AgentError>)
    requires |window| == MaxAttempts
    ensures r.Success? ==> Retry(window).result.Success? && decode(Retry(window).result.value) == Some(r.value)
    ensures r.Failure? && Retry(window).result.Success? ==> r.error == DecodeFailed
    ensures Retry(window).result.Failure? ==> r == Failure(Retry(window).result.error)
    ensures Retry(window).result.Success? && decode(Retry(window).result.value).Some? ==>
      r == Success(decode(Retry(window).result.value).value)
  {
    match Retry(window).result
    case Failure(e) => Failure(e)
    case Success(stdout) =>
      match decode(stdout)
      case None => Failure(DecodeFailed)
      case Some(v) => Success(v)
  }

  /** The JSON decoders (serde) for the three listings the sync fetches. */
  datatype Codec = Codec(
    accounts: Bytes -> Option<seq<Account>>,
    folders: Bytes -> Option<seq<Folder>>,
    envelopes: Bytes -> Option<seq<Envelope>>)

  const PageSize: string := "999"

  function AccountListArgs(): seq<string> { ["account", "list", "-o", "json"] }
  function FolderListArgs(account: string): seq<string> { ["folder", "list", "--account", account, "-o", "json"] }
  function EnvelopeListArgs(account: string, folder: string): seq<string> {
    ["envelope", "list", "--folder", folder, "--account", account, "--page-size", PageSize, "-o", "json"]
  }
  function MessageReadArgs(account: string, folder: string, id: string): seq<string> {
    ["message", "read", id, "--folder", folder, "--account", account]
  }

  predicate IsFolderListCall(c: seq<string>) { |c| >= 2 && c[0] == "folder" && c[1] == "list" }
  predicate IsMessageReadCall(c: seq<string>) { |c| == 7 && c[0] == "message" && c[1] == "read" }

  /** The account, folder and id a `message read` call asks for. */
  function ReadRequest(c: seq<string>): (string, string, string)
    requires IsMessageReadCall(c)
  {
    (c[6], c[4], c[2])
  }

  /** The four argument vectors are told apart by their first two words. */
  lemma CallShapes(account: string, folder: string, id: string)
    ensures IsMessageReadCall(MessageReadArgs(account, folder, id))
    ensures ReadRequest(MessageReadArgs(account, folder, id)) == (account, folder, id)
    ensures !IsMessageReadCall(AccountListArgs()) && !IsFolderListCall(AccountListArgs())
    ensures !IsMessageReadCall(FolderListArgs(account)) && IsFolderListCall(FolderListArgs(account))
    ensures !IsMessageReadCall(EnvelopeListArgs(account, folder)) && !IsFolderListCall(EnvelopeListArgs(account, folder))
    ensures !IsFolderListCall(MessageReadArgs(account, folder, id))
    ensures EnvelopeListArgs(account, folder) != AccountListArgs() && MessageReadArgs(account, folder, id) != AccountListArgs()
    ensures FolderListArgs(account) != AccountListArgs()
  {
    assert FolderListArgs(account)[0] != AccountListArgs()[0];
    assert EnvelopeListArgs(account, folder)[0] != AccountListArgs()[0];
    assert MessageReadArgs(account, folder, id)[0] != AccountListArgs()[0];
  }

  /**
    The agent process. `script(n)` is what the n-th launch (counting every attempt) will
    produce; `calls` records the argument vector of every launch and `sleeps` counts the
    2.5-second back-off pauses.
  */
  class Agent {
    const script: nat -> Attempt
    var calls: seq<seq<string>>
    var sleeps: nat

    constructor (script: nat -> Attempt)
      ensures this.script == script && calls == [] && sleeps == 0
    {
      this.script := script;
      calls := [];
      sleeps := 0;
    }

    /** One launch of the agent with `args`. */
    method Invoke(args: seq<string>) returns (outcome: Attempt)
      modifies this
      ensures outcome == script(|old(calls)|)
      ensures calls == old(calls) + [args] && sleeps == old(sleeps)
    {
      outcome := script(|calls|);
      calls := calls + [args];
    }

    /** `run_himalaya_with_retry`, returning stdout on success (`run_himalaya_raw`). */
    method RunWithRetry(args: seq<string>) returns (r: Result<Bytes, AgentError>)
      modifies this
      ensures var run := Retry(WindowOf(script, |old(calls)|));
        r == run.result && calls == old(calls) + seq(run.attempts, _ => args)
        && sleeps == old(sleeps) + run.sleeps
    {
      ghost var n := |calls|;
      ghost var window := WindowOf(script, n);
      var lastError: Option<string> := None;
      var attempt := 1;
      while attempt <= MaxAttempts
        invariant 1 <= attempt <= MaxAttempts + 1
        invariant calls == old(calls) + seq(attempt - 1, _ => args)
        invariant sleeps >= old(sleeps)
        invariant RetryFrom(window, attempt - 1, lastError, sleeps - old(sleeps)) == Retry(window)
      {
        var outcome := Invoke(args);
        match outcome {
          case LaunchFailed(reason) =>
            r := Failure(LaunchError(reason));
            return;
          case Exited(success, stdout, stderr) =>
            if success {
              r := Success(stdout);
              return;
            }
            lastError := Some(stderr);
            if attempt < MaxAttempts {
              sleeps := sleeps + 1;
            }
        }
        attempt := attempt + 1;
      }
      r := Failure(CommandFailed(Trim(lastError.GetOr("unknown error"))));
    }

    /** `run_himalaya_json`: the retried stdout decoded with `decode`. */
    method RunJson<T>(args: seq<string>, decode: Bytes -> Option<T>) returns (r: Result<T, AgentError>)
      modifies this
      ensures r == FetchJson(WindowOf(script, |old(calls)|), decode)
      ensures var run := Retry(WindowOf(script, |old(calls)|));
        calls == old(calls) + seq(run.attempts, _ => args) && sleeps == old(sleeps) + run.sleeps
    {
      var output := RunWithRetry(args);
      match output {
        case Failure(e) => r := Failure(e);
        case Success(stdout) =>
          match decode(stdout) {
            case None => r := Failure(DecodeFailed);
            case Some(v) => r := Success(v);
          }
      }
    }
  }
}
