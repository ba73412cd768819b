/**
  `run_sync`: fetch the account list (unless one account is named), each account's folder
  list (unless one folder is named), each folder's envelope list, and for every envelope
  store its metadata and, when not cached yet, its message body.

  Failures fall in three classes. Fatal ones end the sync with an error: a scope naming a
  folder but no account, the cache root that cannot be created, the account list that cannot
  be fetched, and any list file that cannot be written. A folder or envelope list that cannot
  be fetched skips that account or folder with a warning. A per-envelope failure (metadata
  write, body fetch, body write) is a warning and the next envelope goes on.
*/
module Sync {
  import opened Wrappers
  import opened Text
  import opened Records
  import opened Store
  import opened Agent
  import opened Steps

  /** `--account` and `--folder` of the `sync` command. */
  datatype Scope = Scope(account: Option<string>, folder: Option<string>)

  predicate ValidScope(scope: Scope) {
    !(scope.folder.Some? && scope.account.None?)
  }

  datatype SyncError =
    | InvalidScope                        // `--folder` without `--account`
    | CacheDirFailed                      // the cache root could not be created
    | AccountListFailed(error: AgentError)
    | AccountListWriteFailed
    | FolderListWriteFailed(account: string)
    | EnvelopeListWriteFailed(account: string, folder: string)

  /** The progress bar of one folder: its length and how far it has advanced. */
  class ProgressBar {
    const len: nat
    var pos: nat

    constructor (len: nat)
      ensures this.len == len && pos == 0
    {
      this.len := len;
      pos := 0;
    }

    method Inc()
      modifies this
      ensures pos == old(pos) + 1
    {
      pos := pos + 1;
    }
  }

  /** Where a folder's progress bar stood when it finished. */
  datatype FolderReport = FolderReport(account: string, folder: string, done: nat, total: nat)

  /** The calls one envelope may make: reads of its own message, and only of one not cached before. */
  ghost predicate EnvelopeCalls(calls: seq<seq<string>>, files: Files, account: string, folder: string, id: string) {
    forall c | c in calls :: c == MessageReadArgs(account, folder, id) && MessagePath(account, folder, id) !in files
  }

  /**
    One envelope of the parallel fan-out. `it` is what the environment gave it: the new cache
    is `EnvelopeStep` of the old one, the operations and launches used are those of `Advance`,
    and the bar advances by exactly one on every path.
  */
  method SyncEnvelope(cache: Cache, agent: Agent, bar: ProgressBar, account: string, folder: string, e: Envelope)
    returns (warning: Option<Warning>, ghost it: Item)
    modifies cache, agent, bar
    ensures var w := World(old(cache.files), old(cache.ops), |old(agent.calls)|);
      && it == Item(e, EnvelopeOutcome(cache.faulty, agent.script, w, account, folder, e))
      && World(cache.files, cache.ops, |agent.calls|) == Advance(cache.faulty, agent.script, w, account, folder, e)
    ensures bar.pos == old(bar.pos) + 1
    ensures old(agent.calls) <= agent.calls
    ensures !Fetches(cache.faulty, World(old(cache.files), old(cache.ops), |old(agent.calls)|), account, folder, e) ==>
      agent.calls == old(agent.calls)
    ensures EnvelopeCalls(agent.calls[|old(agent.calls)|..], old(cache.files), account, folder, e.id)
    ensures warning == EnvelopeWarning(cache.faulty, agent.script, World(old(cache.files), old(cache.ops), |old(agent.calls)|), account, folder, e)
    ensures warning.None? <==>
      it.outcome.metaWritten
      && (MessagePath(account, folder, e.id) in old(cache.files) || (it.outcome.body.Some? && it.outcome.bodyWritten))
  {
    ghost var w := World(cache.files, cache.ops, |agent.calls|);
    var meta := MetaPath(account, folder, e.id);
    var message := MessagePath(account, folder, e.id);
    EnvelopePathsDistinct(account, folder, e.id, e.id);
    var metaOk := cache.Write(meta, EnvelopeRecord(e));
    if !metaOk {
      warning := Some(MetaWriteFailed(account, folder, e.id));
      it := Item(e, StepOutcome(false, None, false));
      bar.Inc();
      return;
    }
    if !cache.Exists(message) {
      var fetched := agent.RunWithRetry(MessageReadArgs(account, folder, e.id));
      RetryBounds(WindowOf(agent.script, w.launches));
      match fetched {
        case Failure(err) =>
          warning := Some(MessageFetchFailed(account, folder, e.id, err));
          it := Item(e, StepOutcome(true, None, false));
          bar.Inc();
          return;
        case Success(bytes) =>
          var bodyOk := cache.Write(message, MessageBody(bytes));
          it := Item(e, StepOutcome(true, Some(bytes), bodyOk));
          if !bodyOk {
            warning := Some(MessageWriteFailed(account, folder, e.id));
            bar.Inc();
            return;
          }
      }
    } else {
      it := Item(e, StepOutcome(true, None, false));
    }
    warning := None;
    bar.Inc();
  }

  /** The paths syncing one folder writes: its envelope list, metadata files and message bodies. */
  predicate FolderPath(account: string, folder: string, p: Path) {
    p == EnvelopesPath(account, folder) || InFolder(account, folder, p)
  }

  /** The calls syncing one folder may make. */
  ghost predicate FolderCall(c: seq<string>, files: Files, account: string, folder: string) {
    c == EnvelopeListArgs(account, folder)
    || (IsMessageReadCall(c) && c == MessageReadArgs(account, folder, c[2]) && MessagePath(account, folder, c[2]) !in files)
  }

  /**
    Calls made after the folder's envelope list was written are folder calls against the files
    from before the write too, since the write touched no message path.
  */
  lemma FolderCallsAfterList(calls0: seq<seq<string>>, calls1: seq<seq<string>>, calls: seq<seq<string>>,
                             files0: Files, list: Content, account: string, folder: string)
    requires calls0 <= calls1 <= calls
    requires forall i :: |calls0| <= i < |calls1| ==> calls1[i] == EnvelopeListArgs(account, folder)
    requires forall k :: |calls1| <= k < |calls| ==>
      FolderCall(calls[k], files0[EnvelopesPath(account, folder) := list], account, folder)
    ensures forall k :: |calls0| <= k < |calls| ==> FolderCall(calls[k], files0, account, folder)
  {
    forall k | |calls0| <= k < |calls|
      ensures FolderCall(calls[k], files0, account, folder)
    {
      if k >= |calls1| {
        var c := calls[k];
        if c != EnvelopeListArgs(account, folder) {
          assert MessagePath(account, folder, c[2]) !in files0;
        }
      } else {
        assert calls[k] == calls1[k];
      }
    }
  }

  /** The calls of one more envelope keep every call since `calls0` a folder call against `files0`. */
  lemma EnvelopeCallsAreFolderCalls(calls0: seq<seq<string>>, callsBefore: seq<seq<string>>, calls: seq<seq<string>>,
                                    files0: Files, before: Files, account: string, folder: string, id: string)
    requires calls0 <= callsBefore <= calls
    requires forall k :: |calls0| <= k < |callsBefore| ==> FolderCall(callsBefore[k], files0, account, folder)
    requires EnvelopeCalls(calls[|callsBefore|..], before, account, folder, id)
    requires BodiesKept(files0, before)
    ensures forall k :: |calls0| <= k < |calls| ==> FolderCall(calls[k], files0, account, folder)
  {
    forall k | |calls0| <= k < |calls|
      ensures FolderCall(calls[k], files0, account, folder)
    {
      if k >= |callsBefore| {
        var c := calls[k];
        assert c in calls[|callsBefore|..];
        CallShapes(account, folder, id);
        assert MessagePath(account, folder, id) !in before;
        assert IsMessagePath(MessagePath(account, folder, id));
      } else {
        assert calls[k] == callsBefore[k];
      }
    }
  }

  /**
    The fan-out over one folder's envelopes, as a sequential loop: every envelope gets its
    step, and its failures become warnings that do not stop the others.
  */
  method SyncEnvelopes(cache: Cache, agent: Agent, bar: ProgressBar, account: string, folder: string, envelopes: seq<Envelope>)
    returns (warnings: seq<Warning>, ghost items: seq<Item>)
    modifies cache, agent, bar
    ensures FanOut(cache.faulty, agent.script, account, folder, envelopes, World(old(cache.files), old(cache.ops), |old(agent.calls)|))
         == Pass(World(cache.files, cache.ops, |agent.calls|), items, warnings)
    ensures bar.pos == old(bar.pos) + |envelopes|
    ensures cache.files == Fold(old(cache.files), account, folder, items)
    ensures old(agent.calls) <= agent.calls
    ensures forall k :: |old(agent.calls)| <= k < |agent.calls| ==> FolderCall(agent.calls[k], old(cache.files), account, folder)
  {
    ghost var files0 := cache.files;
    ghost var calls0 := agent.calls;
    warnings := [];
    items := [];
    ghost var w0 := World(cache.files, cache.ops, |agent.calls|);
    var i := 0;
    while i < |envelopes|
      invariant 0 <= i <= |envelopes|
      invariant bar.pos == old(bar.pos) + i
      invariant FanOut(cache.faulty, agent.script, account, folder, envelopes[..i], w0)
             == Pass(World(cache.files, cache.ops, |agent.calls|), items, warnings)
      invariant cache.files == Fold(files0, account, folder, items)
      invariant calls0 <= agent.calls
      invariant forall k :: |calls0| <= k < |agent.calls| ==> FolderCall(agent.calls[k], files0, account, folder)
    {
      ghost var before := cache.files;
      ghost var callsBefore := agent.calls;
      var warning, it := SyncEnvelope(cache, agent, bar, account, folder, envelopes[i]);
      FanOutSnoc(cache.faulty, agent.script, account, folder, envelopes, i, w0);
      if warning.Some? {
        warnings := warnings + [warning.value];
      }
      assert (items + [it])[..|items|] == items;
      items := items + [it];
      assert BodiesKept(files0, before);
      EnvelopeCallsAreFolderCalls(calls0, callsBefore, agent.calls, files0, before, account, folder, envelopes[i].id);
      i := i + 1;
    }
    assert envelopes[..i] == envelopes;
  }

  /**
    What the environment holds fixed for a whole sync: which filesystem operations fail, what
    each launch of the agent produces, and how its output decodes.
  */
  datatype Env = Env(faulty: set<nat>, script: nat -> Attempt, codec: Codec)

  /**
    Where a part of the sync leaves the environment and what it produced: the fatal error that
    ended it (if any), and its warnings and folder reports in the order they were made.
  */
  datatype Run = Run(world: World, fatal: Option<SyncError>, warnings: seq<Warning>, reports: seq<FolderReport>)

  function Start(w: World): Run {
    Run(w, None, [], [])
  }

  /** `r` followed by `next`, which started where `r` ended. */
  function Then(r: Run, next: Run): Run {
    Run(next.world, next.fatal, r.warnings + next.warnings, r.reports + next.reports)
  }

  /** The launch count after one agent call with retries made in world `w`. */
  function Launched(script: nat -> Attempt, w: World): nat {
    w.launches + Retry(WindowOf(script, w.launches)).attempts
  }

  /**
    Syncing `folder` of `account` from world `w`: a failed envelope-list fetch skips the folder
    with a warning, a failed list write is fatal, and otherwise the fan-out runs over the
    fetched envelopes from the cache holding the list.
  */
  function FolderRun(env: Env, account: string, folder: string, w: World): Run {
    var fetched := FetchJson(WindowOf(env.script, w.launches), env.codec.envelopes);
    var launches := Launched(env.script, w);
    if fetched.Failure? then
      Run(World(w.files, w.ops, launches), None, [EnvelopeListSkipped(account, folder, fetched.error)], [])
    else if w.ops in env.faulty then
      Run(World(w.files, w.ops + 1, launches), Some(EnvelopeListWriteFailed(account, folder)), [], [])
    else
      var listed := World(w.files[EnvelopesPath(account, folder) := EnvelopeList(fetched.value)], w.ops + 1, launches);
      var pass := FanOut(env.faulty, env.script, account, folder, fetched.value, listed);
      Run(pass.world, None, pass.warnings, [FolderReport(account, folder, |fetched.value|, |fetched.value|)])
  }

  /** `FolderRun` when the envelope list was fetched and written. */
  lemma {:induction false} FolderRunListed(env: Env, account: string, folder: string, w: World, envelopes: seq<Envelope>)
    requires FetchJson(WindowOf(env.script, w.launches), env.codec.envelopes) == Success(envelopes)
    requires w.ops !in env.faulty
    ensures var listed := World(w.files[EnvelopesPath(account, folder) := EnvelopeList(envelopes)], w.ops + 1, Launched(env.script, w));
      var pass := FanOut(env.faulty, env.script, account, folder, envelopes, listed);
      var r := FolderRun(env, account, folder, w);
      r.world == pass.world && r.fatal.None? && r.warnings == pass.warnings
      && r.reports == [FolderReport(account, folder, |envelopes|, |envelopes|)]
  {
  }

  /**
    What syncing one folder does to the cache: every cached body stays, and nothing outside the
    folder's paths changes (so no account or folder list either).
  */
  lemma {:induction false} FolderRunKeeps(env: Env, account: string, folder: string, w: World)
    ensures var r := FolderRun(env, account, folder, w);
      && BodiesKept(w.files, r.world.files)
      && (forall p :: !FolderPath(account, folder, p) ==> SameAt(w.files, r.world.files, p))
      && ListsKept(w.files, r.world.files)
  {
    var r := FolderRun(env, account, folder, w);
    var fetched := FetchJson(WindowOf(env.script, w.launches), env.codec.envelopes);
    if fetched.Success? && w.ops !in env.faulty {
      var listed := World(w.files[EnvelopesPath(account, folder) := EnvelopeList(fetched.value)], w.ops + 1, Launched(env.script, w));
      FolderRunListed(env, account, folder, w, fetched.value);
      FanOutIsFold(env.faulty, env.script, account, folder, fetched.value, listed);
      OtherWriteKeepsBodies(w.files, EnvelopesPath(account, folder), EnvelopeList(fetched.value));
      BodiesKeptChain(w.files, listed.files, r.world.files);
    } else {
      assert r.world.files == w.files;
    }
    FolderListsKept(account, folder, w.files, r.world.files);
  }

  /**
    How syncing one folder ends: a fatal failure is the folder's own list write and changes
    nothing; otherwise the folder is reported or skipped, and its report counts every envelope.
  */
  lemma {:induction false} FolderRunEnds(env: Env, account: string, folder: string, w: World)
    ensures var r := FolderRun(env, account, folder, w);
      && (r.fatal.Some? ==> r.fatal.value == EnvelopeListWriteFailed(account, folder) && r.world.files == w.files)
      && (r.fatal.None? ==> FolderDone(account, folder, r.reports, r.warnings))
      && (forall rep :: rep in r.reports ==> rep == FolderReport(account, folder, rep.total, rep.total))
  {
    var fetched := FetchJson(WindowOf(env.script, w.launches), env.codec.envelopes);
    if fetched.Success? && w.ops !in env.faulty {
      FolderRunListed(env, account, folder, w, fetched.value);
    }
  }

  /**
    One folder: fetch its envelope list (a failure skips the folder with a warning), write it
    (a failure is fatal), then run every envelope's step in list order.
  */
  method SyncFolder(cache: Cache, agent: Agent, codec: Codec, account: string, folder: string)
    returns (fatal: Option<SyncError>, warnings: seq<Warning>, report: Option<FolderReport>)
    modifies cache, agent
    ensures FolderRun(Env(cache.faulty, agent.script, codec), account, folder, World(old(cache.files), old(cache.ops), |old(agent.calls)|))
         == Run(World(cache.files, cache.ops, |agent.calls|), fatal, warnings, AsSeq(report))
    ensures fatal.Some? ==> fatal.value == EnvelopeListWriteFailed(account, folder)
    ensures fatal.None? ==> FolderDone(account, folder, if report.Some? then [report.value] else [], warnings)
    ensures BodiesKept(old(cache.files), cache.files)
    ensures forall p :: !FolderPath(account, folder, p) ==> SameAt(old(cache.files), cache.files, p)
    ensures ListsKept(old(cache.files), cache.files)
    ensures old(agent.calls) <= agent.calls
    ensures forall i :: |old(agent.calls)| <= i < |agent.calls| ==> FolderCall(agent.calls[i], old(cache.files), account, folder)
    ensures report.Some? ==>
      report.value.done == report.value.total && report.value.account == account && report.value.folder == folder
  {
    ghost var env := Env(cache.faulty, agent.script, codec);
    ghost var w0 := World(cache.files, cache.ops, |agent.calls|);
    ghost var calls0 := agent.calls;
    var fetched := agent.RunJson(EnvelopeListArgs(account, folder), codec.envelopes);
    assert |agent.calls| == Launched(agent.script, w0);
    report := None;
    if fetched.Failure? {
      fatal := None;
      warnings := [EnvelopeListSkipped(account, folder, fetched.error)];
    } else {
      var envelopes := fetched.value;
      var written := cache.Write(EnvelopesPath(account, folder), EnvelopeList(envelopes));
      if !written {
        fatal := Some(EnvelopeListWriteFailed(account, folder));
        warnings := [];
      } else {
        ghost var calls1 := agent.calls;
        assert World(cache.files, cache.ops, |agent.calls|)
            == World(w0.files[EnvelopesPath(account, folder) := EnvelopeList(envelopes)], w0.ops + 1, Launched(agent.script, w0));
        assert forall i :: |calls0| <= i < |calls1| ==> calls1[i] == EnvelopeListArgs(account, folder);
        var bar := new ProgressBar(|envelopes|);
        ghost var items;
        warnings, items := SyncEnvelopes(cache, agent, bar, account, folder, envelopes);
        FolderCallsAfterList(calls0, calls1, agent.calls, w0.files, EnvelopeList(envelopes), account, folder);
        fatal := None;
        report := Some(FolderReport(account, folder, bar.pos, bar.len));
        FolderRunListed(env, account, folder, w0, envelopes);
      }
    }
    FolderRunKeeps(env, account, folder, w0);
    FolderRunEnds(env, account, folder, w0);
  }

  predicate AccountIn(scope: Scope, account: string) {
    scope.account.None? || scope.account.value == account
  }

  predicate PairIn(scope: Scope, account: string, folder: string) {
    AccountIn(scope, account) && (scope.folder.None? || scope.folder.value == folder)
  }

  /** The paths syncing one account writes: its folder list and everything of its folders. */
  predicate AccountPath(account: string, p: Path) {
    || p == FoldersPath(account)
    || (|p| == 3 && p[0] == "envelopes" && p[1] == account)
    || (|p| == 4 && (p[0] == "meta" || p[0] == "messages") && p[1] == account)
  }

  /** The paths a sync in `scope` may write. */
  predicate InScope(scope: Scope, p: Path) {
    match scope.account
    case None => true
    case Some(a) =>
      match scope.folder
      case None => AccountPath(a, p)
      case Some(f) => FolderPath(a, f, p)
  }

  /**
    The agent calls a sync in `scope` may make: the account list only when no account is named,
    folder lists only when no folder is named, envelope lists and message reads only inside the
    scope, and message reads only of bodies the cache did not hold.
  */
  ghost predicate AllowedCall(scope: Scope, files: Files, c: seq<string>) {
    || (c == AccountListArgs() && scope.account.None?)
    || (|c| == 6 && c == FolderListArgs(c[3]) && scope.folder.None? && AccountIn(scope, c[3]))
    || (|c| == 10 && c == EnvelopeListArgs(c[5], c[3]) && PairIn(scope, c[5], c[3]))
    || (IsMessageReadCall(c) && c == MessageReadArgs(c[6], c[4], c[2]) && PairIn(scope, c[6], c[4])
        && MessagePath(c[6], c[4], c[2]) !in files)
  }

  lemma FolderPathInScope(scope: Scope, account: string, folder: string, p: Path)
    requires PairIn(scope, account, folder) && FolderPath(account, folder, p)
    ensures InScope(scope, p)
  {
  }

  lemma FolderCallAllowed(scope: Scope, files0: Files, files: Files, account: string, folder: string, c: seq<string>)
    requires PairIn(scope, account, folder) && BodiesKept(files0, files)
    requires FolderCall(c, files, account, folder)
    ensures AllowedCall(scope, files0, c)
  {
    if c != EnvelopeListArgs(account, folder) {
      var id := c[2];
      assert MessagePath(account, folder, id) !in files0 by {
        if MessagePath(account, folder, id) in files0 {
          assert IsMessagePath(MessagePath(account, folder, id));
        }
      }
    }
  }

  lemma AllowedCallWeakens(scope: Scope, files0: Files, files: Files, c: seq<string>)
    requires BodiesKept(files0, files) && AllowedCall(scope, files, c)
    ensures AllowedCall(scope, files0, c)
  {
    if IsMessageReadCall(c) && c == MessageReadArgs(c[6], c[4], c[2]) && PairIn(scope, c[6], c[4]) {
      var p := MessagePath(c[6], c[4], c[2]);
      assert p in files0 ==> IsMessagePath(p) && p in files;
    }
  }
  /**
    The calls in `calls` beyond its prefix `calls0` (the log before some step) are all allowed
    in `scope` against the cache as it was before that step.
  */
  ghost predicate CallsAllowed(scope: Scope, files: Files, calls0: seq<seq<string>>, calls: seq<seq<string>>)
    decreases |calls|
  {
    calls0 <= calls
    && (|calls| > |calls0| ==>
          CallsAllowed(scope, files, calls0, calls[..|calls| - 1]) && AllowedCall(scope, files, calls[|calls| - 1]))
  }

  /** `CallsAllowed` says that `calls` extends `calls0` and every call after `calls0` is allowed. */
  lemma {:induction false} CallsAllowedMeans(scope: Scope, files: Files, calls0: seq<seq<string>>, calls: seq<seq<string>>)
    ensures CallsAllowed(scope, files, calls0, calls) <==>
      calls0 <= calls && forall i :: |calls0| <= i < |calls| ==> AllowedCall(scope, files, calls[i])
    decreases |calls|
  {
    if calls0 <= calls && |calls| > |calls0| {
      var init := calls[..|calls| - 1];
      CallsAllowedMeans(scope, files, calls0, init);
      assert calls0 <= init;
      assert forall i :: |calls0| <= i < |init| ==> init[i] == calls[i];
    }
  }

  /** Folder-list calls for an account are allowed in any scope holding the account that names no folder. */
  lemma FolderListCallsAllowed(scope: Scope, files: Files, account: string, c0: seq<seq<string>>, c: seq<seq<string>>)
    requires scope.folder.None? && AccountIn(scope, account) && c0 <= c
    requires forall i :: |c0| <= i < |c| ==> c[i] == FolderListArgs(account)
    ensures CallsAllowed(scope, files, c0, c)
  {
    CallsAllowedMeans(scope, files, c0, c);
  }

  /** The account-list call is allowed in a scope that names no account (and no call is, in every scope). */
  lemma AccountListCallsAllowed(scope: Scope, files: Files, c0: seq<seq<string>>, c: seq<seq<string>>)
    requires (scope.account.None? || |c| == |c0|) && c0 <= c
    requires forall i :: |c0| <= i < |c| ==> c[i] == AccountListArgs()
    ensures CallsAllowed(scope, files, c0, c)
  {
    CallsAllowedMeans(scope, files, c0, c);
  }

  /** Two steps in a row whose calls are each allowed make only allowed calls. */
  lemma CallsAllowedChain(scope: Scope, files0: Files, files1: Files,
                          c0: seq<seq<string>>, c1: seq<seq<string>>, c2: seq<seq<string>>)
    requires BodiesKept(files0, files1)
    requires CallsAllowed(scope, files0, c0, c1) && CallsAllowed(scope, files1, c1, c2)
    ensures CallsAllowed(scope, files0, c0, c2)
  {
    CallsAllowedMeans(scope, files0, c0, c1);
    CallsAllowedMeans(scope, files1, c1, c2);
    CallsAllowedMeans(scope, files0, c0, c2);
    forall i | |c0| <= i < |c2|
      ensures AllowedCall(scope, files0, c2[i])
    {
      if i >= |c1| {
        AllowedCallWeakens(scope, files0, files1, c2[i]);
      } else {
        assert c2[i] == c1[i];
      }
    }
  }

  /** The calls of one folder's sync are allowed in any scope holding the folder. */
  lemma FolderCallsAllowed(scope: Scope, files: Files, account: string, folder: string,
                           c1: seq<seq<string>>, c2: seq<seq<string>>)
    requires PairIn(scope, account, folder) && c1 <= c2
    requires forall k :: |c1| <= k < |c2| ==> FolderCall(c2[k], files, account, folder)
    ensures CallsAllowed(scope, files, c1, c2)
  {
    CallsAllowedMeans(scope, files, c1, c2);
    forall k | |c1| <= k < |c2|
      ensures AllowedCall(scope, files, c2[k])
    {
      FolderCallAllowed(scope, files, files, account, folder, c2[k]);
    }
  }

  /**
    What a scoped sync leaves alone: naming an account makes no account-list call, naming a
    folder makes no folder-list call, and every message read is of a body that was missing.
  */
  lemma ScopedCalls(scope: Scope, files: Files, c: seq<string>)
    requires AllowedCall(scope, files, c)
    ensures scope.account.Some? ==> c != AccountListArgs()
    ensures scope.folder.Some? ==> !IsFolderListCall(c)
    ensures IsMessageReadCall(c) ==>
      var (a, f, id) := ReadRequest(c);
      PairIn(scope, a, f) && MessagePath(a, f, id) !in files
  {
    if |c| == 10 && c == EnvelopeListArgs(c[5], c[3]) {
      assert c[0] == "envelope";
    }
    if IsMessageReadCall(c) && c == MessageReadArgs(c[6], c[4], c[2]) {
      assert c[0] == "message";
    }
    if |c| == 6 && c == FolderListArgs(c[3]) {
      assert c[0] == "folder";
    }
  }

  /** Every path outside `scope` holds the same thing (or nothing) in `before` and `after`. */
  ghost predicate OutsideKept(scope: Scope, before: Files, after: Files) {
    forall p :: !InScope(scope, p) ==> SameAt(before, after, p)
  }

  lemma OutsideKeptChain(scope: Scope, f0: Files, f1: Files, f2: Files)
    requires OutsideKept(scope, f0, f1) && OutsideKept(scope, f1, f2)
    ensures OutsideKept(scope, f0, f2)
  {
  }

  /** One folder's sync keeps everything outside any scope holding the folder. */
  lemma FolderOutsideKept(scope: Scope, account: string, folder: string, before: Files, after: Files)
    requires PairIn(scope, account, folder)
    requires forall p :: !FolderPath(account, folder, p) ==> SameAt(before, after, p)
    ensures OutsideKept(scope, before, after)
  {
    forall p | !InScope(scope, p)
      ensures SameAt(before, after, p)
    {
      if FolderPath(account, folder, p) {
        FolderPathInScope(scope, account, folder, p);
      }
    }
  }

  /** One folder's sync keeps the account list and every folder list. */
  lemma FolderListsKept(account: string, folder: string, before: Files, after: Files)
    requires forall p :: !FolderPath(account, folder, p) ==> SameAt(before, after, p)
    ensures ListsKept(before, after)
  {
    assert !FolderPath(account, folder, AccountsPath());
    forall a
      ensures SameAt(before, after, FoldersPath(a))
    {
      assert !FolderPath(account, folder, FoldersPath(a));
    }
  }

  /** Writing (or failing to write) one path inside the scope keeps everything outside it. */
  lemma WriteOutsideKept(scope: Scope, before: Files, after: Files, p: Path)
    requires InScope(scope, p)
    requires after == before || (p in after && after == before[p := after[p]])
    ensures OutsideKept(scope, before, after)
  {
  }

  /** A sync scoped to an account leaves `accounts.json` alone; one scoped to a folder also leaves every folder list alone. */
  lemma ScopedSyncKeepsLists(scope: Scope, before: Files, after: Files)
    requires ValidScope(scope)
    requires OutsideKept(scope, before, after)
    ensures scope.account.Some? ==> SameAt(before, after, AccountsPath())
    ensures scope.folder.Some? ==> forall x :: SameAt(before, after, FoldersPath(x))
  {
    if scope.account.Some? {
      assert !InScope(scope, AccountsPath());
    }
    if scope.folder.Some? {
      forall x ensures SameAt(before, after, FoldersPath(x)) {
        assert !InScope(scope, FoldersPath(x));
      }
    }
  }

  /** Some report in `reports` is for `folder` of `account`. */
  predicate Reported(account: string, folder: string, reports: seq<FolderReport>) {
    |reports| > 0
    && ((reports[0].account == account && reports[0].folder == folder) || Reported(account, folder, reports[1..]))
  }

  /** Some warning in `warnings` says the envelope list of `folder` of `account` could not be fetched. */
  predicate FolderSkipped(account: string, folder: string, warnings: seq<Warning>) {
    |warnings| > 0
    && ((warnings[0].EnvelopeListSkipped? && warnings[0].account == account && warnings[0].folder == folder)
        || FolderSkipped(account, folder, warnings[1..]))
  }

  /** Some warning in `warnings` says the folder list of `account` could not be fetched. */
  predicate AccountSkipped(account: string, warnings: seq<Warning>) {
    |warnings| > 0
    && ((warnings[0].FolderListSkipped? && warnings[0].account == account) || AccountSkipped(account, warnings[1..]))
  }

  lemma {:induction false} ReportedAppend(account: string, folder: string, r: seq<FolderReport>, r': seq<FolderReport>)
    ensures Reported(account, folder, r + r') == (Reported(account, folder, r) || Reported(account, folder, r'))
    decreases |r|
  {
    if |r| > 0 {
      assert (r + r')[1..] == r[1..] + r';
      ReportedAppend(account, folder, r[1..], r');
    } else {
      assert r + r' == r';
    }
  }

  lemma {:induction false} SkippedAppend(account: string, folder: string, w: seq<Warning>, w': seq<Warning>)
    ensures FolderSkipped(account, folder, w + w') == (FolderSkipped(account, folder, w) || FolderSkipped(account, folder, w'))
    ensures AccountSkipped(account, w + w') == (AccountSkipped(account, w) || AccountSkipped(account, w'))
    decreases |w|
  {
    if |w| > 0 {
      assert (w + w')[1..] == w[1..] + w';
      SkippedAppend(account, folder, w[1..], w');
    } else {
      assert w + w' == w';
    }
  }

  /** The sync went through `folder`: it has a report, or its envelope list could not be fetched. */
  predicate FolderDone(account: string, folder: string, reports: seq<FolderReport>, warnings: seq<Warning>) {
    Reported(account, folder, reports) || FolderSkipped(account, folder, warnings)
  }

  /** The sync went through every folder of `folders`. */
  predicate FoldersDone(account: string, folders: seq<string>, reports: seq<FolderReport>, warnings: seq<Warning>)
    decreases |folders|
  {
    |folders| > 0 ==>
      FoldersDone(account, folders[..|folders| - 1], reports, warnings)
      && FolderDone(account, folders[|folders| - 1], reports, warnings)
  }

  /** `Reported` says that some report names the folder. */
  lemma {:induction false} ReportedMeans(account: string, folder: string, reports: seq<FolderReport>)
    ensures Reported(account, folder, reports) <==>
      exists rep :: rep in reports && rep.account == account && rep.folder == folder
    decreases |reports|
  {
    if |reports| > 0 {
      ReportedMeans(account, folder, reports[1..]);
      if exists rep :: rep in reports && rep.account == account && rep.folder == folder {
        var rep :| rep in reports && rep.account == account && rep.folder == folder;
        if rep != reports[0] {
          assert rep in reports[1..];
        }
      }
    }
  }

  /** `FolderSkipped` says that some warning skips the folder's envelope list. */
  lemma {:induction false} FolderSkippedMeans(account: string, folder: string, warnings: seq<Warning>)
    ensures FolderSkipped(account, folder, warnings) <==> exists e :: EnvelopeListSkipped(account, folder, e) in warnings
    decreases |warnings|
  {
    if |warnings| > 0 {
      FolderSkippedMeans(account, folder, warnings[1..]);
      if exists e :: EnvelopeListSkipped(account, folder, e) in warnings {
        var e :| EnvelopeListSkipped(account, folder, e) in warnings;
        if warnings[0] != EnvelopeListSkipped(account, folder, e) {
          assert EnvelopeListSkipped(account, folder, e) in warnings[1..];
        }
      }
    }
  }

  /** `AccountSkipped` says that some warning skips the account's folder list. */
  lemma {:induction false} AccountSkippedMeans(account: string, warnings: seq<Warning>)
    ensures AccountSkipped(account, warnings) <==> exists e :: FolderListSkipped(account, e) in warnings
    decreases |warnings|
  {
    if |warnings| > 0 {
      AccountSkippedMeans(account, warnings[1..]);
      if exists e :: FolderListSkipped(account, e) in warnings {
        var e :| FolderListSkipped(account, e) in warnings;
        if warnings[0] != FolderListSkipped(account, e) {
          assert FolderListSkipped(account, e) in warnings[1..];
        }
      }
    }
  }

  /** `FoldersDone` says that the sync went through each folder of the list. */
  lemma {:induction false} FoldersDoneMeans(account: string, folders: seq<string>, reports: seq<FolderReport>, warnings: seq<Warning>)
    ensures FoldersDone(account, folders, reports, warnings) <==>
      forall k :: 0 <= k < |folders| ==> FolderDone(account, folders[k], reports, warnings)
    decreases |folders|
  {
    if |folders| > 0 {
      var init := folders[..|folders| - 1];
      FoldersDoneMeans(account, init, reports, warnings);
      assert forall k :: 0 <= k < |init| ==> init[k] == folders[k];
    }
  }

  /**
    The sync went through `account`: with a folder named, through that folder; otherwise its
    folder list could not be fetched, or the folder list in the cache names only folders the
    sync went through.
  */
  ghost predicate AccountDone(scope: Scope, account: string, files: Files, reports: seq<FolderReport>, warnings: seq<Warning>) {
    match scope.folder
    case Some(f) => FolderDone(account, f, reports, warnings)
    case None =>
      || AccountSkipped(account, warnings)
      || (&& FoldersPath(account) in files && files[FoldersPath(account)].FolderList?
          && FoldersDone(account, Names(files[FoldersPath(account)].folders, FolderName), reports, warnings))
  }

  ghost predicate AccountsDone(scope: Scope, accounts: seq<string>, files: Files, reports: seq<FolderReport>, warnings: seq<Warning>) {
    forall k :: 0 <= k < |accounts| ==> AccountDone(scope, accounts[k], files, reports, warnings)
  }

  /** What the sync went through stays gone through as more reports and warnings follow. */
  lemma FolderDoneAppended(account: string, folder: string, r: seq<FolderReport>, w: seq<Warning>, r': seq<FolderReport>, w': seq<Warning>)
    requires FolderDone(account, folder, r, w)
    ensures FolderDone(account, folder, r + r', w + w')
  {
    ReportedAppend(account, folder, r, r');
    SkippedAppend(account, folder, w, w');
  }

  /** ... and as the reports and warnings of what went before are put in front. */
  lemma FolderDonePrepended(account: string, folder: string, r: seq<FolderReport>, w: seq<Warning>, r': seq<FolderReport>, w': seq<Warning>)
    requires FolderDone(account, folder, r, w)
    ensures FolderDone(account, folder, r' + r, w' + w)
  {
    ReportedAppend(account, folder, r', r);
    SkippedAppend(account, folder, w', w);
  }

  lemma {:induction false} FoldersDoneAppended(account: string, folders: seq<string>, r: seq<FolderReport>, w: seq<Warning>,
                                               r': seq<FolderReport>, w': seq<Warning>)
    requires FoldersDone(account, folders, r, w)
    ensures FoldersDone(account, folders, r + r', w + w')
    decreases |folders|
  {
    if |folders| > 0 {
      FoldersDoneAppended(account, folders[..|folders| - 1], r, w, r', w');
      FolderDoneAppended(account, folders[|folders| - 1], r, w, r', w');
    }
  }

  lemma {:induction false} FoldersDonePrepended(account: string, folders: seq<string>, r: seq<FolderReport>, w: seq<Warning>,
                                                r': seq<FolderReport>, w': seq<Warning>)
    requires FoldersDone(account, folders, r, w)
    ensures FoldersDone(account, folders, r' + r, w' + w)
    decreases |folders|
  {
    if |folders| > 0 {
      FoldersDonePrepended(account, folders[..|folders| - 1], r, w, r', w');
      FolderDonePrepended(account, folders[|folders| - 1], r, w, r', w');
    }
  }

  /** An account gone through stays gone through while its folder list stays, whatever reports and warnings follow. */
  lemma AccountDoneAppended(scope: Scope, account: string, files: Files, r: seq<FolderReport>, w: seq<Warning>,
                            files': Files, r': seq<FolderReport>, w': seq<Warning>)
    requires AccountDone(scope, account, files, r, w)
    requires SameAt(files, files', FoldersPath(account))
    ensures AccountDone(scope, account, files', r + r', w + w')
  {
    match scope.folder {
      case Some(f) =>
        FolderDoneAppended(account, f, r, w, r', w');
      case None =>
        SkippedAppend(account, "", w, w');
        if FoldersPath(account) in files && files[FoldersPath(account)].FolderList?
           && FoldersDone(account, Names(files[FoldersPath(account)].folders, FolderName), r, w) {
          FoldersDoneAppended(account, Names(files[FoldersPath(account)].folders, FolderName), r, w, r', w');
        }
    }
  }

  /** ... and whatever reports and warnings of earlier accounts go in front. */
  lemma AccountDonePrepended(scope: Scope, account: string, files: Files, r: seq<FolderReport>, w: seq<Warning>,
                             r': seq<FolderReport>, w': seq<Warning>)
    requires AccountDone(scope, account, files, r, w)
    ensures AccountDone(scope, account, files, r' + r, w' + w)
  {
    match scope.folder {
      case Some(f) =>
        FolderDonePrepended(account, f, r, w, r', w');
      case None =>
        SkippedAppend(account, "", w', w);
        if FoldersPath(account) in files && files[FoldersPath(account)].FolderList?
           && FoldersDone(account, Names(files[FoldersPath(account)].folders, FolderName), r, w) {
          FoldersDonePrepended(account, Names(files[FoldersPath(account)].folders, FolderName), r, w, r', w');
        }
    }
  }

  /**
    One more account synced: the accounts gone through before stay gone through, except one
    whose name the new account repeats, whose folder list the new account may have rewritten.
  */
  lemma AccountsDoneStep(scope: Scope, accounts: seq<string>, n: nat, files: Files, r: seq<FolderReport>, w: seq<Warning>,
                         files': Files, rs: seq<FolderReport>, ws: seq<Warning>)
    requires n < |accounts| && AccountsDone(scope, accounts[..n], files, r, w)
    requires forall x :: x != accounts[n] ==> SameAt(files, files', FoldersPath(x))
    ensures forall k :: 0 <= k < n && accounts[k] != accounts[n] ==> AccountDone(scope, accounts[k], files', r + rs, w + ws)
    ensures AccountDone(scope, accounts[n], files', r + rs, w + ws) ==> AccountsDone(scope, accounts[..n + 1], files', r + rs, w + ws)
  {
    forall k | 0 <= k < n && accounts[k] != accounts[n]
      ensures AccountDone(scope, accounts[k], files', r + rs, w + ws)
    {
      assert accounts[..n][k] == accounts[k];
      AccountDoneAppended(scope, accounts[k], files, r, w, files', rs, ws);
    }
    if AccountDone(scope, accounts[n], files', r + rs, w + ws) {
      var next := accounts[..n + 1];
      forall k | 0 <= k < |next|
        ensures AccountDone(scope, next[k], files', r + rs, w + ws)
      {
        assert next[k] == accounts[k];
      }
    }
  }

  /** The folders `folders[j..]` of `account` in turn after `r`, stopping at the first fatal failure. */
  function FoldersFrom(env: Env, account: string, folders: seq<string>, j: nat, r: Run): Run
    decreases |folders| - j
  {
    if j >= |folders| || r.fatal.Some? then r
    else FoldersFrom(env, account, folders, j + 1, Then(r, FolderRun(env, account, folders[j], r.world)))
  }

  /** A folder report that went through the whole list, for a folder in `scope`. */
  predicate ReportIn(scope: Scope, rep: FolderReport) {
    rep.done == rep.total && PairIn(scope, rep.account, rep.folder)
  }

  /**
    What the folder loop does to the cache: it only adds warnings and reports, keeps every
    cached body, the account and folder lists and everything outside the scope, and reports
    only folders of the scope.
  */
  lemma {:induction false} FoldersFromKeeps(env: Env, scope: Scope, account: string, folders: seq<string>, j: nat, r: Run)
    requires forall k :: j <= k < |folders| ==> PairIn(scope, account, folders[k])
    requires forall rep :: rep in r.reports ==> ReportIn(scope, rep)
    ensures var r' := FoldersFrom(env, account, folders, j, r);
      && r.warnings <= r'.warnings && r.reports <= r'.reports
      && BodiesKept(r.world.files, r'.world.files)
      && OutsideKept(scope, r.world.files, r'.world.files)
      && ListsKept(r.world.files, r'.world.files)
      && (forall rep :: rep in r'.reports ==> ReportIn(scope, rep))
    decreases |folders| - j
  {
    if j < |folders| && r.fatal.None? {
      var run := FolderRun(env, account, folders[j], r.world);
      var next := Then(r, run);
      FolderRunKeeps(env, account, folders[j], r.world);
      FolderRunEnds(env, account, folders[j], r.world);
      FolderOutsideKept(scope, account, folders[j], r.world.files, run.world.files);
      FoldersFromKeeps(env, scope, account, folders, j + 1, next);
      var r' := FoldersFrom(env, account, folders, j + 1, next);
      BodiesKeptChain(r.world.files, next.world.files, r'.world.files);
      OutsideKeptChain(scope, r.world.files, next.world.files, r'.world.files);
      ListsKeptChain(r.world.files, next.world.files, r'.world.files);
    }
  }

  /** A folder gone through stays gone through as the reports and warnings grow. */
  lemma FolderDoneWithin(account: string, folder: string, r: seq<FolderReport>, w: seq<Warning>,
                         r': seq<FolderReport>, w': seq<Warning>)
    requires FolderDone(account, folder, r, w) && r <= r' && w <= w'
    ensures FolderDone(account, folder, r', w')
  {
    assert r + r'[|r|..] == r';
    assert w + w'[|w|..] == w';
    FolderDoneAppended(account, folder, r, w, r'[|r|..], w'[|w|..]);
  }

  /** A folder gone through in one turn of the folder loop stays gone through to the loop's end. */
  lemma FolderDoneCarried(env: Env, account: string, folders: seq<string>, j: nat, r: Run, folder: string)
    requires j < |folders| && r.fatal.None?
    requires FolderDone(account, folder, FolderRun(env, account, folders[j], r.world).reports,
                        FolderRun(env, account, folders[j], r.world).warnings)
    ensures var r' := FoldersFrom(env, account, folders, j, r); FolderDone(account, folder, r'.reports, r'.warnings)
  {
    var run := FolderRun(env, account, folders[j], r.world);
    var next := Then(r, run);
    FoldersFromStep(env, account, folders, j, r);
    FoldersFromExtends(env, account, folders, j + 1, next);
    FolderDonePrepended(account, folder, run.reports, run.warnings, r.reports, r.warnings);
    var r' := FoldersFrom(env, account, folders, j + 1, next);
    FolderDoneWithin(account, folder, next.reports, next.warnings, r'.reports, r'.warnings);
  }

  /** A folder loop that ends without a fatal error went through every folder from `j` on. */
  lemma {:induction false} FoldersFromCoversAll(env: Env, account: string, folders: seq<string>, j: nat, r: Run)
    requires r.fatal.None?
    ensures var r' := FoldersFrom(env, account, folders, j, r);
      r'.fatal.None? ==> forall k :: j <= k < |folders| ==> FolderDone(account, folders[k], r'.reports, r'.warnings)
    decreases |folders| - j
  {
    if j < |folders| {
      var run := FolderRun(env, account, folders[j], r.world);
      var next := Then(r, run);
      FoldersFromStep(env, account, folders, j, r);
      FolderRunEnds(env, account, folders[j], r.world);
      if run.fatal.None? {
        FoldersFromCoversAll(env, account, folders, j + 1, next);
        FolderDoneCarried(env, account, folders, j, r, folders[j]);
      }
    }
  }

  /**
    A fatal error ending the folder loop is the envelope-list write of some folder, and every
    folder from `j` up to that one was gone through.
  */
  lemma {:induction false} FoldersFromCoversUpTo(env: Env, account: string, folders: seq<string>, j: nat, r: Run)
    requires r.fatal.None?
    ensures var r' := FoldersFrom(env, account, folders, j, r);
      r'.fatal.Some? ==>
        exists i :: j <= i < |folders| && r'.fatal.value == EnvelopeListWriteFailed(account, folders[i])
          && forall k :: j <= k < i ==> FolderDone(account, folders[k], r'.reports, r'.warnings)
    decreases |folders| - j
  {
    if j < |folders| {
      var run := FolderRun(env, account, folders[j], r.world);
      var next := Then(r, run);
      var r' := FoldersFrom(env, account, folders, j + 1, next);
      FoldersFromStep(env, account, folders, j, r);
      FolderRunEnds(env, account, folders[j], r.world);
      if run.fatal.Some? {
        assert r' == next;
      } else if r'.fatal.Some? {
        FoldersFromCoversUpTo(env, account, folders, j + 1, next);
        FolderDoneCarried(env, account, folders, j, r, folders[j]);
        var i :| j + 1 <= i < |folders| && r'.fatal.value == EnvelopeListWriteFailed(account, folders[i])
                 && forall k :: j + 1 <= k < i ==> FolderDone(account, folders[k], r'.reports, r'.warnings);
        assert forall k :: j <= k < i ==> FolderDone(account, folders[k], r'.reports, r'.warnings);
      }
    }
  }

  /**
    The folder loop from the start went through every folder, or through every folder before
    the one whose envelope-list write failed.
  */
  lemma FoldersFromDone(env: Env, account: string, folders: seq<string>, w: World)
    ensures var r := FoldersFrom(env, account, folders, 0, Start(w));
      && (r.fatal.None? ==> FoldersDone(account, folders, r.reports, r.warnings))
      && (r.fatal.Some? ==>
            exists j :: 0 <= j < |folders| && r.fatal.value == EnvelopeListWriteFailed(account, folders[j])
                        && FoldersDone(account, folders[..j], r.reports, r.warnings))
  {
    var r := FoldersFrom(env, account, folders, 0, Start(w));
    FoldersFromCoversAll(env, account, folders, 0, Start(w));
    FoldersFromCoversUpTo(env, account, folders, 0, Start(w));
    if r.fatal.Some? {
      var i :| 0 <= i < |folders| && r.fatal.value == EnvelopeListWriteFailed(account, folders[i])
               && forall k :: 0 <= k < i ==> FolderDone(account, folders[k], r.reports, r.warnings);
      FoldersDoneMeans(account, folders[..i], r.reports, r.warnings);
    } else {
      FoldersDoneMeans(account, folders, r.reports, r.warnings);
    }
  }

  /** One turn of the folder loop. */
  lemma FoldersFromStep(env: Env, account: string, folders: seq<string>, j: nat, r: Run)
    requires j < |folders| && r.fatal.None?
    ensures FoldersFrom(env, account, folders, j, r)
         == FoldersFrom(env, account, folders, j + 1, Then(r, FolderRun(env, account, folders[j], r.world)))
  {
  }

  /** The folder loop only appends warnings and reports. */
  lemma {:induction false} FoldersFromExtends(env: Env, account: string, folders: seq<string>, j: nat, r: Run)
    ensures var r' := FoldersFrom(env, account, folders, j, r);
      r.warnings <= r'.warnings && r.reports <= r'.reports
    decreases |folders| - j
  {
    if j < |folders| && r.fatal.None? {
      FoldersFromExtends(env, account, folders, j + 1, Then(r, FolderRun(env, account, folders[j], r.world)));
    }
  }

  /** One folder's sync keeps the bodies cached and the calls allowed since the loop began. */
  lemma FolderTurnKeeps(scope: Scope, account: string, folder: string, files0: Files, before: Files, after: Files,
                        calls0: seq<seq<string>>, callsBefore: seq<seq<string>>, calls: seq<seq<string>>)
    requires PairIn(scope, account, folder)
    requires BodiesKept(files0, before) && BodiesKept(before, after)
    requires CallsAllowed(scope, files0, calls0, callsBefore)
    requires callsBefore <= calls && forall k :: |callsBefore| <= k < |calls| ==> FolderCall(calls[k], before, account, folder)
    ensures BodiesKept(files0, after) && CallsAllowed(scope, files0, calls0, calls)
  {
    BodiesKeptChain(files0, before, after);
    FolderCallsAllowed(scope, before, account, folder, callsBefore, calls);
    CallsAllowedChain(scope, files0, before, calls0, callsBefore, calls);
  }

  /** The folders of one account in turn, stopping at the first fatal failure. */
  method SyncFolders(cache: Cache, agent: Agent, codec: Codec, scope: Scope, account: string, folderNames: seq<string>)
    returns (fatal: Option<SyncError>, warnings: seq<Warning>, reports: seq<FolderReport>)
    requires AccountIn(scope, account) && (scope.folder.Some? ==> folderNames == [scope.folder.value])
    modifies cache, agent
    ensures FoldersFrom(Env(cache.faulty, agent.script, codec), account, folderNames, 0,
                        Start(World(old(cache.files), old(cache.ops), |old(agent.calls)|)))
         == Run(World(cache.files, cache.ops, |agent.calls|), fatal, warnings, reports)
    ensures fatal.None? ==> FoldersDone(account, folderNames, reports, warnings)
    ensures fatal.Some? ==>
      exists j :: 0 <= j < |folderNames| && fatal.value == EnvelopeListWriteFailed(account, folderNames[j])
                  && FoldersDone(account, folderNames[..j], reports, warnings)
    ensures BodiesKept(old(cache.files), cache.files)
    ensures OutsideKept(scope, old(cache.files), cache.files)
    ensures ListsKept(old(cache.files), cache.files)
    ensures CallsAllowed(scope, old(cache.files), old(agent.calls), agent.calls)
    ensures forall rep :: rep in reports ==> ReportIn(scope, rep)
  {
    ghost var env := Env(cache.faulty, agent.script, codec);
    ghost var w0 := World(cache.files, cache.ops, |agent.calls|);
    ghost var calls0 := agent.calls;
    warnings := [];
    reports := [];
    fatal := None;
    var j := 0;
    while j < |folderNames| && fatal.None?
      invariant 0 <= j <= |folderNames|
      invariant FoldersFrom(env, account, folderNames, 0, Start(w0))
             == FoldersFrom(env, account, folderNames, j, Run(World(cache.files, cache.ops, |agent.calls|), fatal, warnings, reports))
      invariant BodiesKept(w0.files, cache.files)
      invariant CallsAllowed(scope, w0.files, calls0, agent.calls)
    {
      var folder := folderNames[j];
      ghost var before := cache.files;
      ghost var callsBefore := agent.calls;
      FoldersFromStep(env, account, folderNames, j, Run(World(cache.files, cache.ops, |agent.calls|), fatal, warnings, reports));
      var failed, ws, report := SyncFolder(cache, agent, codec, account, folder);
      warnings := warnings + ws;
      reports := reports + AsSeq(report);
      fatal := failed;
      FolderTurnKeeps(scope, account, folder, w0.files, before, cache.files, calls0, callsBefore, agent.calls);
      j := j + 1;
    }
    FoldersFromKeeps(env, scope, account, folderNames, 0, Start(w0));
    FoldersFromDone(env, account, folderNames, w0);
  }

  /** The names of listed folders or accounts, in list order. */
  function Names<T>(items: seq<T>, name: T -> string): (r: seq<string>)
    ensures |r| == |items| && forall k :: 0 <= k < |r| ==> r[k] == name(items[k])
  {
    seq(|items|, k requires 0 <= k < |items| => name(items[k]))
  }

  function FolderName(f: Folder): string { f.name }
  function AccountName(a: Account): string { a.name }

  /**
    An account's folder list: fetched from the agent and written to `folders/<account>.json`.
    A failed fetch skips the account with a warning; a failed write is fatal.
  */
  method ListFolders(cache: Cache, agent: Agent, codec: Codec, account: string)
    returns (names: Option<seq<string>>, fatal: Option<SyncError>, warnings: seq<Warning>)
    modifies cache, agent
    ensures var fetched := FetchJson(WindowOf(agent.script, |old(agent.calls)|), codec.folders);
      && (fetched.Failure? ==>
            names.None? && fatal.None? && warnings == [FolderListSkipped(account, fetched.error)]
            && cache.files == old(cache.files))
      && (fetched.Success? && old(cache.ops) in cache.faulty ==>
            names.None? && fatal == Some(FolderListWriteFailed(account)) && warnings == []
            && cache.files == old(cache.files))
      && (fetched.Success? && old(cache.ops) !in cache.faulty ==>
            names == Some(Names(fetched.value, FolderName)) && fatal.None? && warnings == []
            && cache.files == old(cache.files)[FoldersPath(account) := FolderList(fetched.value)])
    ensures cache.ops == old(cache.ops) + if FetchJson(WindowOf(agent.script, |old(agent.calls)|), codec.folders).Failure? then 0 else 1
    ensures |agent.calls| == Launched(agent.script, World(old(cache.files), old(cache.ops), |old(agent.calls)|))
    ensures old(agent.calls) <= agent.calls
    ensures forall i :: |old(agent.calls)| <= i < |agent.calls| ==> agent.calls[i] == FolderListArgs(account)
  {
    names, fatal, warnings := None, None, [];
    var fetched := agent.RunJson(FolderListArgs(account), codec.folders);
    if fetched.Failure? {
      warnings := [FolderListSkipped(account, fetched.error)];
      return;
    }
    var ok := cache.Write(FoldersPath(account), FolderList(fetched.value));
    if !ok {
      fatal := Some(FolderListWriteFailed(account));
      return;
    }
    names := Some(Names(fetched.value, FolderName));
  }

  /**
    The accounts to sync: the named one, or else the account list, fetched from the agent and
    written to `accounts.json`; a failed fetch or a failed write ends the sync.
  */
  method AccountNames(cache: Cache, agent: Agent, codec: Codec, scope: Scope)
    returns (r: Result<seq<string>, SyncError>)
    modifies cache, agent
    ensures AccountListRun(Env(cache.faulty, agent.script, codec), scope, World(old(cache.files), old(cache.ops), |old(agent.calls)|))
         == Run(World(cache.files, cache.ops, |agent.calls|), if r.Failure? then Some(r.error) else None, [], [])
    ensures r.Success? ==> r.value == ScopeAccounts(Env(cache.faulty, agent.script, codec), scope, |old(agent.calls)|)
    ensures old(agent.calls) <= agent.calls
    ensures forall i :: |old(agent.calls)| <= i < |agent.calls| ==> agent.calls[i] == AccountListArgs()
  {
    match scope.account {
      case Some(a) =>
        r := Success([a]);
      case None =>
        var fetched := agent.RunJson(AccountListArgs(), codec.accounts);
        if fetched.Failure? {
          r := Failure(AccountListFailed(fetched.error));
        } else {
          var ok := cache.Write(AccountsPath(), AccountList(fetched.value));
          if !ok {
            r := Failure(AccountListWriteFailed);
          } else {
            r := Success(Names(fetched.value, AccountName));
          }
        }
    }
  }

  /** Distinct accounts have distinct folder-list files. */
  lemma FoldersPathsDistinct(account: string)
    ensures forall x :: x != account ==> FoldersPath(x) != FoldersPath(account)
  {
    forall x | x != account
      ensures FoldersPath(x) != FoldersPath(account)
    {
      if FoldersPath(x) == FoldersPath(account) {
        assert FoldersPath(x)[1] == FoldersPath(account)[1];
        SuffixCancels(x, account, ".json");
      }
    }
  }

  /**
    Syncing `account` from world `w`: with a folder named, that folder alone; otherwise a
    failed folder-list fetch skips the account with a warning, a failed list write is fatal,
    and otherwise the folder loop runs over the fetched folders from the cache holding the list.
  */
  function AccountRun(env: Env, scope: Scope, account: string, w: World): Run {
    match scope.folder
    case Some(f) => FoldersFrom(env, account, [f], 0, Start(w))
    case None =>
      var fetched := FetchJson(WindowOf(env.script, w.launches), env.codec.folders);
      var launches := Launched(env.script, w);
      if fetched.Failure? then
        Run(World(w.files, w.ops, launches), None, [FolderListSkipped(account, fetched.error)], [])
      else if w.ops in env.faulty then
        Run(World(w.files, w.ops + 1, launches), Some(FolderListWriteFailed(account)), [], [])
      else
        var listed := World(w.files[FoldersPath(account) := FolderList(fetched.value)], w.ops + 1, launches);
        FoldersFrom(env, account, Names(fetched.value, FolderName), 0, Start(listed))
  }

  /** `AccountRun` when the account's folder list was fetched and written. */
  lemma {:induction false} AccountRunListed(env: Env, scope: Scope, account: string, w: World, folders: seq<Folder>)
    requires scope.folder.None?
    requires FetchJson(WindowOf(env.script, w.launches), env.codec.folders) == Success(folders)
    requires w.ops !in env.faulty
    ensures AccountRun(env, scope, account, w)
         == FoldersFrom(env, account, Names(folders, FolderName), 0,
                        Start(World(w.files[FoldersPath(account) := FolderList(folders)], w.ops + 1, Launched(env.script, w))))
  {
  }

  /**
    What syncing one account does to the cache: every cached body stays, nothing outside the
    scope changes, `accounts.json` and every other account's folder list stay, and every
    report is a completed folder of the scope.
  */
  lemma {:induction false} AccountRunKeeps(env: Env, scope: Scope, account: string, w: World)
    requires ValidScope(scope) && AccountIn(scope, account)
    ensures var r := AccountRun(env, scope, account, w);
      && BodiesKept(w.files, r.world.files)
      && OutsideKept(scope, w.files, r.world.files)
      && SameAt(w.files, r.world.files, AccountsPath())
      && (forall x :: x != account ==> SameAt(w.files, r.world.files, FoldersPath(x)))
      && (forall rep :: rep in r.reports ==> ReportIn(scope, rep))
  {
    var fetched := FetchJson(WindowOf(env.script, w.launches), env.codec.folders);
    match scope.folder {
      case Some(f) =>
        FoldersFromKeeps(env, scope, account, [f], 0, Start(w));
      case None =>
        if fetched.Success? && w.ops !in env.faulty {
          var listed := World(w.files[FoldersPath(account) := FolderList(fetched.value)], w.ops + 1, Launched(env.script, w));
          var names := Names(fetched.value, FolderName);
          var r := FoldersFrom(env, account, names, 0, Start(listed));
          AccountRunListed(env, scope, account, w, fetched.value);
          FoldersFromKeeps(env, scope, account, names, 0, Start(listed));
          OtherWriteKeepsBodies(w.files, FoldersPath(account), FolderList(fetched.value));
          BodiesKeptChain(w.files, listed.files, r.world.files);
          WriteOutsideKept(scope, w.files, listed.files, FoldersPath(account));
          OutsideKeptChain(scope, w.files, listed.files, r.world.files);
          FoldersPathsDistinct(account);
        }
    }
  }

  /**
    How syncing one account ends. Without a folder named: a failed folder-list fetch gives
    that one warning and changes nothing; a failed list write is fatal and changes nothing;
    otherwise the list is cached and, unless a fatal error follows, every folder on it is gone
    through. A fatal error is this account's folder-list or envelope-list write, and a sync of
    the account that ends without one went through it.
  */
  lemma {:induction false} AccountRunEnds(env: Env, scope: Scope, account: string, w: World)
    ensures var r := AccountRun(env, scope, account, w);
      var fetched := FetchJson(WindowOf(env.script, w.launches), env.codec.folders);
      && (scope.folder.None? && fetched.Failure? ==>
            r.fatal.None? && r.reports == [] && r.world.files == w.files
            && r.warnings == [FolderListSkipped(account, fetched.error)])
      && (scope.folder.None? && fetched.Success? && w.ops in env.faulty ==>
            r.fatal == Some(FolderListWriteFailed(account)) && r.reports == [] && r.world.files == w.files)
      && (scope.folder.None? && fetched.Success? && w.ops !in env.faulty ==>
            && FoldersPath(account) in r.world.files && r.world.files[FoldersPath(account)] == FolderList(fetched.value)
            && (r.fatal.None? ==> FoldersDone(account, Names(fetched.value, FolderName), r.reports, r.warnings)))
      && (scope.folder.Some? && r.fatal.None? ==> FolderDone(account, scope.folder.value, r.reports, r.warnings))
      && (r.fatal.None? ==> AccountDone(scope, account, r.world.files, r.reports, r.warnings))
      && (r.fatal.Some? ==>
            r.fatal.value == FolderListWriteFailed(account)
            || (r.fatal.value.EnvelopeListWriteFailed? && r.fatal.value.account == account))
  {
    var fetched := FetchJson(WindowOf(env.script, w.launches), env.codec.folders);
    match scope.folder {
      case Some(f) =>
        FoldersFromCoversAll(env, account, [f], 0, Start(w));
        FoldersFromCoversUpTo(env, account, [f], 0, Start(w));
      case None =>
        if fetched.Success? && w.ops !in env.faulty {
          var listed := World(w.files[FoldersPath(account) := FolderList(fetched.value)], w.ops + 1, Launched(env.script, w));
          var names := Names(fetched.value, FolderName);
          var r := FoldersFrom(env, account, names, 0, Start(listed));
          AccountRunListed(env, scope, account, w, fetched.value);
          FoldersFromKeeps(env, Scope(None, None), account, names, 0, Start(listed));
          assert SameAt(listed.files, r.world.files, FoldersPath(account));
          FoldersFromDone(env, account, names, listed);
        }
    }
  }

  /**
    One account: fetch and write its folder list unless the scope names the folder (a failed
    fetch skips the account with a warning; a failed write is fatal), then sync each folder.
  */
  method SyncAccount(cache: Cache, agent: Agent, codec: Codec, scope: Scope, account: string)
    returns (fatal: Option<SyncError>, warnings: seq<Warning>, reports: seq<FolderReport>)
    requires ValidScope(scope) && AccountIn(scope, account)
    modifies cache, agent
    ensures AccountRun(Env(cache.faulty, agent.script, codec), scope, account, World(old(cache.files), old(cache.ops), |old(agent.calls)|))
         == Run(World(cache.files, cache.ops, |agent.calls|), fatal, warnings, reports)
    ensures var fetched := FetchJson(WindowOf(agent.script, |old(agent.calls)|), codec.folders);
      && (scope.folder.None? && fetched.Failure? ==>
            fatal.None? && reports == [] && cache.files == old(cache.files)
            && warnings == [FolderListSkipped(account, fetched.error)])
      && (scope.folder.None? && fetched.Success? && old(cache.ops) in cache.faulty ==>
            fatal == Some(FolderListWriteFailed(account)) && reports == [] && cache.files == old(cache.files))
      && (scope.folder.None? && fetched.Success? && old(cache.ops) !in cache.faulty ==>
            && FoldersPath(account) in cache.files && cache.files[FoldersPath(account)] == FolderList(fetched.value)
            && (fatal.None? ==> FoldersDone(account, Names(fetched.value, FolderName), reports, warnings)))
    ensures scope.folder.Some? && fatal.None? ==> FolderDone(account, scope.folder.value, reports, warnings)
    ensures fatal.None? ==> AccountDone(scope, account, cache.files, reports, warnings)
    ensures fatal.Some? ==>
      fatal.value == FolderListWriteFailed(account) || (fatal.value.EnvelopeListWriteFailed? && fatal.value.account == account)
    ensures BodiesKept(old(cache.files), cache.files)
    ensures OutsideKept(scope, old(cache.files), cache.files)
    ensures SameAt(old(cache.files), cache.files, AccountsPath())
    ensures forall x :: x != account ==> SameAt(old(cache.files), cache.files, FoldersPath(x))
    ensures CallsAllowed(scope, old(cache.files), old(agent.calls), agent.calls)
    ensures forall rep :: rep in reports ==> rep.done == rep.total && PairIn(scope, rep.account, rep.folder)
  {
    ghost var env := Env(cache.faulty, agent.script, codec);
    ghost var w0 := World(cache.files, cache.ops, |agent.calls|);
    ghost var calls0 := agent.calls;
    warnings := [];
    reports := [];
    fatal := None;
    var folderNames: seq<string> := [];
    var listed := true;
    match scope.folder {
      case Some(f) =>
        folderNames := [f];
      case None =>
        var names;
        names, fatal, warnings := ListFolders(cache, agent, codec, account);
        FolderListCallsAllowed(scope, w0.files, account, calls0, agent.calls);
        listed := names.Some?;
        if listed {
          folderNames := names.value;
        }
    }
    if listed {
      ghost var before := cache.files;
      ghost var callsBefore := agent.calls;
      ghost var start := Start(World(cache.files, cache.ops, |agent.calls|));
      if scope.folder.None? {
        ghost var folders := FetchJson(WindowOf(env.script, w0.launches), codec.folders).value;
        AccountRunListed(env, scope, account, w0, folders);
        assert start == Start(World(w0.files[FoldersPath(account) := FolderList(folders)], w0.ops + 1, Launched(env.script, w0)));
        OtherWriteKeepsBodies(w0.files, FoldersPath(account), FolderList(folders));
      }
      assert AccountRun(env, scope, account, w0) == FoldersFrom(env, account, folderNames, 0, start);
      fatal, warnings, reports := SyncFolders(cache, agent, codec, scope, account, folderNames);
      CallsAllowedChain(scope, w0.files, before, calls0, callsBefore, agent.calls);
    }
    AccountRunKeeps(env, scope, account, w0);
    AccountRunEnds(env, scope, account, w0);
  }

  /** The account loop from the `i`-th account on, from run `r`: it stops at the first fatal failure. */
  function AccountsFrom(env: Env, scope: Scope, accounts: seq<string>, i: nat, r: Run): Run
    decreases |accounts| - i
  {
    if i >= |accounts| || r.fatal.Some? then r
    else AccountsFrom(env, scope, accounts, i + 1, Then(r, AccountRun(env, scope, accounts[i], r.world)))
  }

  /** One account of the loop: the rest of the loop starts from what it left, or nothing follows a fatal failure. */
  lemma AccountsFromStep(env: Env, scope: Scope, accounts: seq<string>, i: nat, r: Run, next: Run)
    requires i < |accounts| && r.fatal.None?
    requires next == AccountRun(env, scope, accounts[i], r.world)
    ensures AccountsFrom(env, scope, accounts, i, r) == AccountsFrom(env, scope, accounts, i + 1, Then(r, next))
    ensures next.fatal.Some? ==> AccountsFrom(env, scope, accounts, i, r) == Then(r, next)
  {
  }

  /**
    What the account loop does to the cache: every cached body stays, nothing outside the scope
    changes, `accounts.json` stays, and every report is a completed folder of the scope.
  */
  lemma {:induction false} AccountsFromKeeps(env: Env, scope: Scope, accounts: seq<string>, i: nat, r: Run)
    requires ValidScope(scope) && forall k :: i <= k < |accounts| ==> AccountIn(scope, accounts[k])
    requires forall rep :: rep in r.reports ==> ReportIn(scope, rep)
    ensures var r' := AccountsFrom(env, scope, accounts, i, r);
      && BodiesKept(r.world.files, r'.world.files)
      && OutsideKept(scope, r.world.files, r'.world.files)
      && SameAt(r.world.files, r'.world.files, AccountsPath())
      && (forall rep :: rep in r'.reports ==> ReportIn(scope, rep))
    decreases |accounts| - i
  {
    if i < |accounts| && r.fatal.None? {
      var run := AccountRun(env, scope, accounts[i], r.world);
      var next := Then(r, run);
      AccountRunKeeps(env, scope, accounts[i], r.world);
      AccountsFromKeeps(env, scope, accounts, i + 1, next);
      var r' := AccountsFrom(env, scope, accounts, i + 1, next);
      BodiesKeptChain(r.world.files, next.world.files, r'.world.files);
      OutsideKeptChain(scope, r.world.files, next.world.files, r'.world.files);
    }
  }

  /** An account loop that ends without a fatal error went through every account. */
  lemma {:induction false} AccountsFromCoversAll(env: Env, scope: Scope, accounts: seq<string>, i: nat, r: Run)
    requires ValidScope(scope) && forall k :: i <= k < |accounts| ==> AccountIn(scope, accounts[k])
    requires i <= |accounts| && r.fatal.None? && AccountsDone(scope, accounts[..i], r.world.files, r.reports, r.warnings)
    ensures var r' := AccountsFrom(env, scope, accounts, i, r);
      r'.fatal.None? ==> AccountsDone(scope, accounts, r'.world.files, r'.reports, r'.warnings)
    decreases |accounts| - i
  {
    if i == |accounts| {
      assert accounts[..i] == accounts;
    } else {
      var run := AccountRun(env, scope, accounts[i], r.world);
      AccountRunKeeps(env, scope, accounts[i], r.world);
      AccountRunEnds(env, scope, accounts[i], r.world);
      if run.fatal.None? {
        AccountDonePrepended(scope, accounts[i], run.world.files, run.reports, run.warnings, r.reports, r.warnings);
        AccountsDoneStep(scope, accounts, i, r.world.files, r.reports, r.warnings, run.world.files, run.reports, run.warnings);
        AccountsFromCoversAll(env, scope, accounts, i + 1, Then(r, run));
      }
    }
  }

  /**
    A fatal error ending the account loop is a folder-list or envelope-list write of some
    account, and every earlier account of another name was gone through.
  */
  lemma {:induction false} AccountsFromCoversUpTo(env: Env, scope: Scope, accounts: seq<string>, i: nat, r: Run)
    requires ValidScope(scope) && forall k :: i <= k < |accounts| ==> AccountIn(scope, accounts[k])
    requires i <= |accounts| && r.fatal.None? && AccountsDone(scope, accounts[..i], r.world.files, r.reports, r.warnings)
    ensures var r' := AccountsFrom(env, scope, accounts, i, r);
      r'.fatal.Some? ==>
        exists j ::
          && i <= j < |accounts|
          && (r'.fatal.value == FolderListWriteFailed(accounts[j])
              || (r'.fatal.value.EnvelopeListWriteFailed? && r'.fatal.value.account == accounts[j]))
          && forall k :: 0 <= k < j && accounts[k] != accounts[j] ==>
               AccountDone(scope, accounts[k], r'.world.files, r'.reports, r'.warnings)
    decreases |accounts| - i
  {
    if i < |accounts| {
      var run := AccountRun(env, scope, accounts[i], r.world);
      AccountRunKeeps(env, scope, accounts[i], r.world);
      AccountRunEnds(env, scope, accounts[i], r.world);
      AccountsDoneStep(scope, accounts, i, r.world.files, r.reports, r.warnings, run.world.files, run.reports, run.warnings);
      if run.fatal.None? {
        AccountDonePrepended(scope, accounts[i], run.world.files, run.reports, run.warnings, r.reports, r.warnings);
        AccountsFromCoversUpTo(env, scope, accounts, i + 1, Then(r, run));
      }
    }
  }

  /**
    The account loop from a run without a fatal error went through every account, or through
    every account of another name before the one whose write failed.
  */
  lemma AccountsFromDone(env: Env, scope: Scope, accounts: seq<string>, r: Run, r': Run)
    requires ValidScope(scope) && forall k :: 0 <= k < |accounts| ==> AccountIn(scope, accounts[k])
    requires r.fatal.None? && r' == AccountsFrom(env, scope, accounts, 0, r)
    ensures r'.fatal.None? ==> AccountsDone(scope, accounts, r'.world.files, r'.reports, r'.warnings)
    ensures r'.fatal.Some? ==>
      exists j ::
        && 0 <= j < |accounts|
        && (r'.fatal.value == FolderListWriteFailed(accounts[j])
            || (r'.fatal.value.EnvelopeListWriteFailed? && r'.fatal.value.account == accounts[j]))
        && forall k :: 0 <= k < j && accounts[k] != accounts[j] ==>
             AccountDone(scope, accounts[k], r'.world.files, r'.reports, r'.warnings)
  {
    AccountsFromCoversAll(env, scope, accounts, 0, r);
    AccountsFromCoversUpTo(env, scope, accounts, 0, r);
  }

  /** The accounts in turn, stopping at the first fatal failure. */
  method SyncAccounts(cache: Cache, agent: Agent, codec: Codec, scope: Scope, accountNames: seq<string>)
    returns (fatal: Option<SyncError>, warnings: seq<Warning>, reports: seq<FolderReport>)
    requires ValidScope(scope) && forall a :: a in accountNames ==> AccountIn(scope, a)
    modifies cache, agent
    ensures AccountsFrom(Env(cache.faulty, agent.script, codec), scope, accountNames, 0,
                         Start(World(old(cache.files), old(cache.ops), |old(agent.calls)|)))
         == Run(World(cache.files, cache.ops, |agent.calls|), fatal, warnings, reports)
    ensures fatal.Some? ==> fatal.value.FolderListWriteFailed? || fatal.value.EnvelopeListWriteFailed?
    ensures BodiesKept(old(cache.files), cache.files)
    ensures OutsideKept(scope, old(cache.files), cache.files)
    ensures SameAt(old(cache.files), cache.files, AccountsPath())
    ensures CallsAllowed(scope, old(cache.files), old(agent.calls), agent.calls)
    ensures forall rep :: rep in reports ==> rep.done == rep.total && PairIn(scope, rep.account, rep.folder)
  {
    ghost var env := Env(cache.faulty, agent.script, codec);
    ghost var w0 := World(cache.files, cache.ops, |agent.calls|);
    ghost var files0 := cache.files;
    ghost var calls0 := agent.calls;
    warnings := [];
    reports := [];
    fatal := None;
    AccountsFromKeeps(env, scope, accountNames, 0, Start(w0));
    var i := 0;
    while i < |accountNames|
      invariant 0 <= i <= |accountNames|
      invariant AccountsFrom(env, scope, accountNames, 0, Start(w0))
             == AccountsFrom(env, scope, accountNames, i, Run(World(cache.files, cache.ops, |agent.calls|), None, warnings, reports))
      invariant BodiesKept(files0, cache.files)
      invariant CallsAllowed(scope, files0, calls0, agent.calls)
    {
      var account := accountNames[i];
      ghost var before := cache.files;
      ghost var callsBefore := agent.calls;
      ghost var r := Run(World(cache.files, cache.ops, |agent.calls|), None, warnings, reports);
      AccountsFromStep(env, scope, accountNames, i, r, AccountRun(env, scope, account, r.world));
      var failed, ws, rs := SyncAccount(cache, agent, codec, scope, account);
      warnings := warnings + ws;
      reports := reports + rs;
      CallsAllowedChain(scope, files0, before, calls0, callsBefore, agent.calls);
      BodiesKeptChain(files0, before, cache.files);
      if failed.Some? {
        fatal := failed;
        return;
      }
      i := i + 1;
    }
  }

  /** Envelope `e` is on the envelope list cached for `folder` of `account`. */
  ghost predicate Listed(files: Files, account: string, folder: string, e: Envelope) {
    && EnvelopesPath(account, folder) in files
    && files[EnvelopesPath(account, folder)].EnvelopeList?
    && e in files[EnvelopesPath(account, folder)].envelopes
  }

  /** No warning in `warnings` is about envelope `id` of `folder` of `account`. */
  predicate Unwarned(account: string, folder: string, id: string, warnings: seq<Warning>) {
    forall x :: x in warnings ==> !NamesEnvelope(x, account, folder, id)
  }

  /**
    Every envelope on the cached list of a folder the run reported, and that no warning of the
    run names, has its message body in the cache.
  */
  ghost predicate BodiesComplete(files: Files, reports: seq<FolderReport>, warnings: seq<Warning>) {
    forall account, folder, e ::
      Listed(files, account, folder, e) && Reported(account, folder, reports) && Unwarned(account, folder, e.id, warnings)
      ==> MessagePath(account, folder, e.id) in files
  }

  ghost predicate RunComplete(r: Run) {
    BodiesComplete(r.world.files, r.reports, r.warnings)
  }

  /** A folder whose envelope list was fetched and written holds that list once its envelopes are done. */
  lemma {:induction false} FolderRunCachesList(env: Env, account: string, folder: string, w: World)
    requires FetchJson(WindowOf(env.script, w.launches), env.codec.envelopes).Success?
    requires w.ops !in env.faulty
    ensures var r := FolderRun(env, account, folder, w);
      && EnvelopesPath(account, folder) in r.world.files
      && r.world.files[EnvelopesPath(account, folder)]
         == EnvelopeList(FetchJson(WindowOf(env.script, w.launches), env.codec.envelopes).value)
  {
    var envelopes := FetchJson(WindowOf(env.script, w.launches), env.codec.envelopes).value;
    var listed := World(w.files[EnvelopesPath(account, folder) := EnvelopeList(envelopes)], w.ops + 1, Launched(env.script, w));
    var pass := FanOut(env.faulty, env.script, account, folder, envelopes, listed);
    FolderRunListed(env, account, folder, w, envelopes);
    FanOutIsFold(env.faulty, env.script, account, folder, envelopes, listed);
    FoldAtUnowned(listed.files, account, folder, pass.items, EnvelopesPath(account, folder));
  }

  /** `BodiesComplete` survives more warnings. */
  lemma BodiesCompleteWarned(files: Files, reports: seq<FolderReport>, warnings: seq<Warning>, more: seq<Warning>)
    requires BodiesComplete(files, reports, warnings)
    ensures BodiesComplete(files, reports, warnings + more)
  {
    forall account, folder, e | Listed(files, account, folder, e) && Reported(account, folder, reports)
                                && Unwarned(account, folder, e.id, warnings + more)
      ensures MessagePath(account, folder, e.id) in files
    {
      assert Unwarned(account, folder, e.id, warnings);
    }
  }

  /** Writing a list file above the folder level keeps `BodiesComplete`. */
  lemma BodiesCompleteListWrite(files: Files, reports: seq<FolderReport>, warnings: seq<Warning>, p: Path, c: Content)
    requires BodiesComplete(files, reports, warnings) && |p| < 3
    ensures BodiesComplete(files[p := c], reports, warnings)
  {
    forall account, folder, e | Listed(files[p := c], account, folder, e) && Reported(account, folder, reports)
                                && Unwarned(account, folder, e.id, warnings)
      ensures MessagePath(account, folder, e.id) in files[p := c]
    {
      assert EnvelopesPath(account, folder) != p;
      assert Listed(files, account, folder, e);
    }
  }

  /**
    One folder's sync after run `r` keeps `BodiesComplete`: the folder's own list is the one
    just fetched, and its fan-out cached every body no warning names; every other folder's
    list and every cached body stay.
  */
  lemma {:induction false} FolderRunCompletes(env: Env, account: string, folder: string, r: Run)
    requires RunComplete(r)
    ensures RunComplete(Then(r, FolderRun(env, account, folder, r.world)))
  {
    var w := r.world;
    var run := FolderRun(env, account, folder, w);
    var n := Then(r, run);
    var fetched := FetchJson(WindowOf(env.script, w.launches), env.codec.envelopes);
    var written := fetched.Success? && w.ops !in env.faulty;
    FolderRunKeeps(env, account, folder, w);
    if written {
      FolderRunListed(env, account, folder, w, fetched.value);
      FolderRunCachesList(env, account, folder, w);
    }
    forall a, f, e | Listed(n.world.files, a, f, e) && Reported(a, f, n.reports) && Unwarned(a, f, e.id, n.warnings)
      ensures MessagePath(a, f, e.id) in n.world.files
    {
      ReportedAppend(a, f, r.reports, run.reports);
      assert Unwarned(a, f, e.id, r.warnings);
      EnvelopesPathsDistinct(a, f, account, folder);
      if written && a == account && f == folder {
        var listed := World(w.files[EnvelopesPath(account, folder) := EnvelopeList(fetched.value)], w.ops + 1, Launched(env.script, w));
        assert Unwarned(a, f, e.id, run.warnings);
        FanOutCachesBodies(env.faulty, env.script, account, folder, fetched.value, listed, e);
      } else {
        assert !Reported(a, f, run.reports);
        assert SameAt(w.files, n.world.files, EnvelopesPath(a, f));
        assert Listed(w.files, a, f, e);
        assert IsMessagePath(MessagePath(a, f, e.id));
      }
    }
  }

  /** Running the folder loop after `p` is running it alone and putting `p`'s warnings and reports in front. */
  lemma {:induction false} FoldersFromThen(env: Env, account: string, folders: seq<string>, j: nat, p: Run, r: Run)
    ensures FoldersFrom(env, account, folders, j, Then(p, r)) == Then(p, FoldersFrom(env, account, folders, j, r))
    decreases |folders| - j
  {
    if j < |folders| && r.fatal.None? {
      var run := FolderRun(env, account, folders[j], r.world);
      assert (p.warnings + r.warnings) + run.warnings == p.warnings + (r.warnings + run.warnings);
      assert (p.reports + r.reports) + run.reports == p.reports + (r.reports + run.reports);
      assert Then(Then(p, r), run) == Then(p, Then(r, run));
      FoldersFromThen(env, account, folders, j + 1, p, Then(r, run));
    }
  }

  lemma {:induction false} FoldersFromCompletes(env: Env, account: string, folders: seq<string>, j: nat, r: Run)
    requires RunComplete(r)
    ensures RunComplete(FoldersFrom(env, account, folders, j, r))
    decreases |folders| - j
  {
    if j < |folders| && r.fatal.None? {
      FolderRunCompletes(env, account, folders[j], r);
      FoldersFromCompletes(env, account, folders, j + 1, Then(r, FolderRun(env, account, folders[j], r.world)));
    }
  }

  /** `Then(r, Start(w))` is `r` moved to world `w`. */
  lemma ThenStart(r: Run, w: World)
    ensures Then(r, Start(w)) == Run(w, None, r.warnings, r.reports)
  {
    assert r.warnings + [] == r.warnings;
    assert r.reports + [] == r.reports;
  }

  /** One account's sync after run `r` keeps `BodiesComplete`. */
  lemma {:induction false} AccountRunCompletes(env: Env, scope: Scope, account: string, r: Run)
    requires RunComplete(r)
    ensures RunComplete(Then(r, AccountRun(env, scope, account, r.world)))
  {
    var w := r.world;
    var fetched := FetchJson(WindowOf(env.script, w.launches), env.codec.folders);
    match scope.folder {
      case Some(f) =>
        ThenStart(r, w);
        FoldersFromThen(env, account, [f], 0, r, Start(w));
        FoldersFromCompletes(env, account, [f], 0, Then(r, Start(w)));
      case None =>
        if fetched.Failure? {
          BodiesCompleteWarned(w.files, r.reports, r.warnings, [FolderListSkipped(account, fetched.error)]);
          assert r.reports + [] == r.reports;
        } else if w.ops in env.faulty {
          assert r.reports + [] == r.reports;
          assert r.warnings + [] == r.warnings;
        } else {
          var listed := World(w.files[FoldersPath(account) := FolderList(fetched.value)], w.ops + 1, Launched(env.script, w));
          var names := Names(fetched.value, FolderName);
          AccountRunListed(env, scope, account, w, fetched.value);
          ThenStart(r, listed);
          BodiesCompleteListWrite(w.files, r.reports, r.warnings, FoldersPath(account), FolderList(fetched.value));
          FoldersFromThen(env, account, names, 0, r, Start(listed));
          FoldersFromCompletes(env, account, names, 0, Then(r, Start(listed)));
        }
    }
  }

  lemma {:induction false} AccountsFromCompletes(env: Env, scope: Scope, accounts: seq<string>, i: nat, r: Run)
    requires RunComplete(r)
    ensures RunComplete(AccountsFrom(env, scope, accounts, i, r))
    decreases |accounts| - i
  {
    if i < |accounts| && r.fatal.None? {
      AccountRunCompletes(env, scope, accounts[i], r);
      AccountsFromCompletes(env, scope, accounts, i + 1, Then(r, AccountRun(env, scope, accounts[i], r.world)));
    }
  }

  /**
    The whole sync from world `w`: a scope naming a folder but no account is refused, then the
    cache root is created, then the account list is fetched and written unless one account is
    named, then the account loop runs. The first fatal failure ends it.
  */
  function SyncRun(env: Env, scope: Scope, w: World): Run {
    if !ValidScope(scope) then Run(w, Some(InvalidScope), [], [])
    else if w.ops in env.faulty then Run(World(w.files, w.ops + 1, w.launches), Some(CacheDirFailed), [], [])
    else
      var listing := AccountListRun(env, scope, World(w.files, w.ops + 1, w.launches));
      if listing.fatal.Some? then listing
      else AccountsFrom(env, scope, ScopeAccounts(env, scope, w.launches), 0, listing)
  }

  /**
    Listing the accounts in scope from world `root`, where the cache directory exists: a named
    account needs no call; otherwise a failed fetch or a failed `accounts.json` write is fatal,
    and a fetched list is cached.
  */
  function AccountListRun(env: Env, scope: Scope, root: World): Run {
    match scope.account
    case Some(_) => Start(root)
    case None =>
      var fetched := FetchJson(WindowOf(env.script, root.launches), env.codec.accounts);
      var launches := Launched(env.script, root);
      if fetched.Failure? then
        Run(World(root.files, root.ops, launches), Some(AccountListFailed(fetched.error)), [], [])
      else if root.ops in env.faulty then
        Run(World(root.files, root.ops + 1, launches), Some(AccountListWriteFailed), [], [])
      else
        Start(World(root.files[AccountsPath() := AccountList(fetched.value)], root.ops + 1, launches))
  }

  /**
    The accounts a sync whose account-list fetch is launch number `launches` goes through: the
    named one, or those of the fetched list (none when the fetch fails).
  */
  function ScopeAccounts(env: Env, scope: Scope, launches: nat): seq<string> {
    if scope.account.Some? then [scope.account.value]
    else
      var fetched := FetchJson(WindowOf(env.script, launches), env.codec.accounts);
      if fetched.Success? then Names(fetched.value, AccountName) else []
  }

  /**
    Syncing one folder warns that its envelope list could not be fetched exactly when the agent's
    envelope-list call failed, naming that account and folder and that call's error.
  */
  lemma FolderRunSkips(env: Env, account: string, folder: string, w: World, b: string, g: string, err: AgentError)
    ensures EnvelopeListSkipped(b, g, err) in FolderRun(env, account, folder, w).warnings
      <==> b == account && g == folder && FetchJson(WindowOf(env.script, w.launches), env.codec.envelopes) == Failure(err)
  {
    var fetched := FetchJson(WindowOf(env.script, w.launches), env.codec.envelopes);
    if fetched.Success? && w.ops !in env.faulty {
      FolderRunListed(env, account, folder, w, fetched.value);
    }
  }

  /**
    A failed envelope-list fetch skips that one folder: the sync warns, changes no file, and
    goes on with the next folder.
  */
  lemma EnvelopeListFailureSkipsFolder(env: Env, account: string, folders: seq<string>, j: nat, r: Run)
    requires j < |folders| && r.fatal.None?
    requires FetchJson(WindowOf(env.script, r.world.launches), env.codec.envelopes).Failure?
    ensures var err := FetchJson(WindowOf(env.script, r.world.launches), env.codec.envelopes).error;
      FoldersFrom(env, account, folders, j, r)
      == FoldersFrom(env, account, folders, j + 1,
                     Run(World(r.world.files, r.world.ops, Launched(env.script, r.world)), None,
                         r.warnings + [EnvelopeListSkipped(account, folders[j], err)], r.reports))
  {
    assert r.reports + [] == r.reports;
  }

  /**
    A failed folder-list fetch skips that one account: the sync warns, changes no file, and goes
    on with the next account.
  */
  lemma FolderListFailureSkipsAccount(env: Env, scope: Scope, accounts: seq<string>, i: nat, r: Run)
    requires i < |accounts| && r.fatal.None? && scope.folder.None?
    requires FetchJson(WindowOf(env.script, r.world.launches), env.codec.folders).Failure?
    ensures var err := FetchJson(WindowOf(env.script, r.world.launches), env.codec.folders).error;
      AccountsFrom(env, scope, accounts, i, r)
      == AccountsFrom(env, scope, accounts, i + 1,
                      Run(World(r.world.files, r.world.ops, Launched(env.script, r.world)), None,
                          r.warnings + [FolderListSkipped(accounts[i], err)], r.reports))
  {
    assert r.reports + [] == r.reports;
  }

  /** The folder loop never warns that a folder list could not be fetched. */
  lemma {:induction false} FoldersFromWarnings(env: Env, account: string, folders: seq<string>, j: nat, r: Run)
    ensures forall x :: x in FoldersFrom(env, account, folders, j, r).warnings && x.FolderListSkipped? ==> x in r.warnings
    decreases |folders| - j
  {
    if j < |folders| && r.fatal.None? {
      var run := FolderRun(env, account, folders[j], r.world);
      var fetched := FetchJson(WindowOf(env.script, r.world.launches), env.codec.envelopes);
      if fetched.Success? && r.world.ops !in env.faulty {
        FolderRunListed(env, account, folders[j], r.world, fetched.value);
      }
      assert forall x :: x in run.warnings ==> !x.FolderListSkipped?;
      FoldersFromWarnings(env, account, folders, j + 1, Then(r, run));
    }
  }

  /**
    Syncing one account warns that its folder list could not be fetched exactly when no folder
    is named and the agent's folder-list call failed, with that call's error.
  */
  lemma {:induction false} AccountRunSkips(env: Env, scope: Scope, account: string, w: World, b: string, err: AgentError)
    ensures FolderListSkipped(b, err) in AccountRun(env, scope, account, w).warnings
      <==> b == account && scope.folder.None? && FetchJson(WindowOf(env.script, w.launches), env.codec.folders) == Failure(err)
  {
    var fetched := FetchJson(WindowOf(env.script, w.launches), env.codec.folders);
    match scope.folder {
      case Some(f) =>
        FoldersFromWarnings(env, account, [f], 0, Start(w));
      case None =>
        if fetched.Success? && w.ops !in env.faulty {
          var listed := World(w.files[FoldersPath(account) := FolderList(fetched.value)], w.ops + 1, Launched(env.script, w));
          FoldersFromWarnings(env, account, Names(fetched.value, FolderName), 0, Start(listed));
        }
    }
  }

  /** Where the account loop from the `i`-th account stands when it reaches the `k`-th one (or stops before it). */
  function AccountsUpTo(env: Env, scope: Scope, accounts: seq<string>, i: nat, r: Run, k: nat): Run
    decreases k - i
  {
    if k <= i || i >= |accounts| || r.fatal.Some? then r
    else AccountsUpTo(env, scope, accounts, i + 1, Then(r, AccountRun(env, scope, accounts[i], r.world)), k)
  }

  /** The account loop only appends warnings and reports. */
  lemma {:induction false} AccountsFromExtends(env: Env, scope: Scope, accounts: seq<string>, i: nat, r: Run)
    ensures var r' := AccountsFrom(env, scope, accounts, i, r);
      r.warnings <= r'.warnings && r.reports <= r'.reports
    decreases |accounts| - i
  {
    if i < |accounts| && r.fatal.None? {
      AccountsFromExtends(env, scope, accounts, i + 1, Then(r, AccountRun(env, scope, accounts[i], r.world)));
    }
  }

  /**
    A warning that some account's folder list could not be fetched names an account the loop
    reached, whose folder-list call at that point failed with that error.
  */
  lemma {:induction false} AccountsFromSkipsOnlyFailed(env: Env, scope: Scope, accounts: seq<string>, i: nat, r: Run,
                                                       b: string, err: AgentError)
    requires FolderListSkipped(b, err) in AccountsFrom(env, scope, accounts, i, r).warnings
    requires FolderListSkipped(b, err) !in r.warnings
    ensures exists k ::
              && i <= k < |accounts| && accounts[k] == b && scope.folder.None?
              && AccountsUpTo(env, scope, accounts, i, r, k).fatal.None?
              && FetchJson(WindowOf(env.script, AccountsUpTo(env, scope, accounts, i, r, k).world.launches), env.codec.folders) == Failure(err)
    decreases |accounts| - i
  {
    var run := AccountRun(env, scope, accounts[i], r.world);
    var next := Then(r, run);
    AccountRunSkips(env, scope, accounts[i], r.world, b, err);
    if FolderListSkipped(b, err) in run.warnings {
      assert AccountsUpTo(env, scope, accounts, i, r, i) == r;
    } else {
      AccountsFromSkipsOnlyFailed(env, scope, accounts, i + 1, next, b, err);
      var k :| i + 1 <= k < |accounts| && accounts[k] == b && scope.folder.None?
        && AccountsUpTo(env, scope, accounts, i + 1, next, k).fatal.None?
        && FetchJson(WindowOf(env.script, AccountsUpTo(env, scope, accounts, i + 1, next, k).world.launches), env.codec.folders) == Failure(err);
      assert AccountsUpTo(env, scope, accounts, i, r, k) == AccountsUpTo(env, scope, accounts, i + 1, next, k);
    }
  }

  /** Conversely, every account the loop reached whose folder-list call failed is warned about, with that error. */
  lemma {:induction false} AccountsFromSkipsFailed(env: Env, scope: Scope, accounts: seq<string>, i: nat, r: Run, k: nat)
    requires i <= k < |accounts| && scope.folder.None?
    requires AccountsUpTo(env, scope, accounts, i, r, k).fatal.None?
    requires FetchJson(WindowOf(env.script, AccountsUpTo(env, scope, accounts, i, r, k).world.launches), env.codec.folders).Failure?
    ensures var err := FetchJson(WindowOf(env.script, AccountsUpTo(env, scope, accounts, i, r, k).world.launches), env.codec.folders).error;
      FolderListSkipped(accounts[k], err) in AccountsFrom(env, scope, accounts, i, r).warnings
    decreases k - i
  {
    var run := AccountRun(env, scope, accounts[i], r.world);
    var next := Then(r, run);
    AccountsFromExtends(env, scope, accounts, i + 1, next);
    if k == i {
      assert AccountsUpTo(env, scope, accounts, i, r, k) == r;
      var err := FetchJson(WindowOf(env.script, r.world.launches), env.codec.folders).error;
      AccountRunSkips(env, scope, accounts[i], r.world, accounts[k], err);
      assert FolderListSkipped(accounts[k], err) in next.warnings;
    } else {
      assert AccountsUpTo(env, scope, accounts, i, r, k) == AccountsUpTo(env, scope, accounts, i + 1, next, k);
      AccountsFromSkipsFailed(env, scope, accounts, i + 1, next, k);
    }
  }

  /** The account loop from the `i`-th account is the loop from wherever it stands at the `k`-th. */
  lemma {:induction false} AccountsFromUpTo(env: Env, scope: Scope, accounts: seq<string>, i: nat, r: Run, k: nat)
    requires i <= k <= |accounts|
    ensures AccountsFrom(env, scope, accounts, i, r) == AccountsFrom(env, scope, accounts, k, AccountsUpTo(env, scope, accounts, i, r, k))
    decreases k - i
  {
    if i < k && r.fatal.None? {
      AccountsFromUpTo(env, scope, accounts, i + 1, Then(r, AccountRun(env, scope, accounts[i], r.world)), k);
    }
  }

  /**
    Whether the sync gets to its account loop: the scope is valid, the cache directory is made,
    and the accounts in scope are listed.
  */
  predicate ReachesAccounts(env: Env, scope: Scope, w: World) {
    && ValidScope(scope)
    && w.ops !in env.faulty
    && AccountListRun(env, scope, World(w.files, w.ops + 1, w.launches)).fatal.None?
  }

  /**
    A sync that reaches its account loop is that loop over the named account or the fetched
    list; one that does not ends fatally with no warning and no report.
  */
  lemma SyncRunReaches(env: Env, scope: Scope, w: World)
    ensures ReachesAccounts(env, scope, w) ==>
      SyncRun(env, scope, w) == AccountsFrom(env, scope, ScopeAccounts(env, scope, w.launches), 0, AccountListRun(env, scope, World(w.files, w.ops + 1, w.launches)))
    ensures !ReachesAccounts(env, scope, w) ==>
      var run := SyncRun(env, scope, w); run.fatal.Some? && run.warnings == [] && run.reports == []
  {
  }

  /**
    A warning of the whole sync that some account's folder list could not be fetched names an
    account of the loop that the sync reached, with no folder named, and whose folder-list call
    at that point failed with that very error.
  */
  lemma SyncRunSkipsOnlyFailed(env: Env, scope: Scope, w: World, b: string, err: AgentError)
    requires FolderListSkipped(b, err) in SyncRun(env, scope, w).warnings
    ensures ReachesAccounts(env, scope, w) && scope.folder.None?
    ensures var accounts := ScopeAccounts(env, scope, w.launches);
      var start := AccountListRun(env, scope, World(w.files, w.ops + 1, w.launches));
      exists k ::
        && 0 <= k < |accounts| && accounts[k] == b
        && AccountsUpTo(env, scope, accounts, 0, start, k).fatal.None?
        && FetchJson(WindowOf(env.script, AccountsUpTo(env, scope, accounts, 0, start, k).world.launches), env.codec.folders)
           == Failure(err)
  {
    SyncRunReaches(env, scope, w);
    var start := AccountListRun(env, scope, World(w.files, w.ops + 1, w.launches));
    AccountsFromSkipsOnlyFailed(env, scope, ScopeAccounts(env, scope, w.launches), 0, start, b, err);
  }

  /**
    An account whose folder-list call fails is skipped alone: the sync warns about it with that
    error, changes no file for it, and goes on with the next account of the loop.
  */
  lemma SyncRunSkipsFailed(env: Env, scope: Scope, w: World, k: nat)
    requires ReachesAccounts(env, scope, w) && scope.folder.None?
    requires k < |ScopeAccounts(env, scope, w.launches)|
    requires var u := AccountsUpTo(env, scope, ScopeAccounts(env, scope, w.launches), 0,
                                   AccountListRun(env, scope, World(w.files, w.ops + 1, w.launches)), k);
      u.fatal.None? && FetchJson(WindowOf(env.script, u.world.launches), env.codec.folders).Failure?
    ensures var accounts := ScopeAccounts(env, scope, w.launches);
      var u := AccountsUpTo(env, scope, accounts, 0, AccountListRun(env, scope, World(w.files, w.ops + 1, w.launches)), k);
      var err := FetchJson(WindowOf(env.script, u.world.launches), env.codec.folders).error;
      && FolderListSkipped(accounts[k], err) in SyncRun(env, scope, w).warnings
      && SyncRun(env, scope, w)
         == AccountsFrom(env, scope, accounts, k + 1,
                         Run(World(u.world.files, u.world.ops, Launched(env.script, u.world)), None,
                             u.warnings + [FolderListSkipped(accounts[k], err)], u.reports))
  {
    var accounts := ScopeAccounts(env, scope, w.launches);
    var start := AccountListRun(env, scope, World(w.files, w.ops + 1, w.launches));
    SyncRunReaches(env, scope, w);
    AccountsFromSkipsFailed(env, scope, accounts, 0, start, k);
    AccountsFromUpTo(env, scope, accounts, 0, start, k);
    FolderListFailureSkipsAccount(env, scope, accounts, k, AccountsUpTo(env, scope, accounts, 0, start, k));
  }

  /**
    Whatever the faults and the agent's answers, and however the sync ends: every envelope on
    the cached list of a folder the sync reported, and that no warning of the sync names, has
    its message body in the cache.
  */
  lemma {:induction false} SyncRunCachesBodies(env: Env, scope: Scope, w: World)
    ensures RunComplete(SyncRun(env, scope, w))
  {
    if ValidScope(scope) && w.ops !in env.faulty {
      var listing := AccountListRun(env, scope, World(w.files, w.ops + 1, w.launches));
      if listing.fatal.None? {
        AccountsFromCompletes(env, scope, ScopeAccounts(env, scope, w.launches), 0, listing);
      }
    }
  }

  /**
    How the whole sync ends. Without a fatal error, every account in scope was gone through and,
    with no account named, the fetched account list is cached. A folder-list or envelope-list
    write failure names an account in scope, every earlier account of another name having been
    gone through.
  */
  lemma SyncRunEnds(env: Env, scope: Scope, w: World)
    ensures var run := SyncRun(env, scope, w);
      var accounts := ScopeAccounts(env, scope, w.launches);
      && (run.fatal.None? ==> AccountsDone(scope, accounts, run.world.files, run.reports, run.warnings))
      && (run.fatal.Some? && (run.fatal.value.FolderListWriteFailed? || run.fatal.value.EnvelopeListWriteFailed?) ==>
            exists i ::
              && 0 <= i < |accounts| && run.fatal.value.account == accounts[i]
              && forall k :: 0 <= k < i && accounts[k] != accounts[i] ==>
                   AccountDone(scope, accounts[k], run.world.files, run.reports, run.warnings))
      && (scope.account.None? && run.fatal.None? ==>
            var fetched := FetchJson(WindowOf(env.script, w.launches), env.codec.accounts);
            fetched.Success? && AccountsPath() in run.world.files
            && run.world.files[AccountsPath()] == AccountList(fetched.value))
  {
    SyncRunReaches(env, scope, w);
    if ReachesAccounts(env, scope, w) {
      var listing := AccountListRun(env, scope, World(w.files, w.ops + 1, w.launches));
      var accounts := ScopeAccounts(env, scope, w.launches);
      AccountsFromDone(env, scope, accounts, listing, AccountsFrom(env, scope, accounts, 0, listing));
      if scope.account.None? {
        AccountsFromKeeps(env, scope, accounts, 0, listing);
      }
    }
  }

  /**
    Whatever the faults and the agent's answers, the whole sync keeps the cached bodies and
    everything outside the scope, and every report is a completed folder of the scope.
  */
  lemma SyncRunKeeps(env: Env, scope: Scope, w: World)
    ensures var run := SyncRun(env, scope, w);
      && BodiesKept(w.files, run.world.files)
      && OutsideKept(scope, w.files, run.world.files)
      && (forall rep :: rep in run.reports ==> ReportIn(scope, rep))
  {
    SyncRunReaches(env, scope, w);
    if ReachesAccounts(env, scope, w) {
      var listing := AccountListRun(env, scope, World(w.files, w.ops + 1, w.launches));
      var run := SyncRun(env, scope, w);
      AccountsFromKeeps(env, scope, ScopeAccounts(env, scope, w.launches), 0, listing);
      if scope.account.None? {
        var fetched := FetchJson(WindowOf(env.script, w.launches), env.codec.accounts);
        OtherWriteKeepsBodies(w.files, AccountsPath(), AccountList(fetched.value));
        WriteOutsideKept(scope, w.files, listing.world.files, AccountsPath());
      }
      BodiesKeptChain(w.files, listing.world.files, run.world.files);
      OutsideKeptChain(scope, w.files, listing.world.files, run.world.files);
    }
  }

  /**
    `run_sync`. A scope naming a folder but no account is refused before anything happens; a
    cache root that cannot be created or an account list that cannot be fetched or written ends
    the sync; then every account in scope is synced, and the first fatal failure ends the sync.
  */
  method RunSync(cache: Cache, agent: Agent, codec: Codec, scope: Scope)
    returns (r: Result<(), SyncError>, warnings: seq<Warning>, reports: seq<FolderReport>)
    modifies cache, agent
    ensures var run := SyncRun(Env(cache.faulty, agent.script, codec), scope, World(old(cache.files), old(cache.ops), |old(agent.calls)|));
      && run.world == World(cache.files, cache.ops, |agent.calls|) && run.warnings == warnings && run.reports == reports
      && (r.Failure? <==> run.fatal.Some?) && (r.Failure? ==> run.fatal == Some(r.error))
    ensures BodiesComplete(cache.files, reports, warnings)
    ensures !ValidScope(scope) ==>
      r == Failure(InvalidScope) && unchanged(cache) && unchanged(agent) && warnings == [] && reports == []
    ensures ValidScope(scope) && old(cache.ops) in cache.faulty ==>
      r == Failure(CacheDirFailed) && cache.files == old(cache.files) && agent.calls == old(agent.calls)
    ensures var fetched := FetchJson(WindowOf(agent.script, |old(agent.calls)|), codec.accounts);
      ValidScope(scope) && old(cache.ops) !in cache.faulty && scope.account.None? ==>
        && (fetched.Failure? ==> r == Failure(AccountListFailed(fetched.error)) && cache.files == old(cache.files))
        && (fetched.Success? && old(cache.ops) + 1 in cache.faulty ==>
              r == Failure(AccountListWriteFailed) && cache.files == old(cache.files))
        && (r.Success? ==>
              fetched.Success? && AccountsPath() in cache.files
              && cache.files[AccountsPath()] == AccountList(fetched.value))
    ensures var fetched := FetchJson(WindowOf(agent.script, |old(agent.calls)|), codec.accounts);
      r.Success? ==>
        && (scope.account.Some? ==> AccountDone(scope, scope.account.value, cache.files, reports, warnings))
        && (scope.account.None? ==> fetched.Success? && AccountsDone(scope, Names(fetched.value, AccountName), cache.files, reports, warnings))
    ensures var names := ScopeAccounts(Env(cache.faulty, agent.script, codec), scope, |old(agent.calls)|);
      r.Failure? && (r.error.FolderListWriteFailed? || r.error.EnvelopeListWriteFailed?) ==>
        exists i :: 0 <= i < |names| && r.error.account == names[i]
          && forall k :: 0 <= k < i && names[k] != names[i] ==> AccountDone(scope, names[k], cache.files, reports, warnings)
    ensures r.Failure? && r.error == InvalidScope <==> !ValidScope(scope)
    ensures BodiesKept(old(cache.files), cache.files)
    ensures OutsideKept(scope, old(cache.files), cache.files)
    ensures CallsAllowed(scope, old(cache.files), old(agent.calls), agent.calls)
    ensures forall rep :: rep in reports ==> rep.done == rep.total && PairIn(scope, rep.account, rep.folder)
  {
    ghost var env := Env(cache.faulty, agent.script, codec);
    ghost var w0 := World(cache.files, cache.ops, |agent.calls|);
    ghost var files0 := cache.files;
    ghost var calls0 := agent.calls;
    warnings := [];
    reports := [];
    if !ValidScope(scope) {
      r := Failure(InvalidScope);
    } else {
      var rootOk := cache.CreateRoot();
      if !rootOk {
        r := Failure(CacheDirFailed);
      } else {
        var names := AccountNames(cache, agent, codec, scope);
        AccountListCallsAllowed(scope, files0, calls0, agent.calls);
        r := Success(());
        var accountNames: seq<string> := [];
        if names.Failure? {
          r := Failure(names.error);
        } else {
          accountNames := names.value;
        }
        if r.Success? {
          ghost var listed := cache.files;
          ghost var callsListed := agent.calls;
          var failed;
          failed, warnings, reports := SyncAccounts(cache, agent, codec, scope, accountNames);
          CallsAllowedChain(scope, files0, listed, calls0, callsListed, agent.calls);
          if failed.Some? {
            r := Failure(failed.value);
          }
        }
      }
    }
    SyncRunEnds(env, scope, w0);
    SyncRunKeeps(env, scope, w0);
    SyncRunCachesBodies(env, scope, w0);
  }
}
