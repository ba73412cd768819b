/**
  The per-envelope work of a sync as a pure function of the cache, and the fan-out over one
  folder's envelopes as a fold of it. The envelope steps run in parallel in the system, so the
  final cache must not depend on their order; FoldOrderIndependent proves that it does not.
*/
module Steps {
  import opened Wrappers
  import opened Text
  import opened Records
  import opened Store
  import opened Agent

  /**
    What the environment decided for one envelope: whether its metadata write succeeded, what
    the body fetch returned (`None` for a failed fetch, or when no fetch was made), and
    whether the body write succeeded.
  */
  datatype StepOutcome = StepOutcome(metaWritten: bool, body: Option<Bytes>, bodyWritten: bool)

  datatype Item = Item(envelope: Envelope, outcome: StepOutcome)

  /** The two paths an envelope's step may write. */
  predicate Owns(account: string, folder: string, it: Item, p: Path) {
    p == MetaPath(account, folder, it.envelope.id) || p == MessagePath(account, folder, it.envelope.id)
  }

  function Lookup(files: Files, p: Path): Option<Content> {
    if p in files then Some(files[p]) else None
  }

  /**
    One envelope: write its metadata file; if that failed, stop. Otherwise, when no message body
    is cached yet, store the fetched body if both fetch and write succeeded.
  */
  function EnvelopeStep(files: Files, account: string, folder: string, it: Item): (r: Files)
    ensures forall p :: !Owns(account, folder, it, p) ==> SameAt(files, r, p)
    ensures BodiesKept(files, r)
    ensures it.outcome.metaWritten ==>
      MetaPath(account, folder, it.envelope.id) in r
      && r[MetaPath(account, folder, it.envelope.id)] == EnvelopeRecord(it.envelope)
    ensures !it.outcome.metaWritten ==> r == files
  {
    var meta := MetaPath(account, folder, it.envelope.id);
    var message := MessagePath(account, folder, it.envelope.id);
    EnvelopePathsDistinct(account, folder, it.envelope.id, it.envelope.id);
    if !it.outcome.metaWritten then files
    else
      var withMeta := files[meta := EnvelopeRecord(it.envelope)];
      if message in withMeta || it.outcome.body.None? || !it.outcome.bodyWritten then withMeta
      else withMeta[message := MessageBody(it.outcome.body.value)]
  }

  /** A step's effect on its own paths depends only on what the cache holds at those paths. */
  lemma StepIsLocal(f1: Files, f2: Files, account: string, folder: string, it: Item, p: Path)
    requires Owns(account, folder, it, p)
    requires SameAt(f1, f2, MetaPath(account, folder, it.envelope.id))
    requires SameAt(f1, f2, MessagePath(account, folder, it.envelope.id))
    ensures Lookup(EnvelopeStep(f1, account, folder, it), p) == Lookup(EnvelopeStep(f2, account, folder, it), p)
  {
    EnvelopePathsDistinct(account, folder, it.envelope.id, it.envelope.id);
  }

  /** Repeating a step with the same outcome changes nothing more. */
  lemma StepIdempotent(files: Files, account: string, folder: string, it: Item)
    ensures EnvelopeStep(EnvelopeStep(files, account, folder, it), account, folder, it)
         == EnvelopeStep(files, account, folder, it)
  {
    EnvelopePathsDistinct(account, folder, it.envelope.id, it.envelope.id);
  }

  /** The steps of a folder's envelopes, one after another in list order. */
  function Fold(files: Files, account: string, folder: string, items: seq<Item>): (r: Files)
    ensures BodiesKept(files, r)
    ensures forall p :: !InFolder(account, folder, p) ==> SameAt(files, r, p)
    decreases |items|
  {
    if items == [] then files
    else
      var before := Fold(files, account, folder, items[..|items| - 1]);
      var last := items[|items| - 1];
      var r := EnvelopeStep(before, account, folder, last);
      assert forall p :: Owns(account, folder, last, p) ==> InFolder(account, folder, p);
      r
  }

  /** Two items with the same id are the same item (with the same outcome). */
  ghost predicate IdsDetermineItems(items: seq<Item>) {
    forall x, y :: x in items && y in items && x.envelope.id == y.envelope.id ==> x == y
  }

  lemma OwnersShareId(account: string, folder: string, x: Item, y: Item, p: Path)
    requires Owns(account, folder, x, p) && Owns(account, folder, y, p)
    ensures x.envelope.id == y.envelope.id
  {
    EnvelopePathsDistinct(account, folder, x.envelope.id, y.envelope.id);
    EnvelopePathsDistinct(account, folder, y.envelope.id, x.envelope.id);
  }

  lemma SameAtFromLookup(f1: Files, f2: Files, p: Path)
    requires Lookup(f1, p) == Lookup(f2, p)
    ensures SameAt(f1, f2, p)
  {
  }

  /** Closed form of the fold at a path no item owns: it is untouched. */
  lemma {:induction false} FoldAtUnowned(files: Files, account: string, folder: string, items: seq<Item>, p: Path)
    requires forall it :: it in items ==> !Owns(account, folder, it, p)
    ensures Lookup(Fold(files, account, folder, items), p) == Lookup(files, p)
    decreases |items|
  {
    if items != [] {
      var prefix := items[..|items| - 1];
      var last := items[|items| - 1];
      assert forall it :: it in prefix ==> it in items;
      FoldAtUnowned(files, account, folder, prefix, p);
      var before := Fold(files, account, folder, prefix);
      assert SameAt(before, EnvelopeStep(before, account, folder, last), p);
    }
  }

  /**
    Closed form of the fold at a path an item owns: it holds what that item's step alone would
    have left there, whatever the other items are and wherever this one stands.
  */
  lemma {:induction false} FoldAtOwned(files: Files, account: string, folder: string, items: seq<Item>, it: Item, p: Path)
    requires IdsDetermineItems(items) && it in items && Owns(account, folder, it, p)
    ensures Lookup(Fold(files, account, folder, items), p) == Lookup(EnvelopeStep(files, account, folder, it), p)
    decreases |items|
  {
    var prefix := items[..|items| - 1];
    var last := items[|items| - 1];
    var before := Fold(files, account, folder, prefix);
    assert items == prefix + [last];
    assert forall x :: x in prefix ==> x in items;
    assert IdsDetermineItems(prefix);
    if !Owns(account, folder, last, p) {
      assert it in prefix;
      FoldAtOwned(files, account, folder, prefix, it, p);
      assert SameAt(before, EnvelopeStep(before, account, folder, last), p);
    } else {
      OwnersShareId(account, folder, it, last, p);
      assert it == last;
      var meta := MetaPath(account, folder, last.envelope.id);
      var message := MessagePath(account, folder, last.envelope.id);
      if last in prefix {
        FoldAtOwned(files, account, folder, prefix, last, meta);
        FoldAtOwned(files, account, folder, prefix, last, message);
        var once := EnvelopeStep(files, account, folder, last);
        SameAtFromLookup(before, once, meta);
        SameAtFromLookup(before, once, message);
        StepIsLocal(before, once, account, folder, last, p);
        StepIdempotent(files, account, folder, last);
      } else {
        forall x | x in prefix
          ensures !Owns(account, folder, x, meta) && !Owns(account, folder, x, message)
        {
          if Owns(account, folder, x, meta) {
            OwnersShareId(account, folder, x, last, meta);
          } else if Owns(account, folder, x, message) {
            OwnersShareId(account, folder, x, last, message);
          }
        }
        FoldAtUnowned(files, account, folder, prefix, meta);
        FoldAtUnowned(files, account, folder, prefix, message);
        SameAtFromLookup(before, files, meta);
        SameAtFromLookup(before, files, message);
        StepIsLocal(before, files, account, folder, last, p);
      }
    }
  }

  /**
    Order independence of the parallel fan-out: processing the same envelopes, each with its
    own outcome, in any order leaves the same cache.
  */
  lemma FoldOrderIndependent(files: Files, account: string, folder: string, items: seq<Item>, reordered: seq<Item>)
    requires multiset(items) == multiset(reordered)
    requires IdsDetermineItems(items)
    ensures Fold(files, account, folder, items) == Fold(files, account, folder, reordered)
  {
    var r1 := Fold(files, account, folder, items);
    var r2 := Fold(files, account, folder, reordered);
    assert forall it :: it in items <==> it in reordered by {
      forall it ensures it in items <==> it in reordered {
        assert it in items <==> it in multiset(items);
        assert it in reordered <==> it in multiset(reordered);
      }
    }
    assert IdsDetermineItems(reordered);
    forall p ensures Lookup(r1, p) == Lookup(r2, p) {
      if it :| it in items && Owns(account, folder, it, p) {
        FoldAtOwned(files, account, folder, items, it, p);
        FoldAtOwned(files, account, folder, reordered, it, p);
      } else {
        FoldAtUnowned(files, account, folder, items, p);
        FoldAtUnowned(files, account, folder, reordered, p);
      }
    }
    assert r1.Keys == r2.Keys by {
      forall p ensures p in r1 <==> p in r2 {
        assert Lookup(r1, p) == Lookup(r2, p);
      }
    }
    forall p | p in r1 ensures r1[p] == r2[p] {
      assert Lookup(r1, p) == Lookup(r2, p);
    }
  }

  /**
    After a folder's envelopes are processed, an envelope's body is cached exactly when it was
    cached before or its metadata write, fetch and body write all succeeded; a body cached
    before is left as it was.
  */
  lemma FoldCachesBodies(files: Files, account: string, folder: string, items: seq<Item>, it: Item)
    requires IdsDetermineItems(items) && it in items
    ensures var message := MessagePath(account, folder, it.envelope.id);
      var r := Fold(files, account, folder, items);
      (message in r <==>
        (message in files || (it.outcome.metaWritten && it.outcome.body.Some? && it.outcome.bodyWritten)))
      && (message in files ==> r[message] == files[message])
      && (message !in files && it.outcome.metaWritten && it.outcome.body.Some? && it.outcome.bodyWritten ==>
            r[message] == MessageBody(it.outcome.body.value))
  {
    var message := MessagePath(account, folder, it.envelope.id);
    FoldAtOwned(files, account, folder, items, it, message);
    EnvelopePathsDistinct(account, folder, it.envelope.id, it.envelope.id);
  }

  /** An envelope whose metadata write succeeded has its record in the metadata file. */
  lemma FoldWritesMetadata(files: Files, account: string, folder: string, items: seq<Item>, it: Item)
    requires IdsDetermineItems(items) && it in items && it.outcome.metaWritten
    ensures var meta := MetaPath(account, folder, it.envelope.id);
      var r := Fold(files, account, folder, items);
      meta in r && r[meta] == EnvelopeRecord(it.envelope)
  {
    FoldAtOwned(files, account, folder, items, it, MetaPath(account, folder, it.envelope.id));
  }

  /**
    Where the environment stands between two envelopes: the cache, the number of filesystem
    operations used and the number of agent launches made so far.
  */
  datatype World = World(files: Files, ops: nat, launches: nat)

  /**
    What the environment gives an envelope reached in world `w`, where filesystem operation `n`
    fails exactly when `n` is in `faulty` and launch `n` produces `script(n)`. The metadata write
    is the next operation; only when it succeeded and no body is cached is the body fetched
    with retries; only a fetched body is written, by the operation after.
  */
  function EnvelopeOutcome(faulty: set<nat>, script: nat -> Attempt, w: World, account: string, folder: string, e: Envelope): (out: StepOutcome)
    ensures out.metaWritten == (w.ops !in faulty)
    ensures out.body.Some? <==>
      out.metaWritten && MessagePath(account, folder, e.id) !in w.files
      && Retry(WindowOf(script, w.launches)).result.Success?
    ensures out.body.Some? ==>
      out.body.value == Retry(WindowOf(script, w.launches)).result.value
      && out.bodyWritten == (w.ops + 1 !in faulty)
    ensures out.body.None? ==> !out.bodyWritten
  {
    if w.ops in faulty then StepOutcome(false, None, false)
    else if MessagePath(account, folder, e.id) in w.files then StepOutcome(true, None, false)
    else
      match Retry(WindowOf(script, w.launches)).result
      case Failure(_) => StepOutcome(true, None, false)
      case Success(body) => StepOutcome(true, Some(body), w.ops + 1 !in faulty)
  }

  /** Whether an envelope reached in world `w` fetches its body: its metadata was written and no body is cached. */
  predicate Fetches(faulty: set<nat>, w: World, account: string, folder: string, e: Envelope) {
    w.ops !in faulty && MessagePath(account, folder, e.id) !in w.files
  }

  /**
    The world after one envelope: the cache after its step, one operation for the metadata
    write and one more for a body write, and the launches of the fetch when there is one.
  */
  function Advance(faulty: set<nat>, script: nat -> Attempt, w: World, account: string, folder: string, e: Envelope): (next: World)
    ensures w.ops + 1 <= next.ops <= w.ops + 2
    ensures !Fetches(faulty, w, account, folder, e) ==> next.launches == w.launches && next.ops == w.ops + 1
    ensures Fetches(faulty, w, account, folder, e) ==> w.launches + 1 <= next.launches <= w.launches + MaxAttempts
  {
    var out := EnvelopeOutcome(faulty, script, w, account, folder, e);
    RetryBounds(WindowOf(script, w.launches));
    World(EnvelopeStep(w.files, account, folder, Item(e, out)),
          w.ops + (if out.body.Some? then 2 else 1),
          w.launches + (if Fetches(faulty, w, account, folder, e) then Retry(WindowOf(script, w.launches)).attempts else 0))
  }

  /**
    What a sync reports without stopping. The envelope-list and folder-list warnings belong to
    the folder and account loops; the other three are the per-envelope failures of the fan-out.
  */
  datatype Warning =
    | FolderListSkipped(account: string, error: AgentError)
    | EnvelopeListSkipped(account: string, folder: string, error: AgentError)
    | MetaWriteFailed(account: string, folder: string, id: string)
    | MessageFetchFailed(account: string, folder: string, id: string, error: AgentError)
    | MessageWriteFailed(account: string, folder: string, id: string)

  predicate IsEnvelopeWarning(x: Warning) {
    x.MetaWriteFailed? || x.MessageFetchFailed? || x.MessageWriteFailed?
  }

  /** `x` is a per-envelope warning about some envelope of `folder` of `account`. */
  predicate NamesFolder(x: Warning, account: string, folder: string) {
    IsEnvelopeWarning(x) && x.account == account && x.folder == folder
  }

  /** `x` is a per-envelope warning about envelope `id` of `folder` of `account`. */
  predicate NamesEnvelope(x: Warning, account: string, folder: string, id: string) {
    IsEnvelopeWarning(x) && x.account == account && x.folder == folder && x.id == id
  }

  function AsSeq<T>(o: Option<T>): seq<T> {
    if o.Some? then [o.value] else []
  }

  /**
    The warning an envelope reached in world `w` prints: a failed metadata write, a failed
    fetch (with the agent's error) or a failed body write; none when its body was cached
    before or has just been written.
  */
  function EnvelopeWarning(faulty: set<nat>, script: nat -> Attempt, w: World, account: string, folder: string, e: Envelope): (r: Option<Warning>)
    ensures var out := EnvelopeOutcome(faulty, script, w, account, folder, e);
      r.None? <==> out.metaWritten && (MessagePath(account, folder, e.id) in w.files || (out.body.Some? && out.bodyWritten))
    ensures r.Some? ==> NamesEnvelope(r.value, account, folder, e.id)
    ensures r.Some? && r.value.MessageFetchFailed? ==>
      Retry(WindowOf(script, w.launches)).result == Failure(r.value.error)
  {
    if w.ops in faulty then Some(MetaWriteFailed(account, folder, e.id))
    else if MessagePath(account, folder, e.id) in w.files then None
    else
      match Retry(WindowOf(script, w.launches)).result
      case Failure(err) => Some(MessageFetchFailed(account, folder, e.id, err))
      case Success(_) => if w.ops + 1 in faulty then Some(MessageWriteFailed(account, folder, e.id)) else None
  }

  /** Where the fan-out over a folder's envelopes ends: the world, each envelope's item, and the warnings, in list order. */
  datatype Pass = Pass(world: World, items: seq<Item>, warnings: seq<Warning>)

  /**
    The fan-out over `envelopes` from world `w`: each envelope in turn gets what the
    environment gives it in the world the envelopes before it left.
  */
  function FanOut(faulty: set<nat>, script: nat -> Attempt, account: string, folder: string,
                  envelopes: seq<Envelope>, w: World): (p: Pass)
    ensures |p.items| == |envelopes| && forall k :: 0 <= k < |envelopes| ==> p.items[k].envelope == envelopes[k]
    ensures forall x :: x in p.warnings ==> NamesFolder(x, account, folder)
    decreases |envelopes|
  {
    if envelopes == [] then Pass(w, [], [])
    else
      var prev := FanOut(faulty, script, account, folder, envelopes[..|envelopes| - 1], w);
      var e := envelopes[|envelopes| - 1];
      Pass(Advance(faulty, script, prev.world, account, folder, e),
           prev.items + [Item(e, EnvelopeOutcome(faulty, script, prev.world, account, folder, e))],
           prev.warnings + AsSeq(EnvelopeWarning(faulty, script, prev.world, account, folder, e)))
  }

  /** One more envelope of the list. */
  lemma FanOutSnoc(faulty: set<nat>, script: nat -> Attempt, account: string, folder: string,
                   envelopes: seq<Envelope>, i: nat, w: World)
    requires i < |envelopes|
    ensures var prev := FanOut(faulty, script, account, folder, envelopes[..i], w);
      FanOut(faulty, script, account, folder, envelopes[..i + 1], w)
      == Pass(Advance(faulty, script, prev.world, account, folder, envelopes[i]),
              prev.items + [Item(envelopes[i], EnvelopeOutcome(faulty, script, prev.world, account, folder, envelopes[i]))],
              prev.warnings + AsSeq(EnvelopeWarning(faulty, script, prev.world, account, folder, envelopes[i])))
  {
    assert envelopes[..i + 1][..i] == envelopes[..i];
  }

  /** The cache the fan-out leaves is the fold of the steps with the outcomes the environment gave. */
  lemma {:induction false} FanOutIsFold(faulty: set<nat>, script: nat -> Attempt, account: string, folder: string,
                                        envelopes: seq<Envelope>, w: World)
    ensures var p := FanOut(faulty, script, account, folder, envelopes, w);
      p.world.files == Fold(w.files, account, folder, p.items)
    decreases |envelopes|
  {
    if envelopes != [] {
      var init := envelopes[..|envelopes| - 1];
      FanOutIsFold(faulty, script, account, folder, init, w);
      var p := FanOut(faulty, script, account, folder, envelopes, w);
      assert p.items[..|p.items| - 1] == FanOut(faulty, script, account, folder, init, w).items;
    }
  }

  /**
    Bounded work: the fan-out over `n` envelopes uses between `n` and `2n` filesystem
    operations and at most three launches per envelope.
  */
  lemma {:induction false} FanOutWork(faulty: set<nat>, script: nat -> Attempt, account: string, folder: string,
                                      envelopes: seq<Envelope>, w: World)
    ensures var p := FanOut(faulty, script, account, folder, envelopes, w);
      && w.ops + |envelopes| <= p.world.ops <= w.ops + 2 * |envelopes|
      && w.launches <= p.world.launches <= w.launches + MaxAttempts * |envelopes|
    decreases |envelopes|
  {
    if envelopes != [] {
      FanOutWork(faulty, script, account, folder, envelopes[..|envelopes| - 1], w);
    }
  }

  /** The warning of the `k`-th envelope is the same whether the fan-out is over the whole list or a longer prefix of it. */
  lemma WarningInPrefix(faulty: set<nat>, script: nat -> Attempt, account: string, folder: string,
                        envelopes: seq<Envelope>, w: World, n: nat, k: nat)
    requires k < n <= |envelopes|
    ensures EnvelopeWarning(faulty, script, FanOut(faulty, script, account, folder, envelopes[..n][..k], w).world,
                            account, folder, envelopes[..n][k])
         == EnvelopeWarning(faulty, script, FanOut(faulty, script, account, folder, envelopes[..k], w).world,
                            account, folder, envelopes[k])
  {
    assert envelopes[..n][..k] == envelopes[..k];
  }

  /** Every warning of the fan-out is the warning of one of its envelopes, taken in the world the envelopes before it left. */
  lemma {:induction false} FanOutWarningFrom(faulty: set<nat>, script: nat -> Attempt, account: string, folder: string,
                                             envelopes: seq<Envelope>, w: World, x: Warning)
    requires x in FanOut(faulty, script, account, folder, envelopes, w).warnings
    ensures exists k ::
              && 0 <= k < |envelopes|
              && EnvelopeWarning(faulty, script, FanOut(faulty, script, account, folder, envelopes[..k], w).world,
                                 account, folder, envelopes[k]) == Some(x)
    decreases |envelopes|
  {
    var n := |envelopes| - 1;
    var init := envelopes[..n];
    var prev := FanOut(faulty, script, account, folder, init, w);
    if x in prev.warnings {
      FanOutWarningFrom(faulty, script, account, folder, init, w, x);
      var k :| 0 <= k < n
        && EnvelopeWarning(faulty, script, FanOut(faulty, script, account, folder, init[..k], w).world,
                           account, folder, init[k]) == Some(x);
      WarningInPrefix(faulty, script, account, folder, envelopes, w, n, k);
    } else {
      assert EnvelopeWarning(faulty, script, FanOut(faulty, script, account, folder, envelopes[..n], w).world,
                             account, folder, envelopes[n]) == Some(x);
    }
  }

  /** Every envelope whose step fails puts its warning among the fan-out's warnings. */
  lemma {:induction false} FanOutWarningOf(faulty: set<nat>, script: nat -> Attempt, account: string, folder: string,
                                           envelopes: seq<Envelope>, w: World, k: nat, x: Warning)
    requires k < |envelopes|
    requires EnvelopeWarning(faulty, script, FanOut(faulty, script, account, folder, envelopes[..k], w).world,
                             account, folder, envelopes[k]) == Some(x)
    ensures x in FanOut(faulty, script, account, folder, envelopes, w).warnings
    decreases |envelopes|
  {
    var n := |envelopes| - 1;
    if k < n {
      WarningInPrefix(faulty, script, account, folder, envelopes, w, n, k);
      FanOutWarningOf(faulty, script, account, folder, envelopes[..n], w, k, x);
      EarlierWarningKept(faulty, script, account, folder, envelopes, w, n, x);
    } else {
      assert k == n;
      LastWarningKept(faulty, script, account, folder, envelopes, w, n, x);
    }
  }

  /** A warning of the envelopes before the last is a warning of the whole fan-out. */
  lemma EarlierWarningKept(faulty: set<nat>, script: nat -> Attempt, account: string, folder: string,
                           envelopes: seq<Envelope>, w: World, n: nat, x: Warning)
    requires n + 1 == |envelopes|
    requires x in FanOut(faulty, script, account, folder, envelopes[..n], w).warnings
    ensures x in FanOut(faulty, script, account, folder, envelopes, w).warnings
  {
  }

  /** The last envelope's warning is a warning of the whole fan-out. */
  lemma LastWarningKept(faulty: set<nat>, script: nat -> Attempt, account: string, folder: string,
                        envelopes: seq<Envelope>, w: World, n: nat, x: Warning)
    requires n + 1 == |envelopes|
    requires EnvelopeWarning(faulty, script, FanOut(faulty, script, account, folder, envelopes[..n], w).world,
                             account, folder, envelopes[n]) == Some(x)
    ensures x in FanOut(faulty, script, account, folder, envelopes, w).warnings
  {
  }

  /**
    An envelope of the list that no warning names has its message body in the cache the
    fan-out leaves: either it was cached already or it was fetched and written.
  */
  lemma {:induction false} FanOutCachesBodies(faulty: set<nat>, script: nat -> Attempt, account: string, folder: string,
                                              envelopes: seq<Envelope>, w: World, e: Envelope)
    requires e in envelopes
    requires forall x :: x in FanOut(faulty, script, account, folder, envelopes, w).warnings ==> !NamesEnvelope(x, account, folder, e.id)
    ensures MessagePath(account, folder, e.id) in FanOut(faulty, script, account, folder, envelopes, w).world.files
    decreases |envelopes|
  {
    var init := envelopes[..|envelopes| - 1];
    var last := envelopes[|envelopes| - 1];
    var prev := FanOut(faulty, script, account, folder, init, w);
    var message := MessagePath(account, folder, e.id);
    assert IsMessagePath(message);
    if e in init {
      FanOutCachesBodies(faulty, script, account, folder, init, w, e);
    } else {
      assert e == last;
      EnvelopePathsDistinct(account, folder, e.id, e.id);
    }
  }
}
