/**
  The read side of the cache: listing a folder's cached envelopes newest first
  (`list_cached_envelopes`) and printing a cached message with its CRLF line endings
  rewritten (`read_cached_message`).
*/
module Listing {
  import opened Wrappers
  import opened Text
  import opened Records
  import opened Store
  import opened Dates

  /** The position of the last `.` in `name`, if any. */
  function LastDot(name: string): (k: Option<nat>)
    ensures k.Some? ==> k.value < |name| && name[k.value] == '.'
                        && forall j :: k.value < j < |name| ==> name[j] != '.'
    ensures k.None? ==> forall j :: 0 <= j < |name| ==> name[j] != '.'
    decreases |name|
  {
    if name == [] then None
    else if name[|name| - 1] == '.' then Some(|name| - 1)
    else LastDot(name[..|name| - 1])
  }

  /**
    `Path::extension` of a file name: the text after the last dot, except for `..` and for a
    name whose only dot is its first character (a hidden file such as `.json` has none).
  */
  function Extension(name: string): (r: Option<string>)
    ensures r.Some? ==> exists k :: 0 < k < |name| && name[k] == '.' && r.value == name[k + 1..]
    ensures r.Some? ==> forall j :: 0 <= j < |r.value| ==> r.value[j] != '.'
    ensures r.None? <==> name == ".." || forall j :: 0 < j < |name| ==> name[j] != '.'
  {
    if name == ".." then None
    else
      match LastDot(name)
      case None => None
      case Some(k) => if k == 0 then None else Some(name[k + 1..])
  }

  /** Every metadata file the sync writes (`<id>.json`, for an id that is not empty) is picked up by the listing. */
  lemma JsonNameHasJsonExtension(stem: string)
    requires stem != ""
    ensures Extension(stem + ".json") == Some("json")
  {
    var name := stem + ".json";
    assert name[|stem|] == '.';
    assert name[|stem| + 1..] == "json";
    var k := LastDot(name);
    assert k.Some? && k.value >= |stem| by {
      assert name[|stem|] == '.';
    }
    assert k.value == |stem|;
    assert name != ".." by {
      assert |name| >= 6;
    }
  }

  /** `Option` order as Rust derives it: `None` before every `Some`, and `Some` values by value. */
  predicate OptionLeq(x: Option<int>, y: Option<int>) {
    x.None? || (y.Some? && x.value <= y.value)
  }

  /** Ordered by `rank`, largest first (`right.cmp(&left)` as the comparator). */
  ghost predicate SortedDesc<T>(s: seq<T>, rank: T -> Option<int>) {
    forall i, j :: 0 <= i < j < |s| ==> OptionLeq(rank(s[j]), rank(s[i]))
  }

  /** The first `n` elements are in order, except that the one at `hole` may be out of place leftwards. */
  ghost predicate SortedBut<T>(s: seq<T>, n: nat, hole: nat, rank: T -> Option<int>)
    requires n <= |s|
  {
    forall k, l :: 0 <= k < l < n && l != hole ==> OptionLeq(rank(s[l]), rank(s[k]))
  }

  method Swap<T>(a: array<T>, j: nat)
    requires 0 < j < a.Length
    modifies a
    ensures a[..] == old(a[..])[j := old(a[j - 1])][j - 1 := old(a[j])]
    ensures multiset(a[..]) == old(multiset(a[..]))
  {
    ghost var s := a[..];
    a[j], a[j - 1] := a[j - 1], a[j];
    assert a[..] == s[j := s[j - 1]][j - 1 := s[j]];
    assert multiset(s[j := s[j - 1]]) == multiset(s) - multiset{s[j]} + multiset{s[j - 1]};
  }

  /** Moves `a[i]` left past every element of smaller rank, into the sorted prefix `a[..i]`. */
  method InsertAt<T>(a: array<T>, i: nat, rank: T -> Option<int>)
    requires i < a.Length && SortedDesc(a[..i], rank)
    modifies a
    ensures SortedDesc(a[..i + 1], rank)
    ensures multiset(a[..]) == old(multiset(a[..]))
    ensures a[i + 1..] == old(a[i + 1..])
  {
    var j := i;
    while j > 0 && !OptionLeq(rank(a[j]), rank(a[j - 1]))
      invariant 0 <= j <= i
      invariant multiset(a[..]) == old(multiset(a[..]))
      invariant a[i + 1..] == old(a[i + 1..])
      invariant SortedBut(a[..], i + 1, j, rank)
      invariant forall l :: j < l <= i ==> OptionLeq(rank(a[l]), rank(a[j]))
    {
      Swap(a, j);
      j := j - 1;
    }
    assert forall k :: 0 <= k < j ==> OptionLeq(rank(a[j]), rank(a[k])) by {
      if j > 0 {
        forall k | 0 <= k < j ensures OptionLeq(rank(a[j]), rank(a[k])) {
          assert OptionLeq(rank(a[j - 1]), rank(a[k])) || k == j - 1;
        }
      }
    }
  }

  /**
    `sort_by` with the descending comparator `right.cmp(&left)` on `rank`, in place: an insertion
    sort that, like the library's, never moves an element past one of equal rank.
  */
  method SortDesc<T>(a: array<T>, rank: T -> Option<int>)
    modifies a
    ensures SortedDesc(a[..], rank)
    ensures multiset(a[..]) == old(multiset(a[..]))
  {
    var i := 0;
    while i < a.Length
      invariant 0 <= i <= a.Length
      invariant SortedDesc(a[..i], rank)
      invariant multiset(a[..]) == old(multiset(a[..]))
    {
      InsertAt(a, i, rank);
      i := i + 1;
    }
    assert a[..a.Length] == a[..];
  }

  /** Envelopes without a parseable date come after every envelope that has one. */
  lemma UndatedLast(s: seq<Envelope>, i: nat, j: nat)
    requires SortedDesc(s, ParseEnvelopeDate) && i < |s| && j < |s|
    requires ParseEnvelopeDate(s[i]).None? && ParseEnvelopeDate(s[j]).Some?
    ensures j < i
  {
    assert i < j ==> OptionLeq(ParseEnvelopeDate(s[j]), ParseEnvelopeDate(s[i]));
  }

  lemma SortedAt<T>(r: seq<T>, rank: T -> Option<int>, i: nat, j: nat)
    requires SortedDesc(r, rank) && i < j < |r|
    ensures OptionLeq(rank(r[j]), rank(r[i]))
  {
  }

  /**
    Three elements with a larger rank, a smaller rank and no rank have exactly one order that is
    sorted: any sorted arrangement of them is that one.
  */
  lemma SortedThree<T>(first: T, second: T, third: T, r: seq<T>, rank: T -> Option<int>)
    requires rank(first).Some? && rank(second).Some? && rank(second).value < rank(first).value
    requires rank(third).None?
    requires multiset(r) == multiset{first, second, third}
    requires SortedDesc(r, rank)
    ensures r == [first, second, third]
  {
    assert |r| == 3 by {
      assert |multiset(r)| == |multiset{first, second, third}|;
    }
    assert first in multiset(r) && second in multiset(r) && third in multiset(r);
    var x :| 0 <= x < 3 && r[x] == first;
    var y :| 0 <= y < 3 && r[y] == second;
    var z :| 0 <= z < 3 && r[z] == third;
    assert x != y && y != z && x != z;
    SortedAt(r, rank, if x < y then x else y, if x < y then y else x);
    SortedAt(r, rank, if y < z then y else z, if y < z then z else y);
    assert x < y < z;
    assert r == [r[0], r[1], r[2]];
  }

  /**
    The ordering example: two envelopes whose dates are written in the pattern and one without a
    date, read in any order, come out newest first with the undated one last.
  */
  lemma ListingOrderExample(older: Envelope, newer: Envelope, undated: Envelope, r: seq<Envelope>,
                            early: Stamp, late: Stamp)
    requires ValidStamp(early) && ValidStamp(late) && Instant(early) < Instant(late)
    requires older.date == Some(Format(early)) && newer.date == Some(Format(late))
    requires undated.date.None?
    requires multiset(r) == multiset{older, newer, undated}
    requires SortedDesc(r, ParseEnvelopeDate)
    ensures r == [newer, older, undated]
  {
    FormatParses(early);
    FormatParses(late);
    SortedThree(newer, older, undated, r, ParseEnvelopeDate);
  }

  /**
    The worked case: an envelope dated 2024-01-01 10:00+00:00, one dated 2024-03-05 09:00+00:00
    and one without a date are listed March, January, undated.
  */
  lemma WorkedListingOrder(january: Envelope, march: Envelope, undated: Envelope, r: seq<Envelope>)
    requires january.date == Some("2024-01-01 10:00+00:00") && march.date == Some("2024-03-05 09:00+00:00")
    requires undated.date.None?
    requires multiset(r) == multiset{january, march, undated}
    requires SortedDesc(r, ParseEnvelopeDate)
    ensures r == [march, january, undated]
  {
    JanuaryText();
    MarchText();
    JanuaryInstant();
    MarchInstant();
    ListingOrderExample(january, march, undated, r, Stamp(2024, 1, 1, 10, 0, true, 0, 0), Stamp(2024, 3, 5, 9, 0, true, 0, 0));
  }

  /** The names directly inside directory `dir`, files and (implicit) sub-directories alike. */
  function Children(files: Files, dir: Path): set<string> {
    set p | p in files.Keys && |p| > |dir| && p[..|dir|] == dir :: p[|dir|]
  }

  /** What the listing does with one directory entry. */
  datatype Entry =
    | NotJson               // skipped: its extension is not `json`
    | Record(envelope: Envelope)
    | Unreadable            // a sub-directory named `*.json`: reading it fails
    | Unparseable           // a file that does not hold an envelope record

  function Classify(files: Files, dir: Path, name: string): Entry {
    if Extension(name) != Some("json") then NotJson
    else if dir + [name] !in files then Unreadable
    else match files[dir + [name]]
      case EnvelopeRecord(e) => Record(e)
      case _ => Unparseable
  }

  predicate Acceptable(e: Entry) {
    e.NotJson? || e.Record?
  }

  /** The envelope records among `names`, in that order. */
  function RecordsOf(files: Files, dir: Path, names: seq<string>): (r: seq<Envelope>)
    ensures |r| <= |names|
  {
    if names == [] then []
    else
      var init := RecordsOf(files, dir, names[..|names| - 1]);
      match Classify(files, dir, names[|names| - 1])
      case Record(e) => init + [e]
      case _ => init
  }

  lemma RecordsOfSnoc(files: Files, dir: Path, names: seq<string>, name: string)
    ensures RecordsOf(files, dir, names + [name])
         == RecordsOf(files, dir, names) + (if Classify(files, dir, name).Record? then [Classify(files, dir, name).envelope] else [])
  {
    assert (names + [name])[..|names|] == names;
  }

  datatype ListError =
    | MetaDirMissing          // `read_dir` on a directory that does not exist
    | ReadFailed(name: string)
    | ParseFailed(name: string)

  /** `order` lists every element of `names` exactly once. */
  ghost predicate Enumerates(order: seq<string>, names: set<string>) {
    (forall i, j :: 0 <= i < j < |order| ==> order[i] != order[j])
    && (forall n :: n in order <==> n in names)
  }

  /** What the listing promises about the entries of `dir`, before its sort. */
  ghost predicate EntriesOutcome(files: Files, dir: Path, r: Result<seq<Envelope>, ListError>, order: seq<string>) {
    var names := Children(files, dir);
    && (r == Failure(MetaDirMissing) <==> names == {})
    && (r.Success? <==> names != {} && forall n :: n in names ==> Acceptable(Classify(files, dir, n)))
    && (r.Failure? && r.error.ReadFailed? ==> r.error.name in names && Classify(files, dir, r.error.name) == Unreadable)
    && (r.Failure? && r.error.ParseFailed? ==> r.error.name in names && Classify(files, dir, r.error.name) == Unparseable)
    && (r.Success? ==> Enumerates(order, names))
  }

  /**
    The reading loop of the listing: visit `names` in whatever order the directory yields them
    (`order`), skip those without the `json` extension, collect the envelope records, and stop
    at the first entry that cannot be read or parsed.
  */
  method ReadEntries(files: Files, dir: Path, names: set<string>) returns (r: Result<seq<Envelope>, ListError>, ghost order: seq<string>)
    ensures r.Success? <==> forall n :: n in names ==> Acceptable(Classify(files, dir, n))
    ensures r.Failure? ==> r.error.ReadFailed? || r.error.ParseFailed?
    ensures r.Failure? && r.error.ReadFailed? ==> r.error.name in names && Classify(files, dir, r.error.name) == Unreadable
    ensures r.Failure? && r.error.ParseFailed? ==> r.error.name in names && Classify(files, dir, r.error.name) == Unparseable
    ensures r.Success? ==> Enumerates(order, names) && r.value == RecordsOf(files, dir, order)
  {
    var remaining := names;
    order := [];
    var envelopes: seq<Envelope> := [];
    while remaining != {}
      invariant remaining <= names
      invariant forall i, j :: 0 <= i < j < |order| ==> order[i] != order[j]
      invariant forall n :: n in order <==> n in names && n !in remaining
      invariant forall n :: n in order ==> Acceptable(Classify(files, dir, n))
      invariant envelopes == RecordsOf(files, dir, order)
      decreases |remaining|
    {
      var name :| name in remaining;
      var entry := Classify(files, dir, name);
      if !Acceptable(entry) {
        r := Failure(if entry.Unreadable? then ReadFailed(name) else ParseFailed(name));
        return;
      }
      assert name !in order;
      RecordsOfSnoc(files, dir, order, name);
      remaining := remaining - {name};
      order := order + [name];
      if entry.Record? {
        envelopes := envelopes + [entry.envelope];
      }
    }
    r := Success(envelopes);
  }

  /**
    `list_cached_envelopes`: the records of `meta/<account>/<folder>`, read as `ReadEntries`
    does, then sorted in place newest first.
  */
  method ListCachedEnvelopes(cache: Cache, account: string, folder: string)
    returns (r: Result<seq<Envelope>, ListError>, ghost order: seq<string>)
    ensures r == Failure(MetaDirMissing) <==> Children(cache.files, MetaDir(account, folder)) == {}
    ensures r.Success? <==>
      Children(cache.files, MetaDir(account, folder)) != {}
      && forall n :: n in Children(cache.files, MetaDir(account, folder)) ==> Acceptable(Classify(cache.files, MetaDir(account, folder), n))
    ensures r.Success? ==> SortedDesc(r.value, ParseEnvelopeDate)
    ensures r.Failure? ==> EntriesOutcome(cache.files, MetaDir(account, folder), r, order)
    ensures r.Success? ==>
      && EntriesOutcome(cache.files, MetaDir(account, folder), Success(RecordsOf(cache.files, MetaDir(account, folder), order)), order)
      && multiset(r.value) == multiset(RecordsOf(cache.files, MetaDir(account, folder), order))
      && SortedDesc(r.value, ParseEnvelopeDate)
  {
    var dir := MetaDir(account, folder);
    var names := Children(cache.files, dir);
    if names == {} {
      r := Failure(MetaDirMissing);
      order := [];
      return;
    }
    var read;
    read, order := ReadEntries(cache.files, dir, names);
    if read.Failure? {
      r := read;
      return;
    }
    var envelopes := read.value;
    var sorted := new Envelope[|envelopes|](k requires 0 <= k < |envelopes| => envelopes[k]);
    assert sorted[..] == envelopes;
    SortDesc(sorted, ParseEnvelopeDate);
    r := Success(sorted[..]);
  }

  datatype ReadError =
    | MessageMissing    // no `.eml` file for this id
    | NotAMessage       // the path holds something the sync never writes there

  /**
    `read_cached_message`: the cached body of message `id` with every CRLF pair replaced by LF.
    The rewrite is done on bytes; CR and LF are single bytes that never occur inside a longer
    UTF-8 sequence, so it agrees with rewriting the lossily decoded text.
  */
  function ReadCachedMessage(files: Files, account: string, folder: string, id: string): (r: Result<Bytes, ReadError>)
    ensures r.Success? <==> MessagePath(account, folder, id) in files && files[MessagePath(account, folder, id)].MessageBody?
    ensures r.Success? ==> WithoutCr(r.value) == WithoutCr(files[MessagePath(account, folder, id)].bytes)
    ensures r.Success? ==> |r.value| == |files[MessagePath(account, folder, id)].bytes| - CrlfCount(files[MessagePath(account, folder, id)].bytes)
  {
    var p := MessagePath(account, folder, id);
    if p !in files then Failure(MessageMissing)
    else match files[p]
      case MessageBody(bytes) =>
        ReplaceCrlfRemovesOnlyCr(bytes);
        ReplaceCrlfLength(bytes);
        Success(ReplaceCrlf(bytes))
      case _ => Failure(NotAMessage)
  }

  /** A body stored with CRLF line endings reads back as the LF-only text it was expanded from. */
  lemma ReadUndoesCrlf(files: Files, account: string, folder: string, id: string, text: Bytes)
    requires MessagePath(account, folder, id) in files
    requires files[MessagePath(account, folder, id)] == MessageBody(ExpandLf(text))
    ensures ReadCachedMessage(files, account, folder, id) == Success(text)
  {
    ReplaceCrlfInvertsExpandLf(text);
  }
}
