/**
  The on-disk cache: a map from paths (sequences of segments below the cache root) to file
  contents, with `write_json`/`write_bytes` as map updates that may fail.
*/
module Store {
  import opened Text
  import opened Records

  type Path = seq<string>

  /**
    What a cache file holds. JSON files hold the record they were serialised from (serialisation
    is taken to be lossless); message files hold the raw bytes the agent printed.
  */
  datatype Content =
    | AccountList(accounts: seq<Account>)
    | FolderList(folders: seq<Folder>)
    | EnvelopeList(envelopes: seq<Envelope>)
    | EnvelopeRecord(envelope: Envelope)
    | MessageBody(bytes: Bytes)

  type Files = map<Path, Content>

  function AccountsPath(): Path { ["accounts.json"] }
  function FoldersPath(account: string): Path { ["folders", account + ".json"] }
  function EnvelopesPath(account: string, folder: string): Path { ["envelopes", account, folder + ".json"] }
  function MetaDir(account: string, folder: string): Path { ["meta", account, folder] }
  function MetaPath(account: string, folder: string, id: string): Path { MetaDir(account, folder) + [id + ".json"] }
  function MessagePath(account: string, folder: string, id: string): Path { ["messages", account, folder, id + ".eml"] }

  predicate IsMessagePath(p: Path) { |p| == 4 && p[0] == "messages" }

  /** The paths one folder's envelopes write: its metadata files and its message bodies. */
  predicate InFolder(account: string, folder: string, p: Path) {
    |p| == 4 && (p[0] == "meta" || p[0] == "messages") && p[1] == account && p[2] == folder
  }

  lemma SuffixCancels(x: string, y: string, suffix: string)
    requires x + suffix == y + suffix
    ensures x == y
  {
    assert |x| == |y|;
    assert x == (x + suffix)[..|x|];
    assert y == (y + suffix)[..|y|];
  }

  /** Distinct ids never share a metadata or message path, and no metadata path is a message path. */
  lemma EnvelopePathsDistinct(account: string, folder: string, id1: string, id2: string)
    ensures MetaPath(account, folder, id1) != MessagePath(account, folder, id2)
    ensures MetaPath(account, folder, id1) == MetaPath(account, folder, id2) ==> id1 == id2
    ensures MessagePath(account, folder, id1) == MessagePath(account, folder, id2) ==> id1 == id2
  {
    assert MetaPath(account, folder, id1)[0] != MessagePath(account, folder, id2)[0];
    if MetaPath(account, folder, id1) == MetaPath(account, folder, id2) {
      assert MetaPath(account, folder, id1)[3] == MetaPath(account, folder, id2)[3];
      SuffixCancels(id1, id2, ".json");
    }
    if MessagePath(account, folder, id1) == MessagePath(account, folder, id2) {
      assert MessagePath(account, folder, id1)[3] == MessagePath(account, folder, id2)[3];
      SuffixCancels(id1, id2, ".eml");
    }
  }

  /** Distinct folders have distinct envelope-list files. */
  lemma EnvelopesPathsDistinct(account1: string, folder1: string, account2: string, folder2: string)
    ensures EnvelopesPath(account1, folder1) == EnvelopesPath(account2, folder2) ==> account1 == account2 && folder1 == folder2
  {
    if EnvelopesPath(account1, folder1) == EnvelopesPath(account2, folder2) {
      assert EnvelopesPath(account1, folder1)[1] == EnvelopesPath(account2, folder2)[1];
      assert EnvelopesPath(account1, folder1)[2] == EnvelopesPath(account2, folder2)[2];
      SuffixCancels(folder1, folder2, ".json");
    }
  }

  /** `p` holds the same thing (or nothing) in both maps. */
  ghost predicate SameAt(before: Files, after: Files, p: Path) {
    (p in before <==> p in after) && (p in before ==> before[p] == after[p])
  }

  /** Every message body present before is still present, byte for byte. */
  ghost predicate BodiesKept(before: Files, after: Files) {
    forall p | p in before && IsMessagePath(p) :: p in after && after[p] == before[p]
  }

  lemma BodiesKeptChain(f0: Files, f1: Files, f2: Files)
    requires BodiesKept(f0, f1) && BodiesKept(f1, f2)
    ensures BodiesKept(f0, f2)
  {
  }

  /** Writing a file that is not a message body keeps every body. */
  lemma OtherWriteKeepsBodies(files: Files, p: Path, content: Content)
    requires !IsMessagePath(p)
    ensures BodiesKept(files, files[p := content])
  {
  }

  /** The list files written above the folder level: `accounts.json` and every `folders/<a>.json`. */
  ghost predicate ListsKept(before: Files, after: Files) {
    SameAt(before, after, AccountsPath()) && forall a :: SameAt(before, after, FoldersPath(a))
  }

  lemma ListsKeptChain(f0: Files, f1: Files, f2: Files)
    requires ListsKept(f0, f1) && ListsKept(f1, f2)
    ensures ListsKept(f0, f2)
  {
    forall a ensures SameAt(f0, f2, FoldersPath(a)) {
      assert SameAt(f0, f1, FoldersPath(a)) && SameAt(f1, f2, FoldersPath(a));
    }
  }

  /**
    The cache store. Every mutating filesystem operation (creating the root directory, writing
    a file with its parent directories) consumes one operation number; operation `n` fails
    exactly when `n` is in `faulty`, which stands for whatever the real filesystem decides.
  */
  class Cache {
    var files: Files
    var ops: nat
    const faulty: set<nat>

    constructor (files: Files, faulty: set<nat>)
      ensures this.files == files && ops == 0 && this.faulty == faulty
    {
      this.files := files;
      this.ops := 0;
      this.faulty := faulty;
    }

    /** `Path::exists` on a cache file. */
    predicate Exists(p: Path)
      reads this
    {
      p in files
    }

    /** `fs::create_dir_all` on the cache root: directories are implicit, so only the outcome matters. */
    method CreateRoot() returns (ok: bool)
      modifies this
      ensures ok == (old(ops) !in faulty)
      ensures ops == old(ops) + 1 && files == old(files)
    {
      ok := ops !in faulty;
      ops := ops + 1;
    }

    /**
      `write_json` / `write_bytes`: on success the file is replaced as a whole; a failed write
      leaves the map as it was.
    */
    method Write(p: Path, content: Content) returns (ok: bool)
      modifies this
      ensures ok == (old(ops) !in faulty)
      ensures ops == old(ops) + 1
      ensures files == if ok then old(files)[p := content] else old(files)
    {
      ok := ops !in faulty;
      if ok {
        files := files[p := content];
      }
      ops := ops + 1;
    }
  }
}
