/**
  The hand-written argument scanner (`parse_args`, `count_remaining_non_flags`) and the
  dispatcher that picks an internal command or falls through to the external agent
  (`try_run_internal`).
*/
module Args {
  import opened Wrappers

  predicate StartsWithDash(token: string) {
    |token| > 0 && token[0] == '-'
  }

  /** The tokens of `s` that do not start with a dash, in their original order. */
  function NonFlags(s: seq<string>): (r: seq<string>)
    ensures |r| <= |s|
    ensures forall t :: t in r ==> t in s && !StartsWithDash(t)
  {
    if s == [] then []
    else (if StartsWithDash(s[0]) then [] else [s[0]]) + NonFlags(s[1..])
  }

  /** `count_remaining_non_flags`: how many tokens from `start` on do not start with a dash. */
  function CountRemainingNonFlags(args: seq<string>, start: nat): (n: nat)
    ensures n <= if start <= |args| then |args| - start else 0
    decreases |args| - start
  {
    if start >= |args| then 0
    else (if StartsWithDash(args[start]) then 0 else 1) + CountRemainingNonFlags(args, start + 1)
  }

  /** The count is the length of the filtered suffix. */
  lemma {:induction false} CountRemainingIsFilterLength(args: seq<string>, start: nat)
    requires start <= |args|
    ensures CountRemainingNonFlags(args, start) == |NonFlags(args[start..])|
    decreases |args| - start
  {
    if start < |args| {
      CountRemainingIsFilterLength(args, start + 1);
      assert args[start..][1..] == args[start + 1..];
    }
  }

  datatype Parsed = Parsed(flags: map<string, string>, positionals: seq<string>)

  /**
    The scanner's loop as a function of the current index and what has been collected so far.
    A known flag takes the next token as its value; a lone known flag at the end stores nothing;
    an unknown dash token also skips the following non-dash token, but only when more than
    `required` non-dash tokens remain after it; any other token is a positional.
  */
  function ScanFrom(args: seq<string>, known: seq<string>, required: nat, index: nat, acc: Parsed): Parsed
    decreases |args| - index
  {
    if index >= |args| then acc
    else
      var token := args[index];
      if StartsWithDash(token) then
        if token in known then
          if index + 1 < |args| then
            ScanFrom(args, known, required, index + 2, acc.(flags := acc.flags[token := args[index + 1]]))
          else
            ScanFrom(args, known, required, index + 1, acc)
        else if CountRemainingNonFlags(args, index + 1) > required
                && index + 1 < |args| && !StartsWithDash(args[index + 1]) then
          ScanFrom(args, known, required, index + 2, acc)
        else
          ScanFrom(args, known, required, index + 1, acc)
      else
        ScanFrom(args, known, required, index + 1, acc.(positionals := acc.positionals + [token]))
  }

  function Scan(args: seq<string>, known: seq<string>, required: nat): Parsed {
    ScanFrom(args, known, required, 0, Parsed(map[], []))
  }

  /**
    `parse_args`. Besides computing `Scan`, the result keeps the scanner's promises: every key is
    a known flag whose value is the token that followed one of its occurrences, and the
    positionals are non-dash tokens taken from `args` at increasing positions (`at`).
  */
  method ParseArgs(args: seq<string>, known: seq<string>, required: nat)
    returns (flags: map<string, string>, positionals: seq<string>, ghost at: seq<nat>)
    ensures Parsed(flags, positionals) == Scan(args, known, required)
    ensures forall k :: k in flags ==> k in known && StartsWithDash(k)
    ensures forall k :: k in flags ==>
      exists j :: 0 <= j < |args| - 1 && args[j] == k && args[j + 1] == flags[k]
    ensures |at| == |positionals|
    ensures forall n :: 0 <= n < |at| ==> at[n] < |args| && positionals[n] == args[at[n]]
    ensures forall n, m :: 0 <= n < m < |at| ==> at[n] < at[m]
    ensures forall p :: p in positionals ==> !StartsWithDash(p)
  {
    flags := map[];
    positionals := [];
    at := [];
    var index := 0;
    while index < |args|
      invariant index <= |args|
      invariant ScanFrom(args, known, required, index, Parsed(flags, positionals)) == Scan(args, known, required)
      invariant forall k :: k in flags ==> k in known && StartsWithDash(k)
      invariant forall k :: k in flags ==>
        exists j :: 0 <= j < |args| - 1 && args[j] == k && args[j + 1] == flags[k]
      invariant |at| == |positionals|
      invariant forall n :: 0 <= n < |at| ==> at[n] < index && positionals[n] == args[at[n]]
      invariant forall n, m :: 0 <= n < m < |at| ==> at[n] < at[m]
      invariant forall p :: p in positionals ==> !StartsWithDash(p)
      decreases |args| - index
    {
      var token := args[index];
      if StartsWithDash(token) {
        if token in known {
          if index + 1 < |args| {
            flags := flags[token := args[index + 1]];
            index := index + 2;
          } else {
            index := index + 1;
          }
        } else {
          var remainingNonFlags := CountRemainingNonFlags(args, index + 1);
          if remainingNonFlags > required && index + 1 < |args| && !StartsWithDash(args[index + 1]) {
            index := index + 2;
            continue;
          }
          index := index + 1;
        }
      } else {
        positionals := positionals + [token];
        at := at + [index];
        index := index + 1;
      }
    }
  }

  /** Without any dash token, every token is a positional and no flag is set. */
  lemma {:induction false} PlainTokensArePositionals(args: seq<string>, known: seq<string>, required: nat, index: nat, acc: Parsed)
    requires index <= |args|
    requires forall j :: index <= j < |args| ==> !StartsWithDash(args[j])
    ensures ScanFrom(args, known, required, index, acc) == Parsed(acc.flags, acc.positionals + args[index..])
    decreases |args| - index
  {
    if index < |args| {
      PlainTokensArePositionals(args, known, required, index + 1, acc.(positionals := acc.positionals + [args[index]]));
      assert [args[index]] + args[index + 1..] == args[index..];
    }
  }

  /** A key that no longer occurs among the remaining tokens keeps whatever value it had. */
  lemma {:induction false} AbsentKeyKeepsValue(args: seq<string>, known: seq<string>, required: nat, index: nat, acc: Parsed, key: string)
    requires forall j :: index <= j < |args| ==> args[j] != key
    ensures var r := ScanFrom(args, known, required, index, acc);
      (key in r.flags <==> key in acc.flags) && (key in acc.flags ==> r.flags[key] == acc.flags[key])
    decreases |args| - index
  {
    if index < |args| {
      var token := args[index];
      if StartsWithDash(token) && token in known && index + 1 < |args| {
        AbsentKeyKeepsValue(args, known, required, index + 2, acc.(flags := acc.flags[token := args[index + 1]]), key);
      } else if StartsWithDash(token) && token !in known && CountRemainingNonFlags(args, index + 1) > required
                && index + 1 < |args| && !StartsWithDash(args[index + 1]) {
        AbsentKeyKeepsValue(args, known, required, index + 2, acc, key);
      } else if StartsWithDash(token) {
        AbsentKeyKeepsValue(args, known, required, index + 1, acc, key);
      } else {
        AbsentKeyKeepsValue(args, known, required, index + 1, acc.(positionals := acc.positionals + [token]), key);
      }
    }
  }

  /** A known flag reached by the scan stores the token after it, when it does not occur again. */
  lemma KnownFlagTakesNextToken(args: seq<string>, known: seq<string>, required: nat, index: nat, acc: Parsed)
    requires index + 1 < |args| && StartsWithDash(args[index]) && args[index] in known
    requires forall j :: index + 2 <= j < |args| ==> args[j] != args[index]
    ensures var r := ScanFrom(args, known, required, index, acc);
      args[index] in r.flags && r.flags[args[index]] == args[index + 1]
  {
    var key := args[index];
    AbsentKeyKeepsValue(args, known, required, index + 2, acc.(flags := acc.flags[key := args[index + 1]]), key);
  }

  /** Of two occurrences of a known flag, the later one's value is the one kept. */
  lemma LaterOccurrenceOverwrites(args: seq<string>, known: seq<string>, required: nat, index: nat, acc: Parsed)
    requires index + 3 < |args| && StartsWithDash(args[index]) && args[index] in known
    requires args[index + 2] == args[index]
    requires forall j :: index + 4 <= j < |args| ==> args[j] != args[index]
    ensures var r := ScanFrom(args, known, required, index, acc);
      args[index] in r.flags && r.flags[args[index]] == args[index + 3]
  {
    var key := args[index];
    var acc' := acc.(flags := acc.flags[key := args[index + 1]]);
    assert ScanFrom(args, known, required, index, acc) == ScanFrom(args, known, required, index + 2, acc');
    KnownFlagTakesNextToken(args, known, required, index + 2, acc');
  }

  /** Every key the scan adds is a flag that occurs before the last token. */
  lemma {:induction false} NewKeysOccurBeforeLastToken(args: seq<string>, known: seq<string>, required: nat, index: nat, acc: Parsed, key: string)
    requires key in ScanFrom(args, known, required, index, acc).flags && key !in acc.flags
    ensures exists j :: index <= j < |args| - 1 && args[j] == key
    decreases |args| - index
  {
    if index < |args| {
      var token := args[index];
      if StartsWithDash(token) && token in known && index + 1 < |args| {
        if key != token {
          NewKeysOccurBeforeLastToken(args, known, required, index + 2, acc.(flags := acc.flags[token := args[index + 1]]), key);
        }
      } else if StartsWithDash(token) && token !in known && CountRemainingNonFlags(args, index + 1) > required
                && index + 1 < |args| && !StartsWithDash(args[index + 1]) {
        NewKeysOccurBeforeLastToken(args, known, required, index + 2, acc, key);
      } else if StartsWithDash(token) {
        NewKeysOccurBeforeLastToken(args, known, required, index + 1, acc, key);
      } else {
        NewKeysOccurBeforeLastToken(args, known, required, index + 1, acc.(positionals := acc.positionals + [token]), key);
      }
    }
  }

  /** A known flag that appears only as the very last token stores nothing. */
  lemma TrailingFlagStoresNothing(args: seq<string>, known: seq<string>, required: nat)
    requires |args| > 0
    requires forall j :: 0 <= j < |args| - 1 ==> args[j] != args[|args| - 1]
    ensures args[|args| - 1] !in Scan(args, known, required).flags
  {
    var key := args[|args| - 1];
    if key in Scan(args, known, required).flags {
      NewKeysOccurBeforeLastToken(args, known, required, 0, Parsed(map[], []), key);
    }
  }

  /**
    The skip heuristic never eats a positional the command needs: with no known flag present
    and at most `required` non-dash tokens left, every non-dash token becomes a positional.
  */
  lemma {:induction false} FewTokensAllKept(args: seq<string>, known: seq<string>, required: nat, index: nat, acc: Parsed)
    requires index <= |args|
    requires forall j :: index <= j < |args| ==> args[j] !in known
    requires CountRemainingNonFlags(args, index) <= required
    ensures ScanFrom(args, known, required, index, acc) == Parsed(acc.flags, acc.positionals + NonFlags(args[index..]))
    decreases |args| - index
  {
    if index < |args| {
      var token := args[index];
      assert args[index..][1..] == args[index + 1..];
      if StartsWithDash(token) {
        FewTokensAllKept(args, known, required, index + 1, acc);
      } else {
        FewTokensAllKept(args, known, required, index + 1, acc.(positionals := acc.positionals + [token]));
      }
    }
  }

  /** The internal commands `try_run_internal` recognises, each with the tokens after its name. */
  datatype Internal =
    | Sync(rest: seq<string>)
    | FolderList(rest: seq<string>)
    | MessageRead(rest: seq<string>)
    | EnvelopeList(rest: seq<string>)

  /** The words that name a command on the command line. */
  function CommandWords(c: Internal): seq<string> {
    match c
    case Sync(_) => ["sync"]
    case FolderList(_) => ["folder", "list"]
    case MessageRead(_) => ["message", "read"]
    case EnvelopeList(_) => ["envelope", "list"]
  }

  /**
    `try_run_internal`: the command named by the first tokens, or `None` when the arguments must
    be passed through to the external agent unchanged.
  */
  function TryRunInternal(args: seq<string>): (r: Option<Internal>)
    ensures r.Some? ==> CommandWords(r.value) + r.value.rest == args
    ensures r.None? <==>
      args == [] || (args[0] != "sync" &&
        !(|args| >= 2 && [args[0], args[1]] in {["folder", "list"], ["message", "read"], ["envelope", "list"]}))
  {
    if args == [] then None
    else match args[0]
      case "sync" => Some(Sync(args[1..]))
      case "folder" => if |args| >= 2 && args[1] == "list" then Some(FolderList(args[2..])) else None
      case "message" => if |args| >= 2 && args[1] == "read" then Some(MessageRead(args[2..])) else None
      case "envelope" => if |args| >= 2 && args[1] == "list" then Some(EnvelopeList(args[2..])) else None
      case _ => None
  }

  /** Every internal command is recognised from its own words, whatever follows them. */
  lemma DispatchRecognisesEveryCommand(c: Internal)
    ensures TryRunInternal(CommandWords(c) + c.rest) == Some(c)
  {
    var args := CommandWords(c) + c.rest;
    assert args[0] == CommandWords(c)[0];
    assert |CommandWords(c)| == 2 ==> args[1] == CommandWords(c)[1];
    assert args[|CommandWords(c)|..] == c.rest;
  }
}
