# himalaya-cache, modelled in Dafny

`himalaya-cache` keeps an on-disk cache of a mail store. The store itself is reached only
through the external `himalaya` program. The cache has a write side and a read side.

- **Write side (`sync`).** It asks the agent for the account list, each account's folder list
  and each folder's envelope list, and stores each list as a JSON file. For every envelope it
  stores a metadata file and, when the body is not cached yet, the message body the agent
  prints.
- **Read side.** It lists a folder's cached envelopes newest first and prints a cached message
  with its CRLF line endings turned into LF.
- **Agent calls** go through a three-attempt retry wrapper.
- **Command line.** A hand-written scanner reads the command-line flags. A dispatcher decides
  whether a command is handled internally or passed through to the agent.

The model is built on three abstractions:

- **The cache** is a map from paths (sequences of segments below the cache root) to contents.
  The contents are the record that was serialised, or the raw message bytes. Directories are
  implicit.
- **Writes can fail.** Each filesystem operation (creating the root, writing a file together
  with its parent directories) consumes an operation number. Operation `n` fails exactly when
  `n` is in the cache's `faulty` set.
- **The agent** is a scripted oracle: `script(n)` is what its `n`-th launch produces. The agent
  records the argument vector of every launch and counts its back-off sleeps.

Modules, one file each:

| file | module | what it holds |
|---|---|---|
| `wrappers.dfy` | `Wrappers` | `Option` and `Result` |
| `text.dfy` | `Text` | `str::trim` and the CRLF rewrite, with their properties |
| `records.dfy` | `Records` | the account, folder, contact and envelope records |
| `store.dfy` | `Store` | cache paths, contents and the `Cache` class (`write_json` / `write_bytes`) |
| `agent.dfy` | `Agent` | the retry loop as a function, the `Agent` class running it, argument vectors |
| `args.dfy` | `Args` | `parse_args`, `count_remaining_non_flags`, `try_run_internal` |
| `steps.dfy` | `Steps` | one envelope's step as a function of the cache, the fold over a folder, order independence |
| `sync.dfy` | `Sync` | `run_sync`, split into one method per level (envelope, folder, account, whole sync) |
| `dates.dfy` | `Dates` | `parse_envelope_date` on the fixed `YYYY-MM-DD HH:MM+hh:mm` pattern |
| `listing.dfy` | `Listing` | `list_cached_envelopes` (directory scan, in-place sort) and `read_cached_message` |

## How the model follows the code

- **Imperative code stays imperative.**
  - The argument scanner is a `while` loop over an index (`Args.ParseArgs`).
  - The retry loop is a method on the `Agent` class that updates the call log and sleep counter
    (`Agent.Agent.RunWithRetry`).
  - The sync is a set of nested loops that update the `Cache` and `Agent` objects and a
    `ProgressBar` object.
  - The listing collects records in a loop and then sorts them in place in an array.
- **Each method is proved against a pure function of the same behaviour**: `Args.ScanFrom`,
  `Agent.Retry`, `Steps.EnvelopeStep` / `Steps.Fold` and `Listing.RecordsOf` / `SortedDesc`.
  The properties the program promises are then proved as lemmas about those functions.
- **The environment decides every outcome.** Whether a write succeeds depends only on the
  operation number and `faulty`, and what a launch produces depends only on the launch number and
  the script. `Steps.World` records the files, the operations used and the launches made.
  - `Steps.EnvelopeOutcome` is what the environment gives one envelope in a world,
    `Steps.EnvelopeWarning` the warning it prints and `Steps.Advance` the world after it.
  - `Steps.FanOut` chains these over a folder's envelopes.
  - `Sync.FolderRun`, `Sync.FoldersFrom`, `Sync.AccountRun`, `Sync.AccountsFrom` and
    `Sync.SyncRun` chain them over the folders, the accounts and the whole sync. Each step starts
    in the world the one before left, and the first fatal error ends the chain.
  - Every sync method ensures that its new cache, operation count, launch count, fatal error,
    warnings and reports are exactly what the matching function gives for the old world. A method
    that skipped a write, made a call the function does not make, or dropped or added a warning
    breaks that equality.
  - What the program promises is proved about the functions: isolation of failures, skips that
    name a real fetch failure, every body cached unless a warning names it, and what is kept.
- **What the sync goes through.** A folder is gone through when it has a report or its envelope
  list could not be fetched (`Sync.FolderDone`). An account is gone through when its folder list
  could not be fetched, or when every folder of the list it wrote was gone through
  (`Sync.AccountDone`). The loops are proved to go through every folder and account in list
  order up to the first fatal failure.
- **Skips are isolated and truthful.** A failed envelope-list fetch skips only that folder
  (`Sync.EnvelopeListFailureSkipsFolder`), and a failed folder-list fetch skips only that account
  (`Sync.FolderListFailureSkipsAccount`, `Sync.SyncRunSkipsFailed`). Conversely, a folder-list
  warning of the whole sync names an account whose folder-list call failed with that error
  (`Sync.SyncRunSkipsOnlyFailed`).
- **The parallel fan-out over a folder's envelopes is a sequential loop.**
  `Steps.FoldOrderIndependent` proves that processing the envelopes in any order leaves the
  same cache, as long as each envelope keeps its own outcome.
- **Sort direction.** The doc comment of `list_cached_envelopes` (src/main.rs:347) says the
  envelopes are sorted by date ascending. The comparator at src/main.rs:371 sorts them
  descending, newest first, with undated envelopes last. The model follows the code.
- **Date parsing.** `Dates.ParseDate` models chrono's `%Y-%m-%d %H:%M%:z` as a strict
  fixed-width parse to minutes since the epoch. `Dates.FormatParses` proves that every valid
  date written in the pattern parses back to its own instant.

## Model

| member | source | states |
|---|---|---|
| Args.CountRemainingNonFlags | src/main.rs:288-293 | the count never exceeds the number of tokens from `start` on |
| Args.CountRemainingIsFilterLength | src/main.rs:288-293 | the count equals the length of the suffix filtered to tokens that do not start with `-` |
| Args.ParseArgs | src/main.rs:250-286 | the loop computes the scan function. Every key is a known dash flag whose value is the token right after one of its occurrences. The positionals are non-dash tokens of `args`, taken at strictly increasing positions |
| Args.PlainTokensArePositionals | src/main.rs:280-283 | with no dash token left, every remaining token is appended to the positionals in order and no flag is set |
| Args.AbsentKeyKeepsValue | src/main.rs:261-267 | a key that does not occur among the remaining tokens keeps its stored value, or stays absent |
| Args.KnownFlagTakesNextToken | src/main.rs:261-264 | a known flag followed by a token stores that token, unless the flag occurs again later |
| Args.LaterOccurrenceOverwrites | src/main.rs:261-264 | a flag repeated right after its value keeps the later value (a reached flag that does not occur again is the general case, `KnownFlagTakesNextToken`) |
| Args.NewKeysOccurBeforeLastToken | src/main.rs:261-267 | every key the scan adds occurs among the remaining tokens at a position before the last one |
| Args.TrailingFlagStoresNothing | src/main.rs:265-267 | a token that occurs only as the last one is never stored as a key |
| Args.FewTokensAllKept | src/main.rs:268-279 | when no known flag remains and at most `required_positionals` non-dash tokens remain, an unknown dash token never swallows a positional: the non-dash tokens become positionals in order and no flag is stored |
| Args.TryRunInternal | src/main.rs:166-184 | a recognised command consists of its command words followed by the rest of the arguments. The result is `None` (pass through) exactly when the arguments are empty or do not start with `sync`, `folder list`, `message read` or `envelope list` |
| Args.DispatchRecognisesEveryCommand | src/main.rs:166-184 | every internal command is recognised from its own words, whatever follows them |
| Text.Trim | src/main.rs:630 | the result is the slice of the input starting at its first non-whitespace character, everything cut off is whitespace, and both ends of the result are non-whitespace |
| Text.TrimIdempotent | src/main.rs:630 | trimming twice is trimming once |
| Text.ReplaceCrlfInvertsExpandLf | src/main.rs:338 | text whose line endings were written as CRLF reads back as the original LF text |
| Text.ReplaceCrlfRemovesOnlyCr | src/main.rs:338 | the rewrite removes only CR bytes: with every CR dropped, input and output are equal |
| Text.ReplaceCrlfLength | src/main.rs:338 | the output is shorter than the input by exactly the number of CRLF pairs |
| Text.ReplaceCrlfWithoutCrIsIdentity | src/main.rs:338 | text without CR is left unchanged |
| Text.ReplaceCrlfLeavesNoCrlf | src/main.rs:338 | a CRLF pair in the output can only come from CR CR LF in the input: an input without CR CR LF gives an output without CRLF |
| Store.EnvelopePathsDistinct | src/main.rs:490-494 | distinct ids never share a metadata path or a message path, and no metadata path is a message path |
| Store.Cache.CreateRoot | src/main.rs:392-394 | creating the cache root succeeds unless this operation is faulty, and it changes no file |
| Store.Cache.Write | src/main.rs:574-593 | a successful write replaces the file at the path as a whole; a failed write leaves the cache unchanged |
| Agent.RetryFrom | src/main.rs:608-632 | from attempt `k`, the loop ends after between `k` and 3 launches, at least one more if any remain, and sleeps once per launch except the last |
| Agent.RetryBounds | src/main.rs:610-624 | one to three launches, with exactly one sleep between consecutive launches |
| Agent.RetryReturnsFirstSuccess | src/main.rs:611-617 | after `k` unsuccessful exits, a successful exit returns its stdout after `k + 1` launches and `k` sleeps |
| Agent.RetryStopsOnLaunchError | src/main.rs:611-614 | a launch error returns at once as the error, with no further launch or sleep |
| Agent.RetryExhausted | src/main.rs:619-631 | three unsuccessful exits give an error carrying the trimmed stderr of the third, after exactly two sleeps |
| Agent.FetchJson | src/main.rs:596-599 | a failed run's error is passed on unchanged. A successful run whose stdout decodes gives exactly the decoded value, and one whose stdout does not decode gives a decode error |
| Agent.CallShapes | src/main.rs:399-424 | the account-list, folder-list, envelope-list and message-read argument vectors are told apart by their first words, and a message read names its account, folder and id |
| Agent.Agent.Invoke | src/main.rs:611-614 | one launch returns the next scripted outcome and appends its argument vector to the call log |
| Agent.Agent.RunWithRetry | src/main.rs:608-632 | the loop returns the retry function's result, launches exactly as many times as that function counts (logging `args` each time), and sleeps as often as it counts |
| Agent.Agent.RunJson | src/main.rs:596-599 | the result is `FetchJson` of the retried run, with the same launches and sleeps |
| Steps.EnvelopeStep | src/main.rs:489-547 | one envelope writes only its own metadata and message paths and keeps every cached body. A successful metadata write stores the envelope record; a failed one changes nothing |
| Steps.StepIsLocal | src/main.rs:489-547 | an envelope's effect on its own paths depends only on what the cache held at those paths |
| Steps.StepIdempotent | src/main.rs:513-544 | repeating an envelope's step with the same outcome changes nothing more: an existing body is never fetched again or overwritten |
| Steps.Fold | src/main.rs:489 | processing a folder's envelopes keeps every cached body and touches nothing outside that folder's metadata and message files |
| Steps.FoldAtUnowned | src/main.rs:489-547 | a path that no envelope owns is untouched by the fold |
| Steps.FoldAtOwned | src/main.rs:489-547 | an envelope's path holds after the fold what that envelope's step alone would leave, wherever the envelope stands in the list |
| Steps.FoldOrderIndependent | src/main.rs:489 | processing the same envelopes, each with its own outcome, in any order leaves the same cache |
| Steps.FoldCachesBodies | src/main.rs:513-544 | after a folder is processed, a body is cached exactly when it was cached before, or when its metadata write, fetch and body write all succeeded. A previously cached body is unchanged, and a newly cached body holds the fetched bytes |
| Steps.FoldWritesMetadata | src/main.rs:490-505 | an envelope whose metadata write succeeded has its record in its metadata file |
| Steps.EnvelopeOutcome | src/main.rs:495-544 | the metadata write succeeds exactly when its operation is not faulty. A body is fetched exactly when the metadata was written, no body was cached and the retried read of the next launches succeeds, and it is that run's stdout. Only a fetched body is written, and the write succeeds exactly when the next operation is not faulty |
| Steps.Advance | src/main.rs:489-547 | one envelope uses one or two filesystem operations, exactly one when it does not try to fetch its body. It launches the agent one to three times when it tries, and not at all otherwise |
| Steps.EnvelopeWarning | src/main.rs:495-541 | an envelope prints no warning exactly when its metadata was written and its body was cached before or was fetched and written. Any warning names this envelope, and a fetch warning carries the retried read's error |
| Steps.FanOut | src/main.rs:489-547 | the fan-out gives one item per envelope, in list order, each for its own envelope, and every warning it gives is a per-envelope warning about this folder |
| Steps.FanOutIsFold | src/main.rs:489-547 | when each envelope in turn gets what the environment gives it, the cache left by the fan-out is the fold of the steps with those outcomes |
| Steps.FanOutWork | src/main.rs:489-547 | the fan-out over `n` envelopes uses between `n` and `2n` filesystem operations and at most three launches per envelope |
| Steps.FanOutWarningFrom | src/main.rs:489-544 | every warning of the fan-out is the warning of some envelope of the list, in the world the envelopes before it left |
| Steps.FanOutWarningOf | src/main.rs:489-544 | every envelope whose step fails has its warning among the fan-out's warnings: a failure neither stops nor hides another |
| Steps.FanOutCachesBodies | src/main.rs:513-544 | an envelope of the list that no warning names has its message body in the cache the fan-out leaves |
| Sync.ProgressBar.Inc | src/main.rs:546 | the bar advances by exactly one |
| Sync.SyncEnvelope | src/main.rs:489-547 | the outcome, the new files, operation count and launch count, and the warning are exactly what the environment gives the envelope in the old world (`EnvelopeOutcome`, `Advance`, `EnvelopeWarning`). The bar advances by one on every path. The only call is a read of this envelope's missing message, made only when it fetches. There is no warning exactly when the metadata was written and the body was cached already or was fetched and written |
| Sync.SyncEnvelopes | src/main.rs:489-547 | the new world, the items and the warnings are exactly the fan-out `FanOut` from the old world: every envelope in list order gets the environment's outcome, and its warning, in the world the envelopes before it left. The cache is the fold of those steps, the bar advances by the envelope count, and the only calls are reads of bodies the cache lacked |
| Sync.FolderRunKeeps | src/main.rs:444-547 | syncing one folder keeps every cached body and changes no path outside the folder's own envelope list, metadata and message files, so no list file above it |
| Sync.FolderRunEnds | src/main.rs:444-549 | a fatal failure of one folder is its own envelope-list write and changes no file. Otherwise the folder is reported or skipped, and its report names it with the bar at the envelope count |
| Sync.FolderRunSkips | src/main.rs:457-464 | one folder warns that its envelope list could not be fetched exactly when the retried envelope-list call failed, and the warning names this account, this folder and that call's error |
| Sync.FolderRunCachesList | src/main.rs:466-472 | a folder whose envelope list was fetched and written still holds exactly that list after its envelopes are done |
| Sync.FolderRunCompletes | src/main.rs:444-547 | one folder's sync keeps true that every envelope on the cached list of a reported folder, named by no warning, has its body cached |
| Sync.SyncFolder | src/main.rs:444-549 | the new world, fatal error, warnings and report are exactly `FolderRun` of the old world: a failed envelope-list fetch (the decoded retried run) gives one skip warning and no write; a failed list write is fatal; otherwise the list is written and the fan-out runs over the fetched envelopes from there. Without a fatal error the folder is reported or skipped. Only this folder's paths change, bodies and list files are kept, and the calls are the envelope list and reads of missing bodies |
| Sync.FoldersFromKeeps | src/main.rs:444-550 | the folder loop only appends warnings and reports, keeps cached bodies, list files and paths outside the scope, and reports only folders of the scope with their bars complete |
| Sync.FoldersFromCoversAll | src/main.rs:444-550 | a folder loop that ends without a fatal error went through every folder from where it started |
| Sync.FoldersFromCoversUpTo | src/main.rs:444-550 | a fatal error ending the folder loop is the envelope-list write of some folder, and every folder before it was gone through |
| Sync.FoldersFromDone | src/main.rs:444-550 | the folder loop from the start went through every folder, or through every folder before the one whose envelope-list write failed |
| Sync.EnvelopeListFailureSkipsFolder | src/main.rs:457-464 | a failed envelope-list fetch adds its warning, writes nothing, and the loop goes on with the next folder from there |
| Sync.FoldersFromWarnings | src/main.rs:444-550 | the folder loop never warns that a folder list could not be fetched |
| Sync.FoldersFromCompletes | src/main.rs:444-550 | the folder loop keeps true that every listed body of a reported folder that no warning names is cached |
| Sync.SyncFolders | src/main.rs:444-550 | the new world, fatal error, warnings and reports are exactly the folder loop `FoldersFrom` over the names from the old world, which stops at the first fatal error. Without a fatal error every folder was reported or skipped. A fatal error is the envelope-list write of some folder `j`, and every folder before `j` was gone through. Paths outside the scope and all list files above folder level are unchanged, cached bodies are kept and every call is allowed by the scope |
| Sync.ListFolders | src/main.rs:416-440 | a failed folder-list fetch skips the account with a warning and no change. A failed write of `folders/<account>.json` is fatal with no change. Otherwise the list file is written and the folder names are returned in list order. The only calls are folder-list calls for this account |
| Sync.AccountNames | src/main.rs:396-411 | the run is exactly `AccountListRun` from the old world: a named account needs no call and no write; otherwise a failed account-list fetch or a failed `accounts.json` write is fatal with no change, and otherwise `accounts.json` holds the list. On success the names are the named account or the fetched accounts in list order. The only calls are account-list calls |
| Sync.AccountRunKeeps | src/main.rs:413-551 | syncing one account keeps cached bodies, paths outside the scope, `accounts.json` and every other account's folder list, and every report completed a folder of the scope |
| Sync.AccountRunEnds | src/main.rs:413-551 | with no folder named, a failed folder-list fetch gives exactly one warning and no change, a failed list write is fatal with no change, and otherwise `folders/<account>.json` holds the list and, unless a fatal error follows, every listed folder was gone through. With a folder named and no fatal error, that folder was gone through. A fatal error is this account's folder-list or envelope-list write |
| Sync.AccountRunSkips | src/main.rs:425-432 | one account warns that its folder list could not be fetched exactly when no folder is named and the retried folder-list call failed, with that call's error |
| Sync.AccountRunCompletes | src/main.rs:413-551 | one account's sync keeps true that every listed body of a reported folder that no warning names is cached |
| Sync.SyncAccount | src/main.rs:413-551 | the new world, fatal error, warnings and reports are exactly `AccountRun` of the old world. With no folder named, a failed folder-list fetch skips the account with exactly one warning and no change, and a failed folder-list write is fatal with no change. Otherwise `folders/<account>.json` holds the list and, without a fatal error, every listed folder was gone through. With a folder named and no fatal error, that folder was gone through. A fatal error is this account's folder-list or envelope-list write. Paths outside the scope, `accounts.json` and other accounts' folder lists are unchanged, bodies are kept and calls are allowed |
| Sync.AccountsFromKeeps | src/main.rs:413-551 | the account loop keeps cached bodies, paths outside the scope and `accounts.json`, and reports only completed folders of the scope |
| Sync.AccountsFromCoversAll | src/main.rs:413-551 | an account loop that ends without a fatal error went through every account |
| Sync.AccountsFromCoversUpTo | src/main.rs:413-551 | a fatal error ending the account loop is a folder-list or envelope-list write of some account, and every earlier account of another name was gone through |
| Sync.AccountsFromDone | src/main.rs:413-551 | the account loop from a run without a fatal error went through every account, or ended at a list write of some account after going through every earlier account of another name |
| Sync.FolderListFailureSkipsAccount | src/main.rs:425-432 | a failed folder-list fetch adds its warning, writes nothing, and the loop goes on with the next account from there |
| Sync.AccountsFromSkipsOnlyFailed | src/main.rs:425-432 | a folder-list warning of the account loop names an account the loop reached, with no folder named, whose folder-list call at that point failed with that error |
| Sync.AccountsFromSkipsFailed | src/main.rs:425-432 | every account the loop reached whose folder-list call failed is warned about with that error |
| Sync.AccountsFromCompletes | src/main.rs:413-551 | the account loop keeps true that every listed body of a reported folder that no warning names is cached |
| Sync.SyncAccounts | src/main.rs:413-551 | the new world, fatal error, warnings and reports are exactly the account loop `AccountsFrom` over the names from the old world, which stops at the first fatal error (its coverage is `AccountsFromDone`). A fatal error is a folder-list or envelope-list write. Paths outside the scope and `accounts.json` are unchanged, bodies are kept, calls are allowed and every report completed a folder of the scope |
| Sync.SyncRunReaches | src/main.rs:387-413 | a sync that gets past the scope check, the cache root and the account listing is the account loop over the accounts in scope; one that does not ends fatally with no warning and no report |
| Sync.SyncRunSkipsOnlyFailed | src/main.rs:425-432 | a folder-list warning of the whole sync means the sync reached its account loop with no folder named, and names an account in scope whose folder-list call, when the loop reached it, failed with that error |
| Sync.SyncRunSkipsFailed | src/main.rs:425-432 | an account in scope whose folder-list call fails is warned about with that error, gets no write, and the sync goes on with the next account from there |
| Sync.SyncRunCachesBodies | src/main.rs:387-553 | however the sync ends, every envelope on the cached list of a reported folder that no warning names has its message body in the cache |
| Sync.SyncRunEnds | src/main.rs:387-553 | without a fatal error every account in scope was gone through and, with no account named, `accounts.json` holds the fetched list. A folder-list or envelope-list write failure names an account in scope, after every earlier account of another name was gone through |
| Sync.SyncRunKeeps | src/main.rs:387-553 | the whole sync keeps cached bodies and paths outside the scope, and every report is a completed folder of the scope |
| Sync.RunSync | src/main.rs:387-553 | the new world, warnings and reports are exactly `SyncRun` of the old world, and the result fails exactly when that run has a fatal error, with that error. `--folder` without `--account` fails before any call or write. A failed cache-root creation is fatal with no change. With no account named, a failed account-list fetch or write is fatal with no change, and success means `accounts.json` holds the list. Success means the named account, or every account of the fetched list, was gone through. A folder-list or envelope-list write failure ended at some account of the list, after every earlier account of another name. Every listed body of a reported folder that no warning names is cached. Cached bodies are never changed, paths outside the scope are unchanged, every call is allowed by the scope, and every folder report has its bar at the envelope count |
| Sync.ScopedCalls | src/main.rs:396-415 | a sync naming an account never calls for the account list; one naming a folder never calls for a folder list; every message read is for a folder in scope and a body the cache lacked |
| Sync.ScopedSyncKeepsLists | src/main.rs:396-415 | a sync naming an account leaves `accounts.json` alone; one naming a folder also leaves every folder list alone |
| Sync.ReportedMeans | src/main.rs:444-549 | a folder counts as reported exactly when some report names its account and folder |
| Sync.FolderSkippedMeans | src/main.rs:457-464 | a folder counts as skipped exactly when some warning says its envelope list could not be fetched |
| Sync.AccountSkippedMeans | src/main.rs:425-432 | an account counts as skipped exactly when some warning says its folder list could not be fetched |
| Sync.FoldersDoneMeans | src/main.rs:444-550 | a folder list was gone through exactly when each of its folders was reported or skipped |
| Sync.AccountsDoneStep | src/main.rs:413-551 | after one more account, the accounts gone through before stay gone through (unless the new one has the same name and rewrote their folder list), and the list grows by one when the new account was gone through |
| Dates.FormatParses | src/main.rs:379-384 | every valid date-time written in the pattern parses to its fields and to its own instant |
| Dates.ParseDate | src/main.rs:383 | a text parses exactly when it splits into the pattern's fields and those fields form a valid date, time and offset; the result is then that date-time's instant in minutes since the epoch |
| Dates.ParseEnvelopeDate | src/main.rs:379-384 | an envelope without a date has no parsed date, and one with a date has exactly the parse of its text |
| Dates.ParsedTextHasPatternLength | src/main.rs:383 | only text of the pattern's exact length, with its space and offset sign in place, can parse |
| Dates.JanuaryInstant | src/main.rs:383 | 2024-01-01 10:00 UTC is minute 28401720 of the epoch |
| Dates.MarchInstant | src/main.rs:383 | 2024-03-05 09:00 UTC, after the leap day, is minute 28493820 |
| Dates.EastOffsetInstant | src/main.rs:383 | 10:00 at offset +02:00 is two hours earlier than 10:00 UTC |
| Dates.JanuaryText | src/main.rs:383 | the January example is written `2024-01-01 10:00+00:00` |
| Dates.MarchText | src/main.rs:383 | the March example is written `2024-03-05 09:00+00:00` |
| Dates.EastOffsetText | src/main.rs:383 | the offset example is written `2024-01-01 10:00+02:00` |
| Dates.NextDayIsOneLater | src/main.rs:379-384 | the next day of the same month is one day later in the epoch count |
| Dates.MarchYearLength | src/main.rs:379-384 | the year from March 1 to the next March 1 has 366 days exactly when the later year is a leap year, and 365 otherwise |
| Dates.NextMonthIsOneLater | src/main.rs:379-384 | the first of the next month is one day after the last day of this month, February included |
| Dates.NextYearIsOneLater | src/main.rs:379-384 | January 1 is one day after the December 31 before it |
| Listing.Extension | src/main.rs:359 | an extension is the dot-free text after a dot that is not the first character of the name, and there is one exactly when the name is not `..` and has a dot after its first character |
| Listing.JsonNameHasJsonExtension | src/main.rs:359 | every metadata file name the sync writes (`<id>.json` with a non-empty id) has extension `json` |
| Listing.InsertAt | src/main.rs:368-372 | inserting one element keeps the prefix sorted newest first, keeps the same elements, and leaves the rest of the array alone |
| Listing.SortDesc | src/main.rs:368-372 | the array ends sorted by parsed date, newest first with undated last, and is a permutation of what it held |
| Listing.UndatedLast | src/main.rs:368-384 | in the sorted listing, an envelope without a parseable date comes after every dated one |
| Listing.SortedThree | src/main.rs:368-372 | three elements with a larger rank, a smaller rank and no rank have exactly one sorted arrangement |
| Listing.ListingOrderExample | src/main.rs:368-384 | two envelopes with dates in the pattern and one without a date come out newer, older, undated, whatever order they were read in |
| Listing.WorkedListingOrder | src/main.rs:368-384 | envelopes dated `2024-01-01 10:00+00:00` and `2024-03-05 09:00+00:00` and one without a date are listed March, January, undated, whatever order they were read in |
| Listing.ReadEntries | src/main.rs:355-366 | the scan succeeds exactly when every entry is skipped or holds an envelope. A failure names an entry that cannot be read or parsed. Success visits every entry once, in some order, and collects the records in that order |
| Listing.ListCachedEnvelopes | src/main.rs:348-377 | a missing metadata directory is an error. Otherwise the result is the scan's outcome; on success it is a permutation of the collected records, sorted newest first with undated last |
| Listing.ReadCachedMessage | src/main.rs:329-345 | the read succeeds exactly when a message body is cached at the id's path. With every CR dropped, the result and the body agree, and the result is shorter than the body by the number of CRLF pairs |
| Listing.ReadUndoesCrlf | src/main.rs:338 | a body stored with CRLF line endings reads back as its LF-only text |

## Left out

- Command-line parsing through clap (`Cli::parse`, the derive structs and `run_folder` / `run_message` / `run_envelope`) is library behaviour and is not modelled.
- The `parse_and_run_*` glue that turns scanned flags into command arguments is not modelled, and neither is `list_cached_folders`, which prints a file.
- Process spawning is replaced by the scripted agent:
  - the passthrough `run_himalaya_passthrough` is not modelled;
  - an argument vector is logged, not executed.
- The home-directory lookups `cache_dir` and `himalaya_path` are not modelled: the cache root is fixed.
- Agent.Agent.RunWithRetry: does not model a failure of `himalaya_path` inside the loop, which would end the loop with that error.
- The `rayon` parallelism is a sequential loop. `Steps.FoldOrderIndependent` permutes the steps with each envelope's outcome fixed. It does not model that another order hands the agent's launches, and so the scripted answers, to different envelopes, nor interleavings inside one step.
- Progress-bar styling and rendering are left out; only the position counter is kept. The constant template's `?` can never fail and is not modelled.
- The 2.5-second back-off is not modelled; only the number of sleeps is counted.
- JSON is not modelled:
  - encoding is taken to be lossless, so a JSON file holds its record;
  - decoding is an opaque function per list type that may fail;
  - the JSON escaping of the printed message and the pretty-printed listing output are left out.
- `String::from_utf8_lossy` is left out. The CRLF rewrite runs on bytes, which agrees with rewriting the decoded text because CR and LF never occur inside a longer UTF-8 sequence.
- Dates.ParseDate: accepts only the strict 22-character zero-padded form. chrono's more lenient forms (fewer digits in a field, for example) are read as unparseable. Seconds and leap seconds do not occur in the pattern.
- Directories exist only through the files under them, so an empty metadata directory reads as missing.
- Directory-entry I/O errors from `read_dir` are not modelled. Neither are path separators or `..` inside account, folder or id names.
- `write_json` and `write_bytes` create the parent directories and then write. Both steps are one operation that fails or succeeds as a whole.
- Stale metadata files of envelopes no longer listed are not removed, as in the code; the model states nothing about them.
- Listing.SortDesc: does not state stability (`sort_by` keeps envelopes of equal date in directory order). Only sortedness and permutation are proved.
- Sync.SyncAccounts: states its outcome as the account loop `AccountsFrom`. That the loop went through every account, or every earlier one before a fatal error, is proved about that function (`Sync.AccountsFromDone`) and stated for the whole sync by `Sync.RunSync`, not repeated in this method's own contract. An account whose name repeats an earlier one may rewrite that account's folder list; the coverage then says nothing more about the earlier occurrence.
- Warnings printed with `eprintln!` become returned values; their text is not modelled.
