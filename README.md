# AspireSync plugin sync core, in Dafny

A model of two parts of the AspireSync plugin mirror, with proofs about them.

**PluginListService** chooses the plugins a sync action should (re-)import:
- It keeps a revision ledger per action, loaded from the `revisions` table.
- An action that is new to the ledger gets the whole plugins.svn.wordpress.org listing (a *cold pull*), reduced to the requested slugs.
- An action the ledger knows asks svn for the log since its recorded revision (a *warm diff*) and scans that log.
- The service also reads the HEAD revision, reads a plugin's versions from its API metadata, merges candidate maps, and writes the saved plugin list and the ledger row.

**PluginsImportMetaCommand** imports the saved metadata files into the `plugins` and `plugin_files` tables, one transaction per file:
- a file whose slug is already stored is skipped;
- a record with `error` = "closed" becomes one closed plugin row;
- any other error is rolled back;
- an open record becomes a plugin row plus one file row per version.

The files:
- `text.dfy`: the recognisers behind the regular expressions (greedy character runs), decimal digits and `explode("\n")` with its round trip.
- `php.dfy`: the PHP value semantics the code relies on: a missing key reads as null, `isset`, `empty`, `unset`, array-key normalisation, and the `(int)` cast of a digit string (exact within 64 bits, capped at PHP_INT_MAX above, 0 once the value overflows a double).
- `svn_log.dfy`: the two log-line patterns, the parse loop, and the HEAD revision.
- `plugin_list.dfy`: the service.
- `database.dfy`: an in-memory stand-in for the database connection, with transactions.
- `import_meta.dfy`: the import command.

Remote calls and files are replaced by the values they would produce:
- HTTP responses (`HttpResult`);
- svn output or its error text (`Result<string>`);
- cache files with their modification time (`CacheFile`);
- the clock (`now`);
- the decoded JSON of the metadata files (`RawFile.contents`);
- and which statements the database refuses (`Connection.rejects`).

The model follows the code as written, including where it behaves in ways its names or neighbouring code would not suggest:
- The warm diff ends at `var_dump(...); die;` (`PluginListService.php:251`), so it never returns a list. The model records the query sent and what the parse loop read (`ListOutcome.Halted`), and the filter is never applied on that path.
- `getVersionsForPlugin` drops a `trunk` entry (`PluginListService.php:134-136`), but the import loop keeps every entry of `versions`, `trunk` included (`PluginsImportMetaCommand.php:104-111`). The model keeps that difference (`PluginList.DropTrunk`, `ImportMeta.TrunkVersionIsImported`).
- A record with an error other than "closed" is rolled back without writing anything.
- A type error raised under `strict_types` is not caught: it ends the command with its transaction open, and no exit code is returned (`Outcome.Aborted`, `Execute` returning None). Each of these raises one: a slug that is neither a string nor null (a missing or null slug becomes `""`), a non-string date, `count()` of a non-array `versions`.
- The merge step (`mergePluginsToUpdate`) is reached only from the fast path at `PluginListService.php:214`. That path is dead, because `===` between an array and an int is never true. The merge is modelled as a standalone operation, with the whole listing passed in.

## Model

| member | source | states |
|---|---|---|
| Text.Lines | code/src/Services/PluginListService.php:236 | `explode("\n")` never returns an empty list, and none of its pieces holds a newline |
| Text.JoinLines | code/src/Services/PluginListService.php:236 | joining the pieces with newlines gives back the original text |
| Text.LinesJoin | code/src/Services/PluginListService.php:236 | splitting newline-free lines joined with newlines gives back exactly those lines |
| Php.IntCast | code/src/Services/PluginListService.php:247 | `(int)` of a digit string is its value when that fits in 64 bits, PHP_INT_MAX when it is larger but still a finite double, and 0 when it overflows to infinity (from 2^1024 - 2^970 on) |
| Php.ArrayKey | code/src/Services/PluginListService.php:129 | a string key is kept as it is; an array is an illegal key, and nothing else is |
| Php.RemoveKey | code/src/Services/PluginListService.php:134-136 | `unset` drops exactly the entries under the key and keeps every other entry |
| SvnLog.DiffQuery | code/src/Services/PluginListService.php:210-227 | the diff asks for exactly the revisions after the recorded one, up to HEAD |
| SvnLog.ActionMarkerComplete | code/src/Services/PluginListService.php:240-243 | every line `   X /name/...` with X in ADMR and a name of `[A-z]` characters is recognised, and its name is captured |
| SvnLog.ActionMarkerSound | code/src/Services/PluginListService.php:240-243 | only lines of that shape are recognised |
| SvnLog.HyphenatedSlugNotMatched | code/src/Services/PluginListService.php:240 | a path under a hyphenated slug does not match the action pattern |
| SvnLog.SlugWithDigitNotMatched | code/src/Services/PluginListService.php:240 | a path under a slug containing a digit does not match the action pattern |
| SvnLog.RevisionHeaderComplete | code/src/Services/PluginListService.php:245-248 | the header line svn prints for revision n is recognised, and n is read back |
| SvnLog.RevisionHeaderSound | code/src/Services/PluginListService.php:245-248 | only lines made of `r`, a run of digits, a space and a bar, then anything, are recognised, and the value read is `(int)` of those digits |
| SvnLog.MarkersAndHeadersAreDisjoint | code/src/Services/PluginListService.php:239-249 | no line matches both patterns |
| SvnLog.ParseLog | code/src/Services/PluginListService.php:238-249 | the loop's final state is the fold of the per-line step over the lines |
| SvnLog.LastMarkerWins | code/src/Services/PluginListService.php:239-243 | after the loop, `$plugin` holds the name from the last action line |
| SvnLog.NoMarkerKeepsPlugin | code/src/Services/PluginListService.php:239-243 | with no action line, `$plugin` keeps its value |
| SvnLog.LastHeaderWins | code/src/Services/PluginListService.php:245-248 | after the loop, `$revision` holds the number from the last header line |
| SvnLog.NoHeaderKeepsRevision | code/src/Services/PluginListService.php:245-248 | with no header line, `$revision` keeps its value |
| SvnLog.UnmatchedLinesChangeNothing | code/src/Services/PluginListService.php:239-249 | appending lines that match neither pattern leaves the result unchanged |
| SvnLog.HeadRevision | code/src/Services/PluginListService.php:167-170 | an error exactly when there is no second line; otherwise a revision between 0 and PHP_INT_MAX, and 0 when the second line holds no match |
| SvnLog.MatchAtSpan | code/src/Services/PluginListService.php:168 | at one position, the HEAD-revision pattern matches exactly when the whole run of digits there is followed by a space and a bar, and that run is the group |
| SvnLog.FindRevisionComplete | code/src/Services/PluginListService.php:168-169 | the leftmost match's group is found and read by `(int)` |
| SvnLog.FindRevisionNone | code/src/Services/PluginListService.php:168 | a line with no match gives no group |
| SvnLog.FindRevisionSound | code/src/Services/PluginListService.php:168-169 | whatever is found is the `(int)` of the group of a match with no match to its left |
| SvnLog.HeadRevisionReads | code/src/Services/PluginListService.php:167-170 | with two or more lines, the result is the `(int)` of the leftmost match's group on the second line, or 0 (`(int) null`) when that line holds no match |
| SvnLog.HeadRevisionOfSvnOutput | code/src/Services/PluginListService.php:167-170 | for svn's output (separator, then the header of revision n), the revision read is n |
| PluginList.ListingCacheDecides | code/src/Services/PluginListService.php:178-190 | the cached listing is used exactly when written less than 86400 seconds ago, and then the server's answer does not matter; a stale or missing copy does not matter at all |
| PluginList.MetadataCacheDecides | code/src/Services/PluginListService.php:93-113 | the same cache decision for a plugin's metadata |
| PluginList.Hrefs | code/src/Services/PluginListService.php:191-192 | every captured slug is non-empty and contains no slash |
| PluginList.EntryRecognised | code/src/Services/PluginListService.php:191-192 | a directory's list item matches the listing pattern, capturing exactly its name, and the scan resumes right after it |
| PluginList.HrefsSkipsPlainText | code/src/Services/PluginListService.php:191-192 | text without a `<` (line breaks, indentation) holds no match and is skipped |
| PluginList.HrefsOfListing | code/src/Services/PluginListService.php:191-192 | scanning a list of items, one per line under an indentation without `<`, gives back exactly the directory names, in order |
| PluginList.PluginsFromListing | code/src/Services/PluginListService.php:194-197 | the map's keys are exactly the captured slugs, each mapped to no versions |
| PluginList.ListingToMap | code/src/Services/PluginListService.php:194-197 | the loop builds that map |
| PluginList.WholePluginList | code/src/Services/PluginListService.php:176-201 | it succeeds exactly when the listing text is available; the keys are then the slugs on the page, each with no versions |
| PluginList.PullWholePluginList | code/src/Services/PluginListService.php:176-201 | the method computes that result |
| PluginList.Filter | code/src/Services/PluginListService.php:314-328 | with no filter, the input unchanged; otherwise exactly the requested slugs that are present, with their values |
| PluginList.MergedSelects | code/src/Services/PluginListService.php:263-279 | a slug is in the result exactly when it was in the input map or is listed and new to the baseline or explicitly requested; those selected map to no versions; every other entry is kept |
| PluginList.MergePluginsToUpdate | code/src/Services/PluginListService.php:263-279 | the loop over the whole listing ends with exactly the merge MergedSelects characterises |
| PluginList.ExplicitRequestIsHonoured | code/src/Services/PluginListService.php:263-279 | baseline {akismet}, empty diff, request [akismet] gives {akismet: []} |
| PluginList.PluginMetadata | code/src/Services/PluginListService.php:87-117 | a fresh cached copy wins; otherwise a downloaded body is the data, a 404 body counts as data, any other client error gives an empty array, and only a non-client exception is an error |
| PluginList.DropTrunk | code/src/Services/PluginListService.php:134-136 | no set `trunk` entry is left, and every other entry is kept |
| PluginList.VersionsForPlugin | code/src/Services/PluginListService.php:122-139 | `versions` wins over the single `version`/`download_link` pair; trunk is dropped; a non-array `versions` or an array `version` is a type error; neither key gives an empty map |
| PluginList.LedgerKeys | code/src/Services/PluginListService.php:349-355 | an action has a ledger entry exactly when some row names it |
| PluginList.LastRowWins | code/src/Services/PluginListService.php:349-355 | the last row for an action gives its id and revision |
| PluginList.UnnamedActionKept | code/src/Services/PluginListService.php:349-355 | an action no row names keeps its entry |
| PluginList.PluginsToUpdate | code/src/Services/PluginListService.php:208-251 | the diff queries (R, HEAD]; a failed svn call yields the error text; otherwise it halts with what the parse loop read |
| PluginList.PluginListService.constructor | code/src/Services/PluginListService.php:36-40 | the ledger is the one loaded from the revision rows; the other fields start empty |
| PluginList.PluginListService.LoadRevisionData | code/src/Services/PluginListService.php:349-355 | the ledger becomes the fold of the rows over the old ledger |
| PluginList.PluginListService.PluginListForAction | code/src/Services/PluginListService.php:47-60 | an action in the ledger takes the diff from its revision plus one, and halts exactly when svn answers; any other action gets the filtered listing, with no versions, exactly when the listing text is available, and otherwise that text's error |
| PluginList.ColdPullListsTheCatalog | code/src/Services/PluginListService.php:47-60 | for an action with no ledger entry and a listing of indented list items, the candidates are exactly the listed slugs that pass the filter, with no versions |
| PluginList.PluginListService.IdentifyCurrentRevision | code/src/Services/PluginListService.php:141-171 | the revision read is returned and stored in prevRevision; an error leaves prevRevision unchanged |
| PluginList.CurrentRevisionFromSvnOutput | code/src/Services/PluginListService.php:141-171 | on svn's HEAD output for revision n, the result is n |
| PluginList.OneLineOutputIsRefused | code/src/Services/PluginListService.php:167-168 | output without a second line yields the `preg_match` type error |
| PluginList.PluginListService.PreservePluginList | code/src/Services/PluginListService.php:284-305 | the saved plugins are the new ones merged over the old snapshot's, with new values winning; the saved revisions are the current ones |
| PluginList.PluginListService.PreserveRevision | code/src/Services/PluginListService.php:330-347 | as written, always an INSERT of the action with its current revision |
| PluginList.PluginListService.IntendedPreserveRevision | code/src/Services/PluginListService.php:330-347 | an UPDATE by id exactly when the ledger has the action, otherwise an INSERT; both carry the current revision |
| PluginList.PreserveRevisionReinsertsKnownAction | code/src/Services/PluginListService.php:338-344 | for an action already in the ledger, the statement is an INSERT of the action where an UPDATE of its row by id was meant; whether that duplicates the row or violates a key depends on the schema, which is not part of this model |
| PluginList.PreserveRevisionAgreesOnNewAction | code/src/Services/PluginListService.php:338-344 | for a new action, the code as written and the intended code agree |
| Database.Connection.SlugTaken | code/src/Commands/PluginsImportMetaCommand.php:143-145 | the lookup finds a row exactly when some plugin row has that string slug |
| ImportMeta.HasJsonFindsSubstring | code/src/Commands/PluginsImportMetaCommand.php:32 | a name counts as JSON exactly when ".json" occurs anywhere in it |
| ImportMeta.SlugParam | code/src/Commands/PluginsImportMetaCommand.php:41 | a string slug is passed on as it is; a missing or null slug becomes ""; any other type is a type error |
| ImportMeta.VersionPairs | code/src/Commands/PluginsImportMetaCommand.php:104-111 | the foreach yields one (url, version) pair per entry, in order, nothing dropped |
| ImportMeta.WriteFilesSucceeds | code/src/Commands/PluginsImportMetaCommand.php:101-124 | the file INSERTs all succeed exactly when the database accepts every row under the identifier drawn for it |
| ImportMeta.WriteFilesAddsRows | code/src/Commands/PluginsImportMetaCommand.php:101-124 | when every INSERT succeeds, exactly one row per target is added, each under a fresh id |
| ImportMeta.WriteFilesKeepsValid | code/src/Commands/PluginsImportMetaCommand.php:101-124 | file rows for an existing plugin keep ids fresh and references intact |
| ImportMeta.ImportRecord | code/src/Commands/PluginsImportMetaCommand.php:31-134 | one file ends with an open transaction exactly when a type error escaped |
| ImportMeta.ImportRecordLog | code/src/Commands/PluginsImportMetaCommand.php:31-134 | a non-JSON name changes nothing; otherwise a begin, closed by a commit exactly when something was written; an abort leaves only the begin; ids only grow |
| ImportMeta.UnwrittenRecordLeavesTables | code/src/Commands/PluginsImportMetaCommand.php:42-53 | a skipped, rejected or failed file leaves both tables as they were |
| ImportMeta.ExistingSlugIsSkipped | code/src/Commands/PluginsImportMetaCommand.php:40-46 | a slug already stored is skipped and rolled back, whatever else the file says |
| ImportMeta.ForeignErrorIsRejected | code/src/Commands/PluginsImportMetaCommand.php:48-53 | an error other than "closed" writes nothing |
| ImportMeta.ClosedRecordIsWritten | code/src/Commands/PluginsImportMetaCommand.php:31-78 | a file ends as a closed plugin row exactly when it is JSON, its slug is a string or null and not yet stored, `error` is "closed", the closed date is readable and the database accepts the row |
| ImportMeta.ClosedRecordWritesOneRow | code/src/Commands/PluginsImportMetaCommand.php:55-78 | a closed record adds exactly one plugin row, with status "closed", no current version and its closed date, and no file rows |
| ImportMeta.OpenRecordIsWritten | code/src/Commands/PluginsImportMetaCommand.php:31-124 | a file ends as an open plugin with its files exactly when it is JSON, its slug is a string or null and not yet stored, it has no `error`, `last_updated` is a string, `versions` is empty or an array, and the database accepts every row |
| ImportMeta.OpenRecordWritesPluginAndFiles | code/src/Commands/PluginsImportMetaCommand.php:81-124 | an open record adds its plugin row and one `wp_cdn` row per target, each pointing at the new plugin |
| ImportMeta.SingleVersionWritesOneFile | code/src/Commands/PluginsImportMetaCommand.php:113-124 | with no `versions`, exactly one file row: the download link under `version` |
| ImportMeta.TrunkVersionIsImported | code/src/Commands/PluginsImportMetaCommand.php:102-112 | a `trunk` entry of `versions` becomes a file row with version "trunk" |
| ImportMeta.ImportRecordKeepsValid | code/src/Commands/PluginsImportMetaCommand.php:31-134 | each file keeps ids fresh, file rows pointing at plugins, and string slugs unique |
| ImportMeta.PluginRowsOnlyGrow | code/src/Commands/PluginsImportMetaCommand.php:31-134 | plugin rows are only ever appended |
| ImportMeta.ReimportIsSkipped | code/src/Commands/PluginsImportMetaCommand.php:40-46 | after a record is written, a later file with the same slug is skipped |
| ImportMeta.ImportAllKeepsSlugs | code/src/Commands/PluginsImportMetaCommand.php:31-135 | a stored slug stays stored for the whole run |
| ImportMeta.ImportAll | code/src/Commands/PluginsImportMetaCommand.php:31-135 | the run ends early exactly when it leaves a transaction open |
| ImportMeta.RecordIsBracketed | code/src/Commands/PluginsImportMetaCommand.php:31-134 | a file that does not abort adds a begin closed by a commit or rollback, or nothing for a non-JSON name |
| ImportMeta.ImportAllBracketsTransactions | code/src/Commands/PluginsImportMetaCommand.php:31-135 | a run that is not aborted opens one transaction per JSON file and closes each before the next begins |
| ImportMeta.ImportAllKeepsValid | code/src/Commands/PluginsImportMetaCommand.php:31-135 | the whole run keeps the tables valid |
| ImportMeta.PluginsImportMetaCommand.CheckPluginInDatabase | code/src/Commands/PluginsImportMetaCommand.php:141-146 | true exactly when some plugin row has the slug |
| ImportMeta.PluginsImportMetaCommand.WriteFileRows | code/src/Commands/PluginsImportMetaCommand.php:101-124 | the loop of INSERTs reaches the state WriteFiles describes and stops at the first refused statement |
| ImportMeta.PluginsImportMetaCommand.ImportFile | code/src/Commands/PluginsImportMetaCommand.php:32-134 | one iteration reaches the state and outcome ImportRecord describes |
| ImportMeta.PluginsImportMetaCommand.Execute | code/src/Commands/PluginsImportMetaCommand.php:26-139 | the connection ends in the state ImportAll describes; the result is SUCCESS unless a type error escaped |

## Left out

- The HTTP client, svn processes, files and the clock. Their results are parameters, listed above. Writing the cache files, `raw-plugin-list` and `plugin-data.json` is not modelled.
- `json_decode`: file contents and responses are given already decoded. A file that does not decode, and any data that is not an object, is not modelled. The body of a non-404 client error is likewise given as already decoded.
- Decoded objects are taken to have distinct keys, since the model reads the first occurrence of a key.
- JSON floats are not modelled.
- `strtotime` and `date('c')`. A date string is stored as its text, and a parse failure (which `date` then turns into a type error) is not modelled.
- The user-agent list and its `shuffle` in the constructor, which nothing in the core reads.
- Console output (`writeln`, `var_dump`), and the code after `die` at `PluginListService.php:252-255`, which never runs.
- The fast path at `PluginListService.php:214-216`, which is never taken.
- The deprecated `getPluginList`, which reads an undefined `$action`. Nothing in the model sets `oldPluginData`, which only `getPluginList` writes (`PluginListService.php:75`). Nothing sets `currentRevision` either, which is written only at `PluginListService.php:252`, after the `die`. `PreservePluginList` and `PreserveRevision` take both as the fields' current values.
- PluginList.PluginsToUpdate: the model takes the recorded revision as an integer. It does not check whether the database driver's value satisfies the `string $lastRevision` parameter under strict types.
- PluginList.MergePluginsToUpdate: the whole listing and the baseline are parameters rather than calls. `in_array` is read as exact membership, so PHP's loose comparison of numeric strings (`"10" == "1e1"`) is not modelled.
- PluginList.Filter: PHP returns the entries in filter order and MergePluginsToUpdate in listing order. Dafny maps have no order.
- PluginList.PluginListService.PreservePluginList: `array_merge` renumbers integer keys, and PHP turns a numeric-string slug into one. That renumbering is not modelled.
- PluginList.VersionsForPlugin: the `array` return type also refuses a null metadata result. Metadata is always an object here.
- Database.Connection: UUIDv7 identifiers are drawn from a counter. A refused statement leaves the tables as they were. Constraint checking is the `rejects` parameter.
- The import command reads the directory once, and uses one time for the whole run.
- PluginList.HrefsOfListing: the lemma covers the list of items the listing page holds, one per line under an indentation without `<`. The page's HTML head, its `../` entry and its closing tags are not part of the lemma; `Hrefs` itself scans any text.
- Concurrency between runs.

## Findings

| source | as written | input that shows it | evidently intended | confidence | as-written member | corrected member |
|---|---|---|---|---|---|---|
| code/src/Services/PluginListService.php:338 | tests `$data['null'] === null`, a key never set, so it always inserts | an action already in the ledger: an INSERT of the action where an UPDATE of its row by id was meant (a duplicate row or a key violation, depending on the schema) | `isset($data['id'])`: update the existing row by id, insert only a new action | high (not executed) | PluginList.PreserveRevisionReinsertsKnownAction | PluginList.PluginListService.IntendedPreserveRevision |
