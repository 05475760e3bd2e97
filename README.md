# Pushshift fetch helpers, modelled in Dafny

This project models the glue code that pulls Reddit data from the Pushshift
HTTP API: `funcs.py` (`getPushshiftData`, `pushshift_fetch`) and
`covid_influence_on_daily_life/funcs_pushshift.py` (`pushshift_query`,
`fetch_data`).

Each HTTP round trip is an oracle, `Frames.Fetcher`: a function from a URL to a
table, or `None` when the GET, the JSON decoding or the `data['data']` lookup
fails. Everything around those round trips is modelled as the code does it:

- the URL building;
- the filling of defaults into the `cfg` dict, in place;
- the joining of comment IDs;
- the request-length budget and the batch windows, exactly as written,
  including the window-relative end index and the `max([])` crash;
- keep-first de-duplication and column selection;
- the `try`/`except` structure, which decides between skipping, `[]` and an
  escaping exception;
- the names of the output files.

Modules, one per file:

- `Wrappers` / `Exceptions` (`wrappers.dfy`): `Option`, `Result`, and the kinds
  of Python exception the code can raise.
- `Text` (`text.dfy`): `','.join`, the ID accumulation loop, `str.split(',')`
  and `str(n)`.
- `Frames` (`frames.dfy`): a DataFrame as named columns plus rows of cells;
  `drop_duplicates(keep='first')`, `df[names]`, `pd.concat`.
- `Urls` (`urls.dfy`): `getPushshiftData`'s URL and the three URLs
  `pushshift_fetch` requests.
- `Config` (`config.dfy`): the `cfg` dict as a class with a mutable map field;
  the two default-filling steps and key lookups.
- `Batching` (`batching.dfy`): `cutoff_len`, the window offsets, the per-window
  comma cut as written, and a corrected greedy chunking.
- `Fetch` (`fetch.dfy`): `pushshift_fetch`. Its loops are methods proved equal
  to accumulator-style specification functions; the properties are lemmas about
  those functions.
- `FetchData` (`fetch_data.dfy`): `pushshift_query` and `fetch_data`.

## Model

All source paths are relative to the repository root.

| member | source | states |
|---|---|---|
| Text.Join | funcs.py:69-72 | definition of `','.join`; JoinIds proves the source's loop equal to it, and JoinLength, JoinSnoc, SplitJoinRoundTrip and JoinSplitRoundTrip characterise it |
| Text.DropLast | funcs.py:72 | `s[:-1]`: all but the last character, and `''` for `''`; JoinIds uses it for the comma the loop leaves behind |
| Text.Split | covid_influence_on_daily_life/funcs_pushshift.py:39 | `s.split(',')` gives at least one piece; SplitShape, SplitFirstPiece, SplitAtComma, SplitCommaFree, SplitOfJoin and JoinSplitRoundTrip characterise it |
| Text.JoinIds | funcs.py:69-72 | the accumulate-then-drop-last-comma loop yields exactly `','.join(ids)`; an empty list yields `''` |
| Text.JoinLength | funcs.py:69-72 | a non-empty ID list joins to (sum of ID lengths) + n − 1 characters; an empty list to `''` |
| Text.JoinSnoc | funcs.py:70-71 | appending one more ID adds one comma and the ID |
| Text.SplitAtComma | covid_influence_on_daily_life/funcs_pushshift.py:39 | splitting at a comma splits the two sides independently |
| Text.SplitCommaFree | covid_influence_on_daily_life/funcs_pushshift.py:39 | a string with no comma splits into itself alone |
| Text.SplitOfJoin | covid_influence_on_daily_life/funcs_pushshift.py:39 | splitting a comma-joined list gives the pieces of every element, in order |
| Text.SplitAllCommaFree | covid_influence_on_daily_life/funcs_pushshift.py:39 | comma-free strings are their own pieces |
| Text.SplitJoinRoundTrip | funcs.py:69-72 | comma-free IDs, joined and split again, come back unchanged |
| Text.JoinSplitRoundTrip | covid_influence_on_daily_life/funcs_pushshift.py:39 | any string, split at commas and rejoined, is unchanged |
| Text.SplitShape | covid_influence_on_daily_life/funcs_pushshift.py:39 | `s.split(',')` has one more piece than `s` has commas, and no piece holds a comma |
| Text.SplitFirstPiece | covid_influence_on_daily_life/funcs_pushshift.py:39 | the first piece is a prefix of `s`, followed by a comma unless it is all of `s` |
| Text.Decimal | funcs.py:19 | `str(n)` is non-empty, all digits and, for n > 0, has no leading zero |
| Text.DecimalRoundTrip | funcs.py:19 | the digits of `str(n)` read back as n |
| Frames.CellString | funcs.py:71 | definition of `str` of a cell: the string itself, `str(n)` with a sign for a negative n, and `nan` for a missing cell; Fetch.IdStrings applies it to column 0 |
| Frames.KeepFirst | funcs.py:59 | definition of `drop_duplicates(subset=key, keep='first')` on the rows; KeepFirstIsFirstOccurrences, KeepFirstNoRepeats, KeepFirstKeepsKeyValues, KeepFirstOfDistinct and KeepFirstIdempotent characterise it |
| Frames.KeepFirstIsFirstOccurrences | funcs.py:58-59 | keep-first de-duplication keeps, in original order, exactly the first row of every key value |
| Frames.KeepFirstNoRepeats | covid_influence_on_daily_life/funcs_pushshift.py:37-38 | no key value occurs twice among the kept rows |
| Frames.KeepFirstKeepsKeyValues | funcs.py:78-79 | every key value of the input is still present after de-duplication, and no other |
| Frames.KeyValuesAppend | funcs.py:78-79 | the key values of two row lists together are the union of each list's key values |
| Frames.KeepFirstOfDistinct | funcs.py:91-92 | rows whose keys are already distinct are left unchanged |
| Frames.KeepFirstIdempotent | funcs.py:102-103 | de-duplicating twice is the same as de-duplicating once |
| Frames.RemoveDuplicates | funcs.py:58-59 | key `''` leaves the table as it is; a key naming a column keeps the columns and keeps the first row per key value; any other key raises KeyError |
| Frames.Restrict | covid_influence_on_daily_life/funcs_pushshift.py:39 | a row cut down to the listed columns keeps exactly the listed cells it has |
| Frames.RestrictAll | covid_influence_on_daily_life/funcs_pushshift.py:39 | every row is cut down the same way; the row count is unchanged |
| Frames.Project | covid_influence_on_daily_life/funcs_pushshift.py:39 | `df[names]` succeeds iff every name is a column; the columns are then exactly `names`, in order; the row count is unchanged; the listed cells are kept and no others |
| Frames.NewColumns | funcs.py:115 | the columns of a table that a concatenation has not yet seen: exactly those not yet seen, none twice, in the table's order |
| Frames.ConcatOnto | funcs.py:115 | concatenation keeps the earlier columns as a prefix; its rows are the earlier rows followed by every row of every table, in order; its columns are the earlier ones and those of the tables, no other, and none twice when the earlier ones had none twice |
| Frames.Concat | funcs.py:115 | `pd.concat(tables)` holds every row of every table, in order, and exactly the columns of the tables, each once |
| Urls.Base | funcs.py:10-13 | definition of the URL before any parameter: origin + kind (+ `/search/?`) + query; SearchUrlPrefix, DirectUrlPrefix, PlainDirectUrl and UrlLength characterise it |
| Urls.FilterParam | funcs.py:14-15 | `&filter=` + fields is appended iff the fields are non-empty; FilterPresentIff proves that this is visible in the URL |
| Urls.SortParam | funcs.py:16-17 | `&sort_type=` + sort + `&sort=desc` is appended iff the sort type is non-empty; SortPresentIff proves that this is visible in the URL |
| Urls.SizeParam | funcs.py:18-19 | `&size=` + `str(n)` is appended iff the size is an int greater than 0; SizeRecoverable proves that the URL ends with it and that n can be read back |
| Urls.GetPushshiftUrl | funcs.py:9-19 | the URL is the base, then filter, sort and size, each present as above, in that order |
| Urls.SearchUrlPrefix | funcs.py:10-11 | in search mode the URL starts with origin + kind + `/search/?` + query |
| Urls.DirectUrlPrefix | funcs.py:12-13 | in direct mode the URL starts with origin + kind + query, with no `/search/?` |
| Urls.FilterPresentIff | funcs.py:14-19 | what follows the base starts with `&filter=` iff fields were given; neither the sort nor the size parameter can be taken for it |
| Urls.SortPresentIff | funcs.py:14-19 | after the base and the filter, the rest starts with `&sort_type=` iff a sort type was given; the size parameter cannot be taken for it |
| Urls.SizeRecoverable | funcs.py:14-19 | after the base, the filter and the sort, the URL ends with the size parameter, which is empty unless `query_num` is an int above 0, and otherwise `&size=` followed by digits that read back as `query_num` |
| Urls.ParamsStartWithFilterIff | funcs.py:14-19 | followed by nothing, or by a tail whose second character is `s` (the sort or size parameter), the part after the base starts with `&filter=` iff fields were given |
| Urls.UrlLength | funcs.py:10-19 | the URL's length is the base plus the length of each parameter that is present |
| Urls.PlainDirectUrl | funcs.py:12-13 | in direct mode with no optional parameter, the URL is exactly origin + kind + query |
| Urls.CommentUrl | funcs.py:77 | a comment request starts with origin + `comment/search/?ids=` + batch; its length is 52 + batch, plus 8 + fields when fields are given |
| Urls.CommentIdsUrl | funcs.py:68 | the comment-ID request is origin + `submission` + `/comment_ids/` + submission id |
| Urls.SubmissionUrl | funcs.py:57 | the submission search starts with origin + `submission/search/?` + query; its length is 93 + query (sort `num_comments`, size 100), plus the filter |
| Config.Default | funcs.py:40-41 | definition of one `if not key in cfg.keys(): cfg.update({key: value})` step on the entries; DefaultKeeps and Settings.FillDefault characterise it |
| Config.WithFetchDefaults | funcs.py:40-51 | definition of the six defaulting steps, in source order; FetchDefaultsOnlyWhenAbsent, FetchDefaultsIdempotent, SaveSuffixNeverDefaulted and Settings.FillFetchDefaults characterise it |
| Config.DefaultKeeps | funcs.py:40-41 | one defaulting step adds the key only if absent and changes no existing value |
| Config.FetchDefaultsOnlyWhenAbsent | funcs.py:40-51 | each of the six keys gets its default only when absent; present keys keep their values; no other key appears |
| Config.FetchDefaultsIdempotent | funcs.py:40-51 | filling the defaults twice is the same as filling them once |
| Config.WithDataDefaults | covid_influence_on_daily_life/funcs_pushshift.py:30-33 | `rm_dupe` defaults to `''` and `path_save` to cwd + `/`, each only when absent; no other key is added or changed |
| Config.DataDefaultsIdempotent | covid_influence_on_daily_life/funcs_pushshift.py:30-33 | filling those defaults twice is the same as filling them once |
| Config.SaveSuffixNeverDefaulted | funcs.py:114 | `save_suffix` is present after defaulting iff it was present before |
| Config.Lookup | funcs.py:58 | `cfg[key]` gives the stored value, or KeyError when the key is missing |
| Config.LookupString | funcs.py:55 | a lookup used as a `str` succeeds iff the key is present with a string value |
| Config.Settings.FillDefault | funcs.py:40-41 | one `if not key in cfg.keys(): cfg.update({key: value})` step updates the dict in place to the defaulted dict |
| Config.Settings.FillFetchDefaults | funcs.py:40-51 | the dict is updated in place to the defaulted dict |
| Config.Settings.FillDataDefaults | covid_influence_on_daily_life/funcs_pushshift.py:30-33 | the dict is updated in place to the defaulted dict |
| Batching.Cutoff | funcs.py:55 | the budget is 8130 − len(cmt_field) |
| Batching.Range | funcs.py:85 | `range(0, L, c)`: non-empty iff 0 < L; starts at 0; consecutive offsets c apart; all below L; the last within c of L |
| Batching.RangeCount | funcs.py:85 | there are ⌈L / c⌉ offsets: (n − 1)·c < L ≤ n·c |
| Batching.Offsets | funcs.py:85 | definition of `idx_batch`, the offsets `range(0, len(s), c)`; Range and RangeCount characterise it |
| Batching.Window | funcs.py:87-98 | definition of the text of window `ii`, from its offset to the next one or, for the last, to the end; WindowEnd bounds it |
| Batching.Slice | funcs.py:88-99 | definition of Python's `s[lo:hi]` for in-range bounds, `''` unless lo < hi; BatchAtShape and OnlyFirstBatchNonEmpty use it |
| Batching.BatchAt | funcs.py:87-99 | definition of one window's batch as written: the slice from the offset to `max(idx_temp)`, or ValueError for a comma-free window; BatchAtShape characterises it |
| Batching.BatchesFrom | funcs.py:86-99 | definition of the window loop from window `ii`: it ends at the first failing window; BatchesFromOkIff and BatchesFromShape characterise it |
| Batching.Batches | funcs.py:75-108 | definition of the batches sent for the joined IDs, as written; SingleRequestIff, BatchCount, OnlyFirstBatchNonEmpty, BatchesDropIds, BatchingCrashIff, NonPositiveBudgetCrashes and BatchingLosesIds characterise it |
| Batching.CommaPositions | funcs.py:87 | exactly the comma positions of the window, increasing |
| Batching.Max | funcs.py:88 | `max` of a non-empty list is an element and bounds all others |
| Batching.MaxCommaIsLast | funcs.py:87-88 | the largest comma position is the last comma of the window |
| Batching.WindowEnd | funcs.py:87-99 | every window is non-empty, ends within the string, and is at most the budget long |
| Batching.BatchAtShape | funcs.py:87-99 | window 0's batch is a prefix shorter than the budget, followed by a comma; every later batch is `''`; a window fails iff it has no comma |
| Batching.BatchesFromOkIff | funcs.py:86-99 | the window loop succeeds iff every remaining window has a comma |
| Batching.BatchesFromShape | funcs.py:86-99 | a successful window loop that has handled the first windows returns one batch per window, the earlier ones first, with each later window's batch at its own position |
| Batching.SingleRequestIff | funcs.py:75-85 | exactly one comment request is made iff the joined IDs fit the budget, and it carries the whole string |
| Batching.BatchCount | funcs.py:85-107 | past the budget, n ≥ 2 requests are made, one per window offset, with (n − 1)·c < len ≤ n·c |
| Batching.OnlyFirstBatchNonEmpty | funcs.py:85-99 | past the budget, the first batch is a prefix followed by a comma and shorter than the budget; every later batch, the tail's included, is empty |
| Batching.BatchesDropIds | funcs.py:85-99 | past the budget, the batches together carry fewer characters than the joined IDs |
| Batching.CommentRequestsWithinLimit | funcs.py:54-55 | every comment request URL built from a batch is at most 8190 characters |
| Batching.BatchingCrashIff | funcs.py:87-99 | past the budget, the run raises iff some window holds no comma |
| Batching.OneOverBudgetCrashes | funcs.py:98-99 | one character over the budget, with a last character that is not a comma, the run raises |
| Batching.NonPositiveBudgetCrashes | funcs.py:85-98 | a budget of 0 or less, once exceeded, raises before any comment request |
| Batching.BatchingLosesIds | funcs.py:88 | the IDs a, b, c, d with budget 4 are requested as `a,b` and `''` |
| Batching.Chunks | funcs.py:85-99 | definition of the corrected batching: greedy cuts at the last comma within the budget; ChunksPartition, ChunksKeepIds, ChunksSucceed and ChunkRequestsWithinLimit characterise it |
| Batching.ChunksPartition | funcs.py:85-99 | corrected chunking: the chunks rejoined are the joined IDs; each is within the budget; there is more than one only past the budget |
| Batching.ChunkRequestsWithinLimit | funcs.py:54-55 | every corrected chunk's comment request is at most 8190 characters |
| Batching.ChunksKeepIds | funcs.py:85-99 | the corrected chunks' pieces are exactly the IDs, in order |
| Batching.ChunksSucceed | funcs.py:85-99 | corrected chunking succeeds whenever no single ID is longer than the budget |
| Fetch.CommentStep | funcs.py:76-83 | definition of one guarded comment request: always sent, its de-duplicated table added on success, skipped on failure; CommentStepShape characterises it |
| Fetch.SubmissionStep | funcs.py:65-109 | definition of the loop body for one submission; FetchComments computes it, and SubmissionRequests, SubmissionKeepsLimit and ZeroCommentsSendNothing characterise it |
| Fetch.SubmissionsFrom | funcs.py:63-109 | definition of the submission loop from row `n`, which stops at the first escaping exception; SubmissionsKeepLimit and ZeroCommentsSendNothing characterise it |
| Fetch.SubmFileName | funcs.py:114 | definition of the submission file name path_save + `subm_` + save_suffix + `.csv`; SavedFiles states it |
| Fetch.CmtFileName | funcs.py:116 | definition of the comment file name path_save + `cmt_` + save_suffix + `.csv`; SavedFiles states it |
| Fetch.SaveOutcome | funcs.py:111-116 | definition of the saving step: KeyError before any file, ValueError from `pd.concat([])` after the submission file, or both files; SavedFiles, NoCommentsNoCommentFile and NoSuffixNeverSaves characterise it |
| Fetch.RunOutcome | funcs.py:53-116 | definition of the run on the defaulted dict; PushshiftFetch computes it, and RequestsWithinLimit, SavedFiles, NoCommentsNoCommentFile, NoSuffixNeverSaves and SubmissionSearchFailureAborts characterise it |
| Fetch.IdStrings | funcs.py:70-71 | `str` of every cell of column 0, in row order |
| Fetch.FetchComments | funcs.py:65-109 | the per-submission loop body, with the ID loop and the window loop, computes `SubmissionStep`: the skip, the KeyError/TypeError crashes, the window crash and the guarded requests |
| Fetch.SendComments | funcs.py:75-108 | the comment requests for one joined ID string: it raises exactly when the batching raises, with the same exception, and otherwise sends the guarded requests of the batches in order |
| Fetch.SendWindows | funcs.py:85-107 | the window loop past the budget: it raises exactly when some window's batch raises, and otherwise sends one guarded request per window, in order |
| Fetch.WindowBatch | funcs.py:86-99 | the batch of one window: up to `max(idx_temp)` from the window's offset, or ValueError when the window has no comma |
| Fetch.PushshiftFetch | funcs.py:24-116 | `cfg` is updated in place to the defaulted dict; the result is `RunOutcome` of the defaulted dict |
| Fetch.CommentStepShape | funcs.py:76-83 | a guarded request is always sent; it adds one table exactly when fetch and de-duplication both succeed; a failure only skips |
| Fetch.CommentStepsRequests | funcs.py:86-107 | every batch is requested exactly once, in order, whatever fails |
| Fetch.CorrectedCommentRequests | funcs.py:75-107 | with the corrected batching in place of the window loop, every ID is sent in exactly one request, in order, and every request is at most 8190 characters |
| Fetch.CommentStepsTables | funcs.py:89-96 | collected tables only grow, by at most one per batch; each new one is the de-duplicated answer to one batch request |
| Fetch.CommentStepsAllCollected | funcs.py:100-107 | when every batch request succeeds, every batch contributes a table |
| Fetch.SubmissionRequests | funcs.py:65-109 | a zero-comment submission sends nothing; any other that gets through sends its comment-ID request, then one request per batch of its joined IDs |
| Fetch.SubmissionKeepsLimit | funcs.py:54-55 | one submission keeps every later request a comment-ID request or a comment request within 8190 characters |
| Fetch.AppendKeepsLimit | funcs.py:68-77 | appending a comment-ID request and bounded comment requests keeps the property |
| Fetch.SubmissionsKeepLimit | funcs.py:63-109 | the submission loop keeps it |
| Fetch.RequestsWithinLimit | funcs.py:54-57 | a run that saves sent the submission search first; every later request is a comment-ID request or a comment request of at most 8190 characters |
| Fetch.ZeroCommentsSendNothing | funcs.py:65-66 | submissions whose comment counts are all 0 send no request and collect nothing |
| Fetch.NoCommentsNoCommentFile | funcs.py:114-115 | when no submission has comments, the run writes the submission file, then raises ValueError from `pd.concat([])` and never writes the comment file |
| Fetch.SavedFiles | funcs.py:114-116 | a run that saves writes two files, named path_save + `subm_`/`cmt_` + save_suffix + `.csv`: the first holds the de-duplicated submission table, the second `pd.concat` of the comment tables the submission loop collected, of which there is at least one, and the run's requests are that loop's |
| Fetch.NoSuffixNeverSaves | funcs.py:114 | without `save_suffix` the defaulted run never saves |
| Fetch.SubmissionSearchFailureAborts | funcs.py:57 | a failed submission search is not caught: the run ends with that failure and writes nothing |
| FetchData.PushshiftQueryUrl | covid_influence_on_daily_life/funcs_pushshift.py:9-13 | definition of `pushshift_query`'s URL as Urls.Base; QueryUrlHasNoParameters relates it to `getPushshiftData` |
| FetchData.SaveName | covid_influence_on_daily_life/funcs_pushshift.py:43 | definition of the output name path_save + query_type + `_` + save_suffix + `.csv`; FrameShape states it |
| FetchData.TryBlock | covid_influence_on_daily_life/funcs_pushshift.py:35-44 | definition of the `try` block, step by step, stopping at the first failure; FrameShape, FetchFailureGivesEmptyList, MissingFieldGivesEmptyList and NoSuffixGivesEmptyList characterise it |
| FetchData.DataOutcome | covid_influence_on_daily_life/funcs_pushshift.py:30-48 | definition of `fetch_data` on the defaulted dict, with the `except` handler's own lookup; FetchData computes it, and RaisedIff, FrameShape and DefaultKeepsAllRows characterise it |
| FetchData.QueryUrlHasNoParameters | covid_influence_on_daily_life/funcs_pushshift.py:10-13 | `pushshift_query`'s URL is origin + kind (+ `/search/?`) + query: the `getPushshiftData` URL with no filter, sort or size |
| FetchData.FetchData | covid_influence_on_daily_life/funcs_pushshift.py:18-48 | `cfg` is updated in place to the defaulted dict; the result is `DataOutcome` of the defaulted dict |
| FetchData.RaisedIff | covid_influence_on_daily_life/funcs_pushshift.py:45-48 | an exception escapes iff `query_type` is missing or not a string, and it is that lookup's exception |
| FetchData.FetchFailureGivesEmptyList | covid_influence_on_daily_life/funcs_pushshift.py:35-48 | a failed request gives `[]` |
| FetchData.MissingFieldGivesEmptyList | covid_influence_on_daily_life/funcs_pushshift.py:39 | a requested field missing from the fetched table gives `[]` |
| FetchData.NoSuffixGivesEmptyList | covid_influence_on_daily_life/funcs_pushshift.py:43-48 | without `save_suffix` even a successful fetch gives `[]` |
| FetchData.FrameShape | covid_influence_on_daily_life/funcs_pushshift.py:36-44 | a returned table has exactly the fields of `cfg['field'].split(',')` as columns (commas + 1 of them) and as many rows as the de-duplicated fetch, with their cells; it is saved as path_save + query_type + `_` + save_suffix + `.csv` |
| FetchData.DefaultKeepsAllRows | covid_influence_on_daily_life/funcs_pushshift.py:30-38 | with `rm_dupe` left at its default, the returned table has as many rows as the fetch |

## Left out

- `requests.get`, `json.loads` and `pd.DataFrame(data['data'])` are network and
  library calls. Each round trip is the oracle `fetch` (a URL to a table or
  `None`), which answers the same URL the same way every time.
- `os.getcwd()` is the parameter `cwd`.
- `os.path.exists`, `os.makedirs` and `to_csv` are filesystem I/O. The model
  records only the name and the table of each file written, not the CSV text.
- The `print` calls are console output and are not modelled.
- Frames.RemoveDuplicates: does not add the `index` column that
  `.reset_index()` adds after `drop_duplicates`. A `field` list in `fetch_data`
  that names `index` would select it in Python but fails in the model.
- Frames.ConcatOnto: `pd.concat` is modelled as row concatenation with the
  columns in order of first appearance. Pandas' index handling and the
  `reset_index()` column at funcs.py:115 are not modelled. The contract states
  the row contents, which columns appear and that none appears twice; the
  order of the columns is stated only step by step, through
  Frames.NewColumns (each table's new columns in that table's order, after
  the earlier ones), not as one order of first appearance over all tables.
- Fetch.PushshiftFetch: requests sent before an exception escapes are not
  recorded in `Crashed`. Only the exception and the files already written are.
- Exceptions are modelled by kind; their message texts are indicative only.
- A bare `except:` catches everything. The model treats any failure inside a
  `try` as caught, and nothing else can fail there.
- Cell values are integers or strings; a missing cell stands for NaN. Floats
  and other JSON types are not modelled, so a comment count of `0.0` is not
  recognised as zero.
- `num_fetch` is given a default of 100 at funcs.py:48-49 and never read: the
  submission search uses `getPushshiftData`'s own `query_num=100`. The
  docstring at funcs.py:35 says 500. The model follows the code.
- The comment tables are collected as the API returns them. The code does not
  tag comments with their submission's id or URL, and neither does the model.
- Past the budget, the code requests `id_batch` per window, never the whole
  joined string again. The model follows the code.
- With the default `subm_field` (`id,title,selftext`), the API's `filter`
  parameter presumably drops `num_comments`, so `df_subm['num_comments']` would
  raise KeyError. The model raises KeyError whenever the column is absent. What
  columns the API returns is outside the model.

## Findings

| source | as written | input that shows it | evidently intended | confidence | as-written member | corrected member |
|---|---|---|---|---|---|---|
| funcs.py:88 | `str_id_cmt[idx_batch[ii]:max(idx_temp)]` ends each batch at a comma position counted from the start of the window but used as an index into the whole string, so every batch after the first is empty | joined IDs `a,b,c,d` with budget 4: the requests are `ids=a,b` and `ids=`; `c` and `d` are never requested | cut each batch at its last comma (offset plus window position) and carry on after it, so that every ID is requested once and each request stays within the 8190-character line | not executed | Batching.BatchingLosesIds | Batching.ChunksKeepIds |
| funcs.py:98-99 | the tail window is cut at its last comma too, and `max([])` raises ValueError outside any `try` when the tail holds no comma, e.g. when it is the last ID alone | joined IDs `a,bcd` with budget 4: the tail window is `d`, so the run raises | send the remaining IDs whole when they fit the budget | not executed | Batching.OneOverBudgetCrashes | Batching.ChunksSucceed |

`Batching.Chunks` is the corrected batching: greedy cuts at the last comma
within the budget. `Batching.ChunksPartition`, `Batching.ChunksKeepIds`,
`Batching.ChunksSucceed` and `Batching.ChunkRequestsWithinLimit` state its
properties, and `Fetch.CorrectedCommentRequests` sends the corrected chunks
through the same guarded comment requests. `Fetch.PushshiftFetch` itself keeps
the batching as written, because it describes what the program does.
