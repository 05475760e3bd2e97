/**
 * `pushshift_fetch(query, cfg)` (funcs.py:24-119): fetch the submissions of a
 * search, then for every submission with comments its comment IDs and the
 * comments themselves, in length-limited batches; save both tables.
 * Every request goes through the oracle `fetch` (see `Frames.Fetcher`).
 */
module Fetch {
  import opened Wrappers
  import opened Exceptions
  import opened Text
  import opened Frames
  import opened Urls
  import opened Config
  import opened Batching

  /** The comment requests sent so far and the comment tables `query_cmt` collected so far. */
  datatype Progress = Progress(requests: seq<string>, tables: seq<Table>)

  /** What the comment requests need from `cfg`, looked up once. */
  datatype CommentParams = CommentParams(cutoff: int, cmtField: string, cmtRmDupe: Option<Value>)

  datatype SavedFile = SavedFile(name: string, table: Table)

  /**
   * How a run ends: both files written, or an exception that escaped, with the
   * files written before it.
   */
  datatype FetchResult =
    | Saved(requests: seq<string>, files: seq<SavedFile>)
    | Crashed(error: Exception, files: seq<SavedFile>)

  /**
   * One guarded comment request (funcs.py:76-83, 89-96, 100-107): the request
   * is always sent; a failed fetch or a failed de-duplication only skips the batch.
   */
  function CommentStep(p: Progress, batch: string, cp: CommentParams, fetch: Fetcher): Progress
  {
    var url := CommentUrl(batch, cp.cmtField);
    var sent := p.requests + [url];
    match fetch(url)
    case None => Progress(sent, p.tables)
    case Some(t) =>
      match cp.cmtRmDupe
      case None => Progress(sent, p.tables)
      case Some(key) =>
        match RemoveDuplicates(t, key)
        case Err(_) => Progress(sent, p.tables)
        case Ok(d) => Progress(sent, p.tables + [d])
  }

  /** The guarded requests of a list of batches, in order. */
  function CommentSteps(p: Progress, batches: seq<string>, cp: CommentParams, fetch: Fetcher): Progress
  {
    if |batches| == 0 then p
    else CommentStep(CommentSteps(p, batches[..|batches| - 1], cp, fetch), batches[|batches| - 1], cp, fetch)
  }

  /** One more batch is one more guarded request after the earlier ones. */
  lemma CommentStepsSnoc(p: Progress, bs: seq<string>, b: string, cp: CommentParams, fetch: Fetcher)
    ensures CommentSteps(p, bs + [b], cp, fetch) == CommentStep(CommentSteps(p, bs, cp, fetch), b, cp, fetch)
  {
    assert (bs + [b])[..|bs|] == bs;
  }

  /** The comment URL of every batch, in order. */
  function CommentUrls(batches: seq<string>, cmtField: string): (urls: seq<string>)
    ensures |urls| == |batches|
    ensures forall i :: 0 <= i < |batches| ==> urls[i] == CommentUrl(batches[i], cmtField)
  {
    seq(|batches|, i requires 0 <= i < |batches| => CommentUrl(batches[i], cmtField))
  }

  /** `str(id_cmt)` of every cell of column 0 of the comment-ID table. */
  function IdStrings(rows: seq<Row>): (ids: seq<string>)
    ensures |ids| == |rows|
    ensures forall i :: 0 <= i < |rows| ==> ids[i] == CellString(Cell(rows[i], "0"))
  {
    if |rows| == 0 then []
    else [CellString(Cell(rows[0], "0"))] + IdStrings(rows[1..])
  }

  /**
   * The body of the submission loop for row `n` (funcs.py:65-109). `df_subm['num_comments']`
   * and `df_subm['id']` raise KeyError when the column is missing; a zero count
   * skips the row; the comment-ID request and the batching are outside any `try`;
   * and an empty ID list leaves `id_cmt` unbound for the `del` at funcs.py:109.
   */
  function SubmissionStep(p: Progress, subm: Table, n: nat, cp: CommentParams, fetch: Fetcher): Result<Progress, Exception>
    requires n < |subm.rows|
  {
    var row := subm.rows[n];
    if "num_comments" !in subm.columns then Err(KeyError("num_comments"))
    else if Cell(row, "num_comments") == Some(Num(0)) then Ok(p)
    else if "id" !in subm.columns then Err(KeyError("id"))
    else if !(Cell(row, "id").Some? && Cell(row, "id").value.Str?) then Err(TypeError("can only concatenate str to str"))
    else
      var idsUrl := CommentIdsUrl(Cell(row, "id").value.s);
      match fetch(idsUrl)
      case None => Err(RequestFailed(idsUrl))
      case Some(idTable) =>
        if "0" !in idTable.columns then Err(KeyError("0"))
        else
          var ids := IdStrings(idTable.rows);
          match Batches(Join(ids), cp.cutoff)
          case Err(e) => Err(e)
          case Ok(bs) =>
            if |ids| == 0 then Err(UnboundLocalError("id_cmt"))
            else Ok(CommentSteps(Progress(p.requests + [idsUrl], p.tables), bs, cp, fetch))
  }

  /** The submission loop from row `n` on (funcs.py:63-109). */
  function SubmissionsFrom(subm: Table, n: nat, p: Progress, cp: CommentParams, fetch: Fetcher): Result<Progress, Exception>
    requires n <= |subm.rows|
    decreases |subm.rows| - n
  {
    if n == |subm.rows| then Ok(p)
    else
      match SubmissionStep(p, subm, n, cp, fetch)
      case Err(e) => Err(e)
      case Ok(q) => SubmissionsFrom(subm, n + 1, q, cp, fetch)
  }

  function SubmFileName(path: string, suffix: string): string
  {
    path + "subm_" + suffix + ".csv"
  }

  function CmtFileName(path: string, suffix: string): string
  {
    path + "cmt_" + suffix + ".csv"
  }

  /**
   * Saving (funcs.py:111-116): the submission file is written first, so an
   * empty `query_cmt` makes `pd.concat([])` raise after it.
   */
  function SaveOutcome(m: Entries, subm: Table, p: Progress): FetchResult
  {
    match LookupString(m, "path_save")
    case Err(e) => Crashed(e, [])
    case Ok(path) =>
      match LookupString(m, "save_suffix")
      case Err(e) => Crashed(e, [])
      case Ok(suffix) =>
        var submFile := SavedFile(SubmFileName(path, suffix), subm);
        if |p.tables| == 0 then Crashed(ValueError("No objects to concatenate"), [submFile])
        else Saved(p.requests, [submFile, SavedFile(CmtFileName(path, suffix), Concat(p.tables))])
  }

  /** What funcs.py:53-116 does with the configuration `m` once its defaults are filled in. */
  function RunOutcome(query: string, m: Entries, fetch: Fetcher): FetchResult
  {
    match LookupString(m, "cmt_field")
    case Err(e) => Crashed(e, [])
    case Ok(cmtField) =>
      match LookupString(m, "subm_field")
      case Err(e) => Crashed(e, [])
      case Ok(submField) =>
        var url := SubmissionUrl(query, submField);
        match fetch(url)
        case None => Crashed(RequestFailed(url), [])
        case Some(raw) =>
          match Lookup(m, "subm_rm_dupe")
          case Err(e) => Crashed(e, [])
          case Ok(key) =>
            match RemoveDuplicates(raw, key)
            case Err(e) => Crashed(e, [])
            case Ok(subm) =>
              var cp := CommentParams(Cutoff(cmtField), cmtField,
                                      if "cmt_rm_dupe" in m then Some(m["cmt_rm_dupe"]) else None);
              match SubmissionsFrom(subm, 0, Progress([url], []), cp, fetch)
              case Err(e) => Crashed(e, [])
              case Ok(p) => SaveOutcome(m, subm, p)
  }

  /**
   * The submission loop body for row `n` (funcs.py:65-109), with the ID
   * accumulation loop and the batch-window loop.
   */
  method FetchComments(p: Progress, subm: Table, n: nat, cp: CommentParams, fetch: Fetcher)
    returns (r: Result<Progress, Exception>)
    requires n < |subm.rows|
    ensures r == SubmissionStep(p, subm, n, cp, fetch)
  {
    var row := subm.rows[n];
    if "num_comments" !in subm.columns {
      return Err(KeyError("num_comments"));
    }
    if Cell(row, "num_comments") == Some(Num(0)) {
      return Ok(p);
    }
    if "id" !in subm.columns {
      return Err(KeyError("id"));
    }
    if !(Cell(row, "id").Some? && Cell(row, "id").value.Str?) {
      return Err(TypeError("can only concatenate str to str"));
    }
    var idsUrl := CommentIdsUrl(Cell(row, "id").value.s);
    var idTable := fetch(idsUrl);
    if idTable.None? {
      return Err(RequestFailed(idsUrl));
    }
    if "0" !in idTable.value.columns {
      return Err(KeyError("0"));
    }
    var ids := IdStrings(idTable.value.rows);
    var strIdCmt := JoinIds(ids);
    var sent := SendComments(Progress(p.requests + [idsUrl], p.tables), strIdCmt, cp, fetch);
    if sent.Err? {
      return sent;
    }
    if |ids| == 0 {
      return Err(UnboundLocalError("id_cmt"));
    }
    return sent;
  }

  /**
   * The guarded comment requests of one submission (funcs.py:75-108): a single
   * request when the joined IDs fit the budget, otherwise one per window. The
   * result is the batching's exception, or every batch sent in order from `start`.
   */
  method SendComments(start: Progress, strIdCmt: string, cp: CommentParams, fetch: Fetcher)
    returns (r: Result<Progress, Exception>)
    ensures r.Err? <==> Batches(strIdCmt, cp.cutoff).Err?
    ensures r.Err? ==> r.error == Batches(strIdCmt, cp.cutoff).error
    ensures r.Ok? ==> r.value == CommentSteps(start, Batches(strIdCmt, cp.cutoff).value, cp, fetch)
  {
    if |strIdCmt| <= cp.cutoff {
      var none: seq<string> := [];
      assert [strIdCmt][..0] == none;
      return Ok(CommentStep(start, strIdCmt, cp, fetch));
    } else if cp.cutoff == 0 {
      return Err(ValueError("range() arg 3 must not be zero"));
    } else if cp.cutoff < 0 {
      return Err(IndexError("list index out of range"));
    }
    r := SendWindows(start, strIdCmt, cp.cutoff, cp, fetch);
  }

  /**
   * The window loop of funcs.py:85-107 with budget `c`: the first window
   * without a comma raises, otherwise every window's batch is sent in order.
   */
  method SendWindows(start: Progress, strIdCmt: string, c: nat, cp: CommentParams, fetch: Fetcher)
    returns (r: Result<Progress, Exception>)
    requires c > 0
    ensures r.Err? <==> BatchesFrom(strIdCmt, c, 0, []).Err?
    ensures r.Err? ==> r.error == BatchesFrom(strIdCmt, c, 0, []).error
    ensures r.Ok? ==> r.value == CommentSteps(start, BatchesFrom(strIdCmt, c, 0, []).value, cp, fetch)
  {
    var q := start;
    var idxBatch := Offsets(strIdCmt, c);
    ghost var sent: seq<string> := [];
    var ii := 0;
    while ii < |idxBatch|
      invariant 0 <= ii <= |idxBatch|
      invariant BatchesFrom(strIdCmt, c, 0, []) == BatchesFrom(strIdCmt, c, ii, sent)
      invariant q == CommentSteps(start, sent, cp, fetch)
      decreases |idxBatch| - ii
    {
      var batch := WindowBatch(strIdCmt, c, idxBatch, ii);
      BatchesFromStep(strIdCmt, c, ii, sent);
      if batch.Err? {
        return Err(batch.error);
      }
      var idBatch := batch.value;
      q := CommentStep(q, idBatch, cp, fetch);
      CommentStepsSnoc(start, sent, idBatch, cp, fetch);
      sent := sent + [idBatch];
      ii := ii + 1;
    }
    return Ok(q);
  }

  /**
   * The ID string of window `ii` (funcs.py:87-88, 98-99): the window ends at the
   * next offset or at the end, `idx_temp` lists its commas, and the batch runs
   * from the window's offset to `max(idx_temp)`, which raises when there is none.
   */
  method WindowBatch(strIdCmt: string, c: nat, idxBatch: seq<nat>, ii: nat) returns (r: Result<string, Exception>)
    requires c > 0 && idxBatch == Offsets(strIdCmt, c) && ii < |idxBatch|
    ensures r == BatchAt(strIdCmt, c, ii)
  {
    var hi := if ii + 1 < |idxBatch| then idxBatch[ii + 1] else |strIdCmt|;
    assert hi == WindowEnd(strIdCmt, c, ii);
    var idxTemp := CommaPositions(strIdCmt[idxBatch[ii]..hi]);
    if |idxTemp| == 0 {
      return Err(ValueError("max() arg is an empty sequence"));
    }
    return Ok(Slice(strIdCmt, idxBatch[ii], Max(idxTemp)));
  }

  /**
   * `pushshift_fetch(query, cfg)`: fills the defaults into `cfg` in place, then
   * fetches and saves as `RunOutcome` describes.
   */
  method PushshiftFetch(query: string, cfg: Settings, cwd: string, fetch: Fetcher) returns (r: FetchResult)
    modifies cfg
    ensures cfg.entries == WithFetchDefaults(old(cfg.entries), cwd)
    ensures r == RunOutcome(query, cfg.entries, fetch)
  {
    cfg.FillFetchDefaults(cwd);
    var m := cfg.entries;
    var cmtField := LookupString(m, "cmt_field");
    if cmtField.Err? {
      return Crashed(cmtField.error, []);
    }
    var cutoffLen := Cutoff(cmtField.value);
    var submField := LookupString(m, "subm_field");
    if submField.Err? {
      return Crashed(submField.error, []);
    }
    var url := SubmissionUrl(query, submField.value);
    var raw := fetch(url);
    if raw.None? {
      return Crashed(RequestFailed(url), []);
    }
    if "subm_rm_dupe" !in m {
      return Crashed(KeyError("subm_rm_dupe"), []);
    }
    var dfSubm := RemoveDuplicates(raw.value, m["subm_rm_dupe"]);
    if dfSubm.Err? {
      return Crashed(dfSubm.error, []);
    }
    var subm := dfSubm.value;
    var cp := CommentParams(cutoffLen, cmtField.value, if "cmt_rm_dupe" in m then Some(m["cmt_rm_dupe"]) else None);
    var start := Progress([url], []);
    var progress := start;
    for n := 0 to |subm.rows|
      invariant cfg.entries == m
      invariant SubmissionsFrom(subm, 0, start, cp, fetch) == SubmissionsFrom(subm, n, progress, cp, fetch)
    {
      var step := FetchComments(progress, subm, n, cp, fetch);
      if step.Err? {
        return Crashed(step.error, []);
      }
      progress := step.value;
    }
    r := SaveOutcome(m, subm, progress);
  }

  // ----- properties of the comment requests -----

  /** Table `t` is what the guarded request for `batch` collects: fetched, then de-duplicated. */
  predicate CollectedFrom(t: Table, batch: string, cp: CommentParams, fetch: Fetcher)
  {
    var url := CommentUrl(batch, cp.cmtField);
    && fetch(url).Some?
    && cp.cmtRmDupe.Some?
    && RemoveDuplicates(fetch(url).value, cp.cmtRmDupe.value) == Ok(t)
  }

  /** One guarded request: sent whatever happens; it adds a table exactly when the table is collected from it. */
  lemma CommentStepShape(p: Progress, batch: string, cp: CommentParams, fetch: Fetcher)
    ensures var r := CommentStep(p, batch, cp, fetch);
      && r.requests == p.requests + [CommentUrl(batch, cp.cmtField)]
      && (r.tables == p.tables || (|r.tables| == |p.tables| + 1 && r.tables[..|p.tables|] == p.tables
                                   && CollectedFrom(r.tables[|p.tables|], batch, cp, fetch)))
      && (Succeeds(batch, cp, fetch) ==> |r.tables| == |p.tables| + 1)
  {
    var r := CommentStep(p, batch, cp, fetch);
    if r.tables != p.tables {
      assert r.tables == p.tables + [r.tables[|p.tables|]];
    }
  }

  /** Every batch is requested exactly once, in order, whether or not its fetch fails. */
  lemma {:induction false} CommentStepsRequests(p: Progress, bs: seq<string>, cp: CommentParams, fetch: Fetcher)
    ensures CommentSteps(p, bs, cp, fetch).requests == p.requests + CommentUrls(bs, cp.cmtField)
    decreases |bs|, 1
  {
    if |bs| > 0 {
      CommentStepsRequestsStep(p, bs, cp, fetch);
    } else {
      assert CommentUrls(bs, cp.cmtField) == [];
    }
  }

  /** The step of `CommentStepsRequests`: the last batch's request follows those of the others. */
  lemma {:induction false} CommentStepsRequestsStep(p: Progress, bs: seq<string>, cp: CommentParams, fetch: Fetcher)
    requires |bs| > 0
    ensures CommentSteps(p, bs, cp, fetch).requests == p.requests + CommentUrls(bs, cp.cmtField)
    decreases |bs|, 0
  {
    var init, last := bs[..|bs| - 1], bs[|bs| - 1];
    var q := CommentSteps(p, init, cp, fetch);
    assert CommentSteps(p, bs, cp, fetch) == CommentStep(q, last, cp, fetch);
    CommentStepsRequests(p, init, cp, fetch);
    CommentStepSends(q, last, cp, fetch);
    CommentUrlsLast(bs, cp.cmtField);
    AppendAssoc(p.requests, CommentUrls(init, cp.cmtField), [CommentUrl(last, cp.cmtField)]);
  }

  lemma AppendAssoc<T>(a: seq<T>, b: seq<T>, c: seq<T>)
    ensures (a + b) + c == a + (b + c)
  {
  }

  /** The request of one guarded step is sent whatever its outcome. */
  lemma CommentStepSends(p: Progress, batch: string, cp: CommentParams, fetch: Fetcher)
    ensures CommentStep(p, batch, cp, fetch).requests == p.requests + [CommentUrl(batch, cp.cmtField)]
  {
  }

  /** The last batch's URL comes last. */
  lemma CommentUrlsLast(bs: seq<string>, cmtField: string)
    requires |bs| > 0
    ensures CommentUrls(bs, cmtField) == CommentUrls(bs[..|bs| - 1], cmtField) + [CommentUrl(bs[|bs| - 1], cmtField)]
  {
    var l, r := CommentUrls(bs, cmtField), CommentUrls(bs[..|bs| - 1], cmtField) + [CommentUrl(bs[|bs| - 1], cmtField)];
    forall i | 0 <= i < |l| ensures l[i] == r[i] {
      if i < |bs| - 1 {
        assert bs[..|bs| - 1][i] == bs[i];
      }
    }
  }

  /**
   * The corrected batching of `Batching.Chunks` through the same guarded
   * requests: every ID is sent in exactly one request, in order, and every
   * request stays within 8190 characters.
   */
  lemma CorrectedCommentRequests(p: Progress, ids: seq<string>, cp: CommentParams, fetch: Fetcher)
    requires |ids| >= 1 && forall i :: 0 <= i < |ids| ==> ',' !in ids[i]
    requires cp.cutoff == Cutoff(cp.cmtField) && Chunks(Join(ids), cp.cutoff).Some?
    ensures var chunks := Chunks(Join(ids), cp.cutoff).value;
      && CommentSteps(p, chunks, cp, fetch).requests == p.requests + CommentUrls(chunks, cp.cmtField)
      && SplitAll(chunks) == ids
      && forall i :: 0 <= i < |chunks| ==> |CommentUrls(chunks, cp.cmtField)[i]| <= 8190
  {
    var chunks := Chunks(Join(ids), cp.cutoff).value;
    CommentStepsRequests(p, chunks, cp, fetch);
    ChunksKeepIds(ids, cp.cutoff);
    ChunkRequestsWithinLimit(Join(ids), cp.cmtField);
  }

  /**
   * The collected tables only grow, by at most one per batch, and each new table
   * is the de-duplicated answer to one of the batch requests.
   */
  lemma {:induction false} CommentStepsTables(p: Progress, bs: seq<string>, cp: CommentParams, fetch: Fetcher)
    ensures var r := CommentSteps(p, bs, cp, fetch);
      && p.tables <= r.tables
      && |r.tables| <= |p.tables| + |bs|
      && (forall k :: |p.tables| <= k < |r.tables| ==>
            exists i :: 0 <= i < |bs| && CollectedFrom(r.tables[k], bs[i], cp, fetch))
  {
    if |bs| > 0 {
      var init := bs[..|bs| - 1];
      var b := bs[|bs| - 1];
      CommentStepsTables(p, init, cp, fetch);
      var mid := CommentSteps(p, init, cp, fetch);
      CommentStepShape(mid, b, cp, fetch);
      var r := CommentSteps(p, bs, cp, fetch);
      forall k | |p.tables| <= k < |r.tables|
        ensures exists i :: 0 <= i < |bs| && CollectedFrom(r.tables[k], bs[i], cp, fetch)
      {
        if k < |mid.tables| {
          var i :| 0 <= i < |init| && CollectedFrom(mid.tables[k], init[i], cp, fetch);
          assert bs[i] == init[i];
          assert r.tables[k] == mid.tables[k];
        } else {
          assert CollectedFrom(r.tables[k], bs[|bs| - 1], cp, fetch);
        }
      }
    }
  }

  /** The guarded request for `batch` succeeds: its fetch and its de-duplication both go through. */
  predicate Succeeds(batch: string, cp: CommentParams, fetch: Fetcher)
  {
    var url := CommentUrl(batch, cp.cmtField);
    fetch(url).Some? && cp.cmtRmDupe.Some? && RemoveDuplicates(fetch(url).value, cp.cmtRmDupe.value).Ok?
  }

  /** When every batch request succeeds, every batch contributes its table. */
  lemma {:induction false} CommentStepsAllCollected(p: Progress, bs: seq<string>, cp: CommentParams, fetch: Fetcher)
    requires forall i :: 0 <= i < |bs| ==> Succeeds(bs[i], cp, fetch)
    ensures |CommentSteps(p, bs, cp, fetch).tables| == |p.tables| + |bs|
  {
    if |bs| > 0 {
      var init := bs[..|bs| - 1];
      assert forall i :: 0 <= i < |init| ==> init[i] == bs[i];
      CommentStepsAllCollected(p, init, cp, fetch);
      CommentStepShape(CommentSteps(p, init, cp, fetch), bs[|bs| - 1], cp, fetch);
    }
  }

  /**
   * A submission whose comment count is 0 sends nothing; any other that gets
   * through sends its comment-ID request and then one request per batch of
   * its joined IDs, and collects nothing but tables from those requests.
   */
  lemma SubmissionRequests(p: Progress, subm: Table, n: nat, cp: CommentParams, fetch: Fetcher)
    requires n < |subm.rows| && SubmissionStep(p, subm, n, cp, fetch).Ok?
    ensures var row, q := subm.rows[n], SubmissionStep(p, subm, n, cp, fetch).value;
      if Cell(row, "num_comments") == Some(Num(0)) then q == p
      else
        && Cell(row, "id").Some? && Cell(row, "id").value.Str?
        && var idsUrl := CommentIdsUrl(Cell(row, "id").value.s);
           && fetch(idsUrl).Some?
           && var ids := IdStrings(fetch(idsUrl).value.rows);
              && |ids| > 0
              && Batches(Join(ids), cp.cutoff).Ok?
              && q.requests == p.requests + [idsUrl] + CommentUrls(Batches(Join(ids), cp.cutoff).value, cp.cmtField)
              && p.tables <= q.tables
  {
    var row := subm.rows[n];
    if Cell(row, "num_comments") != Some(Num(0)) {
      var idsUrl := CommentIdsUrl(Cell(row, "id").value.s);
      var ids := IdStrings(fetch(idsUrl).value.rows);
      CommentStepsRequests(Progress(p.requests + [idsUrl], p.tables), Batches(Join(ids), cp.cutoff).value, cp, fetch);
      CommentStepsTables(Progress(p.requests + [idsUrl], p.tables), Batches(Join(ids), cp.cutoff).value, cp, fetch);
    }
  }

  /** The request is a comment-ID request (funcs.py:68). */
  predicate IsCommentIdsRequest(url: string)
  {
    ORIGIN + "submission" + "/comment_ids/" <= url
  }

  /** The request is a comment request (funcs.py:77, 90, 101). */
  predicate IsCommentRequest(url: string)
  {
    ORIGIN + "comment/search/?ids=" <= url
  }

  /** Every request after the first is a comment-ID request or a comment request of at most 8190 characters. */
  predicate LaterRequestsWithinLimit(requests: seq<string>)
  {
    forall i :: 1 <= i < |requests| ==> AllowedRequest(requests[i])
  }

  /** One submission keeps the request-length property when the budget is that of funcs.py:55. */
  lemma SubmissionKeepsLimit(p: Progress, subm: Table, n: nat, cp: CommentParams, fetch: Fetcher)
    requires n < |subm.rows| && cp.cutoff == Cutoff(cp.cmtField)
    requires |p.requests| >= 1 && LaterRequestsWithinLimit(p.requests)
    requires SubmissionStep(p, subm, n, cp, fetch).Ok?
    ensures var q := SubmissionStep(p, subm, n, cp, fetch).value;
      p.requests <= q.requests && LaterRequestsWithinLimit(q.requests)
  {
    var q := SubmissionStep(p, subm, n, cp, fetch).value;
    SubmissionRequests(p, subm, n, cp, fetch);
    var row := subm.rows[n];
    if Cell(row, "num_comments") != Some(Num(0)) {
      var idsUrl := CommentIdsUrl(Cell(row, "id").value.s);
      var joined := Join(IdStrings(fetch(idsUrl).value.rows));
      var bs := Batches(joined, cp.cutoff).value;
      CommentRequestsWithinLimit(joined, cp.cmtField);
      AppendKeepsLimit(p.requests, idsUrl, bs, cp.cmtField);
    }
  }

  lemma AppendKeepsLimit(prev: seq<string>, idsUrl: string, bs: seq<string>, cmtField: string)
    requires LaterRequestsWithinLimit(prev) && |prev| >= 1 && IsCommentIdsRequest(idsUrl)
    requires forall i :: 0 <= i < |bs| ==> |CommentUrl(bs[i], cmtField)| <= 8190
    ensures LaterRequestsWithinLimit(prev + [idsUrl] + CommentUrls(bs, cmtField))
  {
    var urls := CommentUrls(bs, cmtField);
    ConcatKeepsLimit(prev, [idsUrl]);
    forall j | 0 <= j < |urls| ensures AllowedRequest(urls[j]) {
      CommentUrlIsCommentRequest(bs[j], cmtField);
    }
    ConcatKeepsLimit(prev + [idsUrl], urls);
  }

  /** A comment-ID request, or a comment request of at most 8190 characters. */
  predicate AllowedRequest(url: string)
  {
    IsCommentIdsRequest(url) || (IsCommentRequest(url) && |url| <= 8190)
  }

  /** Appending allowed requests keeps the property. */
  lemma ConcatKeepsLimit(a: seq<string>, b: seq<string>)
    requires |a| >= 1 && LaterRequestsWithinLimit(a)
    requires forall j :: 0 <= j < |b| ==> AllowedRequest(b[j])
    ensures LaterRequestsWithinLimit(a + b)
  {
    forall i | 1 <= i < |a + b| ensures AllowedRequest((a + b)[i]) {
      if i < |a| {
        assert (a + b)[i] == a[i];
      } else {
        assert (a + b)[i] == b[i - |a|];
      }
    }
  }

  /** A comment URL starts with the comment-search prefix. */
  lemma CommentUrlIsCommentRequest(batch: string, cmtField: string)
    ensures IsCommentRequest(CommentUrl(batch, cmtField))
  {
    var u, pre := CommentUrl(batch, cmtField), ORIGIN + "comment/search/?ids=";
    assert pre + batch <= u;
    assert u[..|pre|] == (pre + batch)[..|pre|] == pre;
  }

  /** The submission loop keeps the request-length property. */
  lemma {:induction false} SubmissionsKeepLimit(subm: Table, n: nat, p: Progress, cp: CommentParams, fetch: Fetcher,
                                                r: Progress)
    requires n <= |subm.rows| && cp.cutoff == Cutoff(cp.cmtField)
    requires |p.requests| >= 1 && LaterRequestsWithinLimit(p.requests)
    requires SubmissionsFrom(subm, n, p, cp, fetch) == Ok(r)
    ensures p.requests <= r.requests && LaterRequestsWithinLimit(r.requests)
    decreases |subm.rows| - n, 1
  {
    if n < |subm.rows| {
      SubmissionsKeepLimitStep(subm, n, p, cp, fetch, r);
    } else {
      SubmissionsFromEnd(subm, n, p, cp, fetch);
    }
  }

  /** The inductive step: one row, then the rest of the loop. */
  lemma {:induction false} SubmissionsKeepLimitStep(subm: Table, n: nat, p: Progress, cp: CommentParams, fetch: Fetcher,
                                                    r: Progress)
    requires n < |subm.rows| && cp.cutoff == Cutoff(cp.cmtField)
    requires |p.requests| >= 1 && LaterRequestsWithinLimit(p.requests)
    requires SubmissionsFrom(subm, n, p, cp, fetch) == Ok(r)
    ensures p.requests <= r.requests && LaterRequestsWithinLimit(r.requests)
    decreases |subm.rows| - n, 0
  {
    var q := SubmissionStepKeepsLimit(subm, n, p, cp, fetch);
    SubmissionsKeepLimit(subm, n + 1, q, cp, fetch, r);
    PrefixTransitive(p.requests, q.requests, r.requests);
  }

  /** Past the last row the submission loop returns what it was given. */
  lemma SubmissionsFromEnd(subm: Table, n: nat, p: Progress, cp: CommentParams, fetch: Fetcher)
    requires n == |subm.rows|
    ensures SubmissionsFrom(subm, n, p, cp, fetch) == Ok(p)
  {
  }

  lemma PrefixTransitive(a: seq<string>, b: seq<string>, c: seq<string>)
    requires a <= b && b <= c
    ensures a <= c
  {
    assert b[..|a|] == a;
    assert c[..|b|][..|a|] == c[..|a|];
  }

  /** One turn of the submission loop, seen from the loop: it keeps the property and the earlier requests. */
  lemma SubmissionStepKeepsLimit(subm: Table, n: nat, p: Progress, cp: CommentParams, fetch: Fetcher)
    returns (q: Progress)
    requires n < |subm.rows| && cp.cutoff == Cutoff(cp.cmtField)
    requires |p.requests| >= 1 && LaterRequestsWithinLimit(p.requests)
    requires SubmissionsFrom(subm, n, p, cp, fetch).Ok?
    ensures SubmissionsFrom(subm, n, p, cp, fetch) == SubmissionsFrom(subm, n + 1, q, cp, fetch)
    ensures p.requests <= q.requests && LaterRequestsWithinLimit(q.requests)
  {
    SubmissionsFromStep(subm, n, p, cp, fetch);
    q := SubmissionStep(p, subm, n, cp, fetch).value;
    SubmissionKeepsLimit(p, subm, n, cp, fetch);
  }

  /** A successful submission loop passes every row's step in turn. */
  lemma SubmissionsFromStep(subm: Table, n: nat, p: Progress, cp: CommentParams, fetch: Fetcher)
    requires n < |subm.rows|
    requires SubmissionsFrom(subm, n, p, cp, fetch).Ok?
    ensures SubmissionStep(p, subm, n, cp, fetch).Ok?
    ensures SubmissionsFrom(subm, n, p, cp, fetch)
         == SubmissionsFrom(subm, n + 1, SubmissionStep(p, subm, n, cp, fetch).value, cp, fetch)
  {
  }

  /**
   * A run that saves its files sent the submission search first, and every
   * later request is a comment-ID request or a comment request within the
   * 8190-character request-line limit.
   */
  lemma RequestsWithinLimit(query: string, m: Entries, fetch: Fetcher)
    requires RunOutcome(query, m, fetch).Saved?
    ensures var reqs := RunOutcome(query, m, fetch).requests;
      && "subm_field" in m && m["subm_field"].Str?
      && |reqs| >= 1 && reqs[0] == SubmissionUrl(query, m["subm_field"].s)
      && LaterRequestsWithinLimit(reqs)
  {
    var cmtField := LookupString(m, "cmt_field").value;
    var url := SubmissionUrl(query, m["subm_field"].s);
    var subm := RemoveDuplicates(fetch(url).value, m["subm_rm_dupe"]).value;
    var cp := CommentParams(Cutoff(cmtField), cmtField, if "cmt_rm_dupe" in m then Some(m["cmt_rm_dupe"]) else None);
    SubmissionsKeepLimit(subm, 0, Progress([url], []), cp, fetch,
                         SubmissionsFrom(subm, 0, Progress([url], []), cp, fetch).value);
  }

  // ----- properties of the whole run -----

  /** Submissions whose comment counts are all 0 send no request and collect nothing. */
  lemma {:induction false} ZeroCommentsSendNothing(subm: Table, n: nat, p: Progress, cp: CommentParams, fetch: Fetcher)
    requires n <= |subm.rows| && "num_comments" in subm.columns
    requires forall i :: n <= i < |subm.rows| ==> Cell(subm.rows[i], "num_comments") == Some(Num(0))
    ensures SubmissionsFrom(subm, n, p, cp, fetch) == Ok(p)
    decreases |subm.rows| - n
  {
    if n < |subm.rows| {
      ZeroCommentsSendNothing(subm, n + 1, p, cp, fetch);
    }
  }

  /**
   * When no submission has comments, nothing is collected, so after writing the
   * submission file the run fails on `pd.concat([])` and never writes the comment file.
   */
  lemma NoCommentsNoCommentFile(query: string, m: Entries, fetch: Fetcher, raw: Table, subm: Table)
    requires LookupString(m, "cmt_field").Ok? && LookupString(m, "subm_field").Ok?
    requires fetch(SubmissionUrl(query, m["subm_field"].s)) == Some(raw)
    requires "subm_rm_dupe" in m && RemoveDuplicates(raw, m["subm_rm_dupe"]) == Ok(subm)
    requires "num_comments" in subm.columns
    requires forall i :: 0 <= i < |subm.rows| ==> Cell(subm.rows[i], "num_comments") == Some(Num(0))
    requires LookupString(m, "path_save").Ok? && LookupString(m, "save_suffix").Ok?
    ensures RunOutcome(query, m, fetch)
         == Crashed(ValueError("No objects to concatenate"),
                    [SavedFile(SubmFileName(m["path_save"].s, m["save_suffix"].s), subm)])
  {
    var cmtField := m["cmt_field"].s;
    var url := SubmissionUrl(query, m["subm_field"].s);
    var cp := CommentParams(Cutoff(cmtField), cmtField, if "cmt_rm_dupe" in m then Some(m["cmt_rm_dupe"]) else None);
    ZeroCommentsSendNothing(subm, 0, Progress([url], []), cp, fetch);
  }

  /**
   * A run that saves writes exactly two files, the de-duplicated submissions to
   * `path_save + 'subm_' + save_suffix + '.csv'` and the concatenated comment
   * tables, of which there is at least one, to `path_save + 'cmt_' + save_suffix + '.csv'`.
   */
  lemma SavedFiles(query: string, m: Entries, fetch: Fetcher)
    requires RunOutcome(query, m, fetch).Saved?
    ensures var files := RunOutcome(query, m, fetch).files;
      && "path_save" in m && m["path_save"].Str?
      && "save_suffix" in m && m["save_suffix"].Str?
      && |files| == 2
      && files[0].name == m["path_save"].s + "subm_" + m["save_suffix"].s + ".csv"
      && files[1].name == m["path_save"].s + "cmt_" + m["save_suffix"].s + ".csv"
    ensures var files := RunOutcome(query, m, fetch).files;
      && LookupString(m, "cmt_field").Ok? && LookupString(m, "subm_field").Ok? && "subm_rm_dupe" in m
      && var url := SubmissionUrl(query, m["subm_field"].s);
         && fetch(url).Some?
         && RemoveDuplicates(fetch(url).value, m["subm_rm_dupe"]).Ok?
         && var subm := RemoveDuplicates(fetch(url).value, m["subm_rm_dupe"]).value;
            && files[0].table == subm
            && var cmtField := m["cmt_field"].s;
               var cp := CommentParams(Cutoff(cmtField), cmtField,
                                       if "cmt_rm_dupe" in m then Some(m["cmt_rm_dupe"]) else None);
               && SubmissionsFrom(subm, 0, Progress([url], []), cp, fetch).Ok?
               && var p := SubmissionsFrom(subm, 0, Progress([url], []), cp, fetch).value;
                  && |p.tables| >= 1
                  && files[1].table == Concat(p.tables)
                  && RunOutcome(query, m, fetch).requests == p.requests
  {
  }

  /**
   * `save_suffix` gets no default, so a configuration without it never saves:
   * the run fails with KeyError at funcs.py:114 at the latest.
   */
  lemma NoSuffixNeverSaves(query: string, m0: Entries, cwd: string, fetch: Fetcher)
    requires "save_suffix" !in m0
    ensures !RunOutcome(query, WithFetchDefaults(m0, cwd), fetch).Saved?
  {
    SaveSuffixNeverDefaulted(m0, cwd);
    if RunOutcome(query, WithFetchDefaults(m0, cwd), fetch).Saved? {
      SavedFiles(query, WithFetchDefaults(m0, cwd), fetch);
    }
  }

  /**
   * With the defaults filled in, a failed submission search is not caught: the
   * run ends with that failure and writes nothing.
   */
  lemma SubmissionSearchFailureAborts(query: string, m0: Entries, cwd: string, fetch: Fetcher)
    requires "cmt_field" !in m0 || m0["cmt_field"].Str?
    requires "subm_field" !in m0 || m0["subm_field"].Str?
    ensures var m := WithFetchDefaults(m0, cwd);
      && m["subm_field"].Str?
      && var url := SubmissionUrl(query, m["subm_field"].s);
         fetch(url).None? ==> RunOutcome(query, m, fetch) == Crashed(RequestFailed(url), [])
  {
    FetchDefaultsOnlyWhenAbsent(m0, cwd);
  }
}
