/**
 * `fetch_data(query, cfg)` (covid_influence_on_daily_life/funcs_pushshift.py:18-48):
 * one search request, optional de-duplication, selection of the listed fields,
 * and a save; any failure inside the `try` gives an empty list instead of a table.
 */
module FetchData {
  import opened Wrappers
  import opened Exceptions
  import opened Text
  import opened Frames
  import opened Urls
  import opened Config

  /** The URL `pushshift_query(is_search, query_type, query)` requests (funcs_pushshift.py:10-13). */
  function PushshiftQueryUrl(isSearch: bool, queryType: string, query: string): string
  {
    Base(isSearch, query, queryType)
  }

  /**
   * `pushshift_query` builds the same URL as `getPushshiftData` with no optional
   * parameter: nothing follows the query, in either mode.
   */
  lemma {:induction false} QueryUrlHasNoParameters(isSearch: bool, queryType: string, query: string)
    ensures PushshiftQueryUrl(isSearch, queryType, query) == GetPushshiftUrl(isSearch, query, queryType, "", "", NotInt)
    ensures PushshiftQueryUrl(isSearch, queryType, query) == Base(isSearch, query, queryType)
  {
    var url := GetPushshiftUrl(isSearch, query, queryType, "", "", NotInt);
    var base := Base(isSearch, query, queryType);
    assert url[|base|..] == "";
    assert url == url[..|base|] + url[|base|..];
  }

  /** What `fetch_data` returns: the selected table (and the file it is saved to), `[]`, or an escaping exception. */
  datatype DataResult =
    | Frame(table: Table, saveName: string)
    | EmptyList
    | Raised(error: Exception)

  /** The name of the output file (funcs_pushshift.py:43). */
  function SaveName(path: string, queryType: string, suffix: string): string
  {
    path + queryType + "_" + suffix + ".csv"
  }

  /** The `try` block of funcs_pushshift.py:36-44, step by step. */
  function TryBlock(query: string, m: Entries, fetch: Fetcher): Result<(Table, string), Exception>
  {
    var queryType :- LookupString(m, "query_type");
    var url := PushshiftQueryUrl(true, queryType, query);
    var raw :- if fetch(url).Some? then Ok(fetch(url).value) else Err(RequestFailed(url));
    var key :- Lookup(m, "rm_dupe");
    var deduped :- RemoveDuplicates(raw, key);
    var field :- LookupString(m, "field");
    var selected :- Project(deduped, Split(field));
    var path :- LookupString(m, "path_save");
    var suffix :- LookupString(m, "save_suffix");
    Ok((selected, SaveName(path, queryType, suffix)))
  }

  /**
   * `fetch_data` once its defaults are filled in: the `except` handler turns any
   * failure into `[]`, except that the handler itself reads `cfg['query_type']`
   * as a string, so when that fails the exception escapes.
   */
  function DataOutcome(query: string, m: Entries, fetch: Fetcher): DataResult
  {
    match TryBlock(query, m, fetch)
    case Ok((t, name)) => Frame(t, name)
    case Err(_) =>
      match LookupString(m, "query_type")
      case Err(e) => Raised(e)
      case Ok(_) => EmptyList
  }

  /** `fetch_data(query, cfg)`: fills the defaults into `cfg` in place, then reassigns `df` step by step. */
  method FetchData(query: string, cfg: Settings, cwd: string, fetch: Fetcher) returns (r: DataResult)
    modifies cfg
    ensures cfg.entries == WithDataDefaults(old(cfg.entries), cwd)
    ensures r == DataOutcome(query, cfg.entries, fetch)
  {
    cfg.FillDataDefaults(cwd);
    var m := cfg.entries;
    var queryType := LookupString(m, "query_type");
    if queryType.Err? {
      return Raised(queryType.error);
    }
    var qt := queryType.value;
    var fetched := fetch(PushshiftQueryUrl(true, qt, query));
    if fetched.None? {
      return EmptyList;
    }
    var df := fetched.value;
    if "rm_dupe" !in m {
      return EmptyList;
    }
    var deduped := RemoveDuplicates(df, m["rm_dupe"]);
    if deduped.Err? {
      return EmptyList;
    }
    df := deduped.value;
    var field := LookupString(m, "field");
    if field.Err? {
      return EmptyList;
    }
    var selected := Project(df, Split(field.value));
    if selected.Err? {
      return EmptyList;
    }
    df := selected.value;
    var path := LookupString(m, "path_save");
    var suffix := LookupString(m, "save_suffix");
    if path.Err? || suffix.Err? {
      return EmptyList;
    }
    return Frame(df, SaveName(path.value, qt, suffix.value));
  }

  /** The exception escapes exactly when `query_type` is missing or not a string; otherwise the result is a table or `[]`. */
  lemma RaisedIff(query: string, m: Entries, fetch: Fetcher)
    ensures DataOutcome(query, m, fetch).Raised? <==> !LookupString(m, "query_type").Ok?
    ensures DataOutcome(query, m, fetch).Raised? ==> DataOutcome(query, m, fetch).error == LookupString(m, "query_type").error
  {
  }

  /** A failed request is caught: the result is `[]`. */
  lemma FetchFailureGivesEmptyList(query: string, m: Entries, fetch: Fetcher)
    requires LookupString(m, "query_type").Ok?
    requires fetch(PushshiftQueryUrl(true, m["query_type"].s, query)).None?
    ensures DataOutcome(query, m, fetch) == EmptyList
  {
  }

  /** A requested field that the fetched (and de-duplicated) table lacks is caught: the result is `[]`. */
  lemma MissingFieldGivesEmptyList(query: string, m: Entries, fetch: Fetcher, raw: Table, deduped: Table, missing: string)
    requires LookupString(m, "query_type").Ok? && LookupString(m, "field").Ok?
    requires fetch(PushshiftQueryUrl(true, m["query_type"].s, query)) == Some(raw)
    requires "rm_dupe" in m && RemoveDuplicates(raw, m["rm_dupe"]) == Ok(deduped)
    requires missing in Split(m["field"].s) && missing !in deduped.columns
    ensures DataOutcome(query, m, fetch) == EmptyList
  {
  }

  /** Saving is inside the `try`: without `save_suffix` even a successful fetch gives `[]`. */
  lemma NoSuffixGivesEmptyList(query: string, m: Entries, fetch: Fetcher)
    requires LookupString(m, "query_type").Ok? && "save_suffix" !in m
    ensures DataOutcome(query, m, fetch) == EmptyList
  {
  }

  /**
   * A table comes back only from a successful fetch; it has exactly the fields
   * `cfg['field'].split(',')` as columns, in that order, one more than the commas
   * of `cfg['field']`; it has as many rows as the de-duplicated fetch, each with
   * the cells of its fetched row in those columns; and it is saved as
   * `path_save + query_type + '_' + save_suffix + '.csv'`.
   */
  lemma FrameShape(query: string, m: Entries, fetch: Fetcher)
    requires DataOutcome(query, m, fetch).Frame?
    ensures var r := DataOutcome(query, m, fetch);
      && LookupString(m, "query_type").Ok? && LookupString(m, "field").Ok?
      && LookupString(m, "path_save").Ok? && LookupString(m, "save_suffix").Ok?
      && "rm_dupe" in m
      && var qt, field := m["query_type"].s, m["field"].s;
         && fetch(PushshiftQueryUrl(true, qt, query)).Some?
         && var raw := fetch(PushshiftQueryUrl(true, qt, query)).value;
            && RemoveDuplicates(raw, m["rm_dupe"]).Ok?
            && var deduped := RemoveDuplicates(raw, m["rm_dupe"]).value;
               && r.table.columns == Split(field)
               && |r.table.columns| == Commas(field) + 1
               && |r.table.rows| == |deduped.rows|
               && (forall i, c :: 0 <= i < |deduped.rows| && c in Split(field) ==>
                     Cell(r.table.rows[i], c) == Cell(deduped.rows[i], c))
               && r.saveName == m["path_save"].s + qt + "_" + m["save_suffix"].s + ".csv"
  {
    SplitShape(m["field"].s);
  }

  /** With `rm_dupe` left at its default `''`, the rows are those of the fetch, in order, none dropped. */
  lemma DefaultKeepsAllRows(query: string, m0: Entries, cwd: string, fetch: Fetcher)
    requires "rm_dupe" !in m0
    requires DataOutcome(query, WithDataDefaults(m0, cwd), fetch).Frame?
    ensures var m := WithDataDefaults(m0, cwd);
      && "query_type" in m && m["query_type"].Str?
      && fetch(PushshiftQueryUrl(true, m["query_type"].s, query)).Some?
      && |DataOutcome(query, m, fetch).table.rows| == |fetch(PushshiftQueryUrl(true, m["query_type"].s, query)).value.rows|
  {
    FrameShape(query, WithDataDefaults(m0, cwd), fetch);
  }
}
