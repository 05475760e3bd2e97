/**
 * Request URLs of `getPushshiftData` (funcs.py:9-19): a fixed origin, the
 * resource kind and the query, then the optional `&filter=`, `&sort_type=`
 * and `&size=` parameters, in that order.
 */
module Urls {
  import opened Text

  const ORIGIN := "https://api.pushshift.io/reddit/"

  /** The Python value passed as `query_num`: an `int`, or anything else (the code passes `''`). */
  datatype SizeArg = IntArg(n: int) | NotInt

  /** `'&filter='+query_fields` when `query_fields != ''`. */
  function FilterParam(fields: string): (p: string)
    ensures p == "" <==> fields == ""
    ensures fields != "" ==> p == "&filter=" + fields
  {
    if fields != "" then "&filter=" + fields else ""
  }

  /** `'&sort_type='+sort_type+'&sort=desc'` when `sort_type != ''`. */
  function SortParam(sortType: string): (p: string)
    ensures p == "" <==> sortType == ""
    ensures sortType != "" ==> p == "&sort_type=" + sortType + "&sort=desc"
  {
    if sortType != "" then "&sort_type=" + sortType + "&sort=desc" else ""
  }

  /** `'&size='+str(query_num)` when `query_num` is an int greater than 0. */
  function SizeParam(size: SizeArg): (p: string)
    ensures p == "" <==> !(size.IntArg? && size.n > 0)
    ensures size.IntArg? && size.n > 0 ==> p == "&size=" + Decimal(size.n)
  {
    if size.IntArg? && size.n > 0 then "&size=" + Decimal(size.n) else ""
  }

  /** The URL before any optional parameter: search mode adds `/search/?`, direct mode does not. */
  function Base(isSearch: bool, query: string, queryType: string): string
  {
    if isSearch then ORIGIN + queryType + "/search/?" + query else ORIGIN + queryType + query
  }

  /** The URL `getPushshiftData(is_search, query, query_type, query_fields, sort_type, query_num)` requests. */
  function GetPushshiftUrl(isSearch: bool, query: string, queryType: string, queryFields: string,
                           sortType: string, queryNum: SizeArg): (url: string)
    ensures Base(isSearch, query, queryType) <= url
    ensures url[|Base(isSearch, query, queryType)|..]
         == FilterParam(queryFields) + SortParam(sortType) + SizeParam(queryNum)
  {
    var base := Base(isSearch, query, queryType);
    var params := FilterParam(queryFields) + SortParam(sortType) + SizeParam(queryNum);
    assert (base + params)[|base|..] == params;
    base + params
  }

  /** In search mode the URL starts with the origin, the kind, `/search/?` and the query. */
  lemma SearchUrlPrefix(query: string, queryType: string, queryFields: string, sortType: string, queryNum: SizeArg)
    ensures ORIGIN + queryType + "/search/?" + query <= GetPushshiftUrl(true, query, queryType, queryFields, sortType, queryNum)
  {
  }

  /** In direct mode the query follows the kind at once: no `/search/?` is inserted. */
  lemma DirectUrlPrefix(query: string, queryType: string, queryFields: string, sortType: string, queryNum: SizeArg)
    ensures ORIGIN + queryType + query <= GetPushshiftUrl(false, query, queryType, queryFields, sortType, queryNum)
  {
  }

  /**
   * What follows the base starts with `&filter=` exactly when fields were asked
   * for: neither `&sort_type=` nor `&size=` can be mistaken for it.
   */
  lemma {:induction false} FilterPresentIff(isSearch: bool, query: string, queryType: string, queryFields: string,
                                           sortType: string, queryNum: SizeArg)
    ensures var url := GetPushshiftUrl(isSearch, query, queryType, queryFields, sortType, queryNum);
      "&filter=" <= url[|Base(isSearch, query, queryType)|..] <==> queryFields != ""
  {
    SecondCharOfLaterParams(sortType, queryNum);
    ParamsStartWithFilterIff(queryFields, SortParam(sortType) + SizeParam(queryNum));
  }

  /** The parameters after the filter are absent or start with `&s`: `&sort_type=` or `&size=`. */
  lemma SecondCharOfLaterParams(sortType: string, queryNum: SizeArg)
    ensures var tail := SortParam(sortType) + SizeParam(queryNum);
      tail == "" || (|tail| >= 2 && tail[1] == 's')
  {
    var sort, size := SortParam(sortType), SizeParam(queryNum);
    if sort != "" {
      assert (sort + size)[1] == sort[1] == "&sort_type="[1];
    } else if size != "" {
      assert (sort + size)[1] == size[1] == "&size="[1];
    }
  }

  lemma ParamsStartWithFilterIff(queryFields: string, tail: string)
    requires tail == "" || (|tail| >= 2 && tail[1] == 's')
    ensures "&filter=" <= FilterParam(queryFields) + tail <==> queryFields != ""
  {
    if queryFields != "" {
      assert FilterParam(queryFields) + tail == "&filter=" + (queryFields + tail);
    } else if tail != "" {
      assert "&filter="[1] == 'f' != tail[1];
    }
  }

  /**
   * After the base and the filter, the rest starts with `&sort_type=` exactly
   * when a sort type was given: `&size=` cannot be mistaken for it.
   */
  lemma {:induction false} SortPresentIff(isSearch: bool, query: string, queryType: string, queryFields: string,
                                         sortType: string, queryNum: SizeArg)
    ensures var url := GetPushshiftUrl(isSearch, query, queryType, queryFields, sortType, queryNum);
      var at := |Base(isSearch, query, queryType)| + |FilterParam(queryFields)|;
      && at <= |url|
      && ("&sort_type=" <= url[at..] <==> sortType != "")
  {
    var base, filter := Base(isSearch, query, queryType), FilterParam(queryFields);
    UrlIsBaseThenParams(isSearch, query, queryType, queryFields, sortType, queryNum);
    DropParts(base, filter, SortParam(sortType), SizeParam(queryNum));
    ThirdCharOfSize(queryNum);
    ParamsStartWithSortIff(sortType, SizeParam(queryNum));
  }

  /** The size parameter is absent or starts with `&si`. */
  lemma ThirdCharOfSize(queryNum: SizeArg)
    ensures var size := SizeParam(queryNum);
      size == "" || (|size| >= 3 && size[2] == 'i')
  {
    if SizeParam(queryNum) != "" {
      assert SizeParam(queryNum)[2] == "&size="[2];
    }
  }

  lemma ParamsStartWithSortIff(sortType: string, tail: string)
    requires tail == "" || (|tail| >= 3 && tail[2] == 'i')
    ensures "&sort_type=" <= SortParam(sortType) + tail <==> sortType != ""
  {
    if sortType != "" {
      assert SortParam(sortType) + tail == "&sort_type=" + (sortType + "&sort=desc" + tail);
    } else if tail != "" {
      assert "&sort_type="[2] == 'o' != tail[2];
    }
  }

  /**
   * After the filter and the sort, the URL ends with the size parameter:
   * nothing unless `query_num` is an int above 0, and otherwise `&size=` and
   * digits that read back as `query_num`.
   */
  lemma {:induction false} SizeRecoverable(isSearch: bool, query: string, queryType: string, queryFields: string,
                                          sortType: string, queryNum: SizeArg)
    ensures var url := GetPushshiftUrl(isSearch, query, queryType, queryFields, sortType, queryNum);
      var at := |Base(isSearch, query, queryType)| + |FilterParam(queryFields)| + |SortParam(sortType)|;
      at <= |url| && url[at..] == SizeParam(queryNum)
    ensures var size := SizeParam(queryNum);
      && (size == "" <==> !(queryNum.IntArg? && queryNum.n > 0))
      && (size != "" ==> |size| > 6 && size[..6] == "&size="
                         && queryNum.IntArg? && ParseDecimal(size[6..]) == queryNum.n)
  {
    var base, filter, sort, size := Base(isSearch, query, queryType), FilterParam(queryFields),
                                    SortParam(sortType), SizeParam(queryNum);
    UrlIsBaseThenParams(isSearch, query, queryType, queryFields, sortType, queryNum);
    DropParts(base, filter, sort, size);
    if queryNum.IntArg? && queryNum.n > 0 {
      DecimalRoundTrip(queryNum.n);
      assert size[6..] == Decimal(queryNum.n);
    }
  }

  /** The URL is the base followed by the filter, the sort and the size parameters. */
  lemma UrlIsBaseThenParams(isSearch: bool, query: string, queryType: string, queryFields: string,
                            sortType: string, queryNum: SizeArg)
    ensures GetPushshiftUrl(isSearch, query, queryType, queryFields, sortType, queryNum)
         == Base(isSearch, query, queryType) + FilterParam(queryFields) + SortParam(sortType) + SizeParam(queryNum)
  {
    AppendAssoc4(Base(isSearch, query, queryType), FilterParam(queryFields), SortParam(sortType), SizeParam(queryNum));
  }

  lemma AppendAssoc4(a: string, b: string, c: string, d: string)
    ensures a + (b + c + d) == a + b + c + d
  {
  }

  /** Dropping the first two or three of four concatenated strings. */
  lemma DropParts(a: string, b: string, c: string, d: string)
    ensures (a + b + c + d)[|a| + |b|..] == c + d
    ensures (a + b + c + d)[|a| + |b| + |c|..] == d
  {
    assert a + b + c + d == (a + b) + (c + d);
  }

  /**
   * The length of the URL is the base plus 8 + |fields| for a filter, 21 + |sort|
   * for a sort and 6 + |digits| for a size, each counted only when present.
   */
  lemma UrlLength(isSearch: bool, query: string, queryType: string, queryFields: string,
                  sortType: string, queryNum: SizeArg)
    ensures |GetPushshiftUrl(isSearch, query, queryType, queryFields, sortType, queryNum)|
         == |Base(isSearch, query, queryType)|
          + (if queryFields != "" then 8 + |queryFields| else 0)
          + (if sortType != "" then 21 + |sortType| else 0)
          + (if queryNum.IntArg? && queryNum.n > 0 then 6 + |Decimal(queryNum.n)| else 0)
  {
    var url := GetPushshiftUrl(isSearch, query, queryType, queryFields, sortType, queryNum);
    assert |url| == |Base(isSearch, query, queryType)| + |url[|Base(isSearch, query, queryType)|..]|;
  }

  /** With no optional parameter and no `/search/?`, the URL is just origin, kind and query. */
  lemma {:induction false} PlainDirectUrl(query: string, queryType: string)
    ensures GetPushshiftUrl(false, query, queryType, "", "", NotInt) == ORIGIN + queryType + query
  {
    var url := GetPushshiftUrl(false, query, queryType, "", "", NotInt);
    var b := ORIGIN + queryType + query;
    assert url[|b|..] == "";
    assert url == url[..|b|] + url[|b|..];
  }

  /** The comment request of funcs.py:77, 90 and 101 for one batch of IDs. */
  function CommentUrl(batch: string, cmtField: string): (url: string)
    ensures ORIGIN + "comment/search/?ids=" + batch <= url
    ensures |url| == 52 + |batch| + (if cmtField != "" then 8 + |cmtField| else 0)
  {
    CommentUrlParts(batch, cmtField);
    GetPushshiftUrl(true, "ids=" + batch, "comment", cmtField, "", NotInt)
  }

  /** The prefix and the length of a comment request URL, from those of any search URL. */
  lemma CommentUrlParts(batch: string, cmtField: string)
    ensures var url := GetPushshiftUrl(true, "ids=" + batch, "comment", cmtField, "", NotInt);
      && ORIGIN + "comment/search/?ids=" + batch <= url
      && |url| == 52 + |batch| + (if cmtField != "" then 8 + |cmtField| else 0)
  {
    var query := "ids=" + batch;
    var base := Base(true, query, "comment");
    assert base == ORIGIN + "comment" + "/search/?" + query;
    assert ORIGIN + "comment" + "/search/?" + query == ORIGIN + "comment/search/?ids=" + batch by {
      assert "comment" + "/search/?" + "ids=" == "comment/search/?ids=";
    }
    assert |base| == 52 + |batch|;
    UrlLength(true, query, "comment", cmtField, "", NotInt);
    SearchUrlPrefix(query, "comment", cmtField, "", NotInt);
  }

  /** The comment-ID request of funcs.py:68 for one submission. */
  function CommentIdsUrl(submissionId: string): (url: string)
    ensures url == ORIGIN + "submission" + "/comment_ids/" + submissionId
  {
    PlainDirectUrl("/comment_ids/" + submissionId, "submission");
    GetPushshiftUrl(false, "/comment_ids/" + submissionId, "submission", "", "", NotInt)
  }

  lemma DecimalHundred()
    ensures Decimal(100) == "100"
  {
    assert Decimal(1) == "1";
    assert Decimal(10) == Decimal(1) + "0";
  }

  /** The prefix and the length of the submission search URL, from the parameter lengths. */
  lemma SubmissionUrlParts(query: string, submField: string)
    ensures ORIGIN + "submission/search/?" + query <= GetPushshiftUrl(true, query, "submission", submField, "num_comments", IntArg(100))
    ensures |GetPushshiftUrl(true, query, "submission", submField, "num_comments", IntArg(100))|
         == 93 + |query| + (if submField != "" then 8 + |submField| else 0)
  {
    var base := Base(true, query, "submission");
    assert base == ORIGIN + "submission/search/?" + query;
    DecimalHundred();
    assert |SizeParam(IntArg(100))| == 9;
    assert |SortParam("num_comments")| == 33;
    UrlLength(true, query, "submission", submField, "num_comments", IntArg(100));
  }

  /** The submission search of funcs.py:57: the defaults `sort_type='num_comments'`, `query_num=100` apply. */
  function SubmissionUrl(query: string, submField: string): (url: string)
    ensures ORIGIN + "submission/search/?" + query <= url
    ensures |url| == 93 + |query| + (if submField != "" then 8 + |submField| else 0)
  {
    SubmissionUrlParts(query, submField);
    GetPushshiftUrl(true, query, "submission", submField, "num_comments", IntArg(100))
  }
}
