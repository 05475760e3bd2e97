/**
 * The configuration dict `cfg` that both fetch routines receive and fill in
 * place with defaults (funcs.py:40-51, funcs_pushshift.py:30-33).
 */
module Config {
  import opened Wrappers
  import opened Exceptions
  import opened Frames

  type Entries = map<string, Value>

  /** `if not key in cfg.keys(): cfg.update({key: value})`. */
  function Default(m: Entries, key: string, value: Value): Entries
  {
    if key in m then m else m[key := value]
  }

  /** The keys `pushshift_fetch` gives defaults to, in the order it visits them. */
  const FETCH_KEYS: seq<string> := ["subm_field", "cmt_field", "subm_rm_dupe", "cmt_rm_dupe", "num_fetch", "path_save"]

  /** The dict after funcs.py:40-51. */
  function WithFetchDefaults(m: Entries, cwd: string): Entries
  {
    var m1 := Default(m, "subm_field", Str("id,title,selftext"));
    var m2 := Default(m1, "cmt_field", Str("body"));
    var m3 := Default(m2, "subm_rm_dupe", Str(""));
    var m4 := Default(m3, "cmt_rm_dupe", Str(""));
    var m5 := Default(m4, "num_fetch", Num(100));
    Default(m5, "path_save", Str(cwd + "/"))
  }

  /** One defaulting step adds the key if absent and changes no value already there. */
  lemma DefaultKeeps(m: Entries, key: string, value: Value)
    ensures forall k :: k in Default(m, key, value) <==> k in m || k == key
    ensures forall k :: k in m ==> Default(m, key, value)[k] == m[k]
    ensures key !in m ==> Default(m, key, value)[key] == value
  {
  }

  /**
   * funcs.py:40-51 gives each of the six keys its default only when absent;
   * present keys keep their values; no other key appears.
   */
  lemma {:induction false} FetchDefaultsOnlyWhenAbsent(m: Entries, cwd: string)
    ensures forall k :: k in WithFetchDefaults(m, cwd) <==> k in m || k in FETCH_KEYS
    ensures forall k :: k in m ==> WithFetchDefaults(m, cwd)[k] == m[k]
    ensures "subm_field" !in m ==> WithFetchDefaults(m, cwd)["subm_field"] == Str("id,title,selftext")
    ensures "cmt_field" !in m ==> WithFetchDefaults(m, cwd)["cmt_field"] == Str("body")
    ensures "subm_rm_dupe" !in m ==> WithFetchDefaults(m, cwd)["subm_rm_dupe"] == Str("")
    ensures "cmt_rm_dupe" !in m ==> WithFetchDefaults(m, cwd)["cmt_rm_dupe"] == Str("")
    ensures "num_fetch" !in m ==> WithFetchDefaults(m, cwd)["num_fetch"] == Num(100)
    ensures "path_save" !in m ==> WithFetchDefaults(m, cwd)["path_save"] == Str(cwd + "/")
  {
    FetchDefaultsKeys(m, cwd);
    FetchDefaultsValues(m, cwd);
  }

  /** The keys after funcs.py:40-51, and the values already present. */
  lemma FetchDefaultsKeys(m: Entries, cwd: string)
    ensures forall k :: k in WithFetchDefaults(m, cwd) <==> k in m || k in FETCH_KEYS
    ensures forall k :: k in m ==> WithFetchDefaults(m, cwd)[k] == m[k]
  {
    var keys := {"subm_field", "cmt_field", "subm_rm_dupe", "cmt_rm_dupe", "num_fetch", "path_save"};
    FetchDefaultsKeySet(m, cwd);
    forall k ensures k in FETCH_KEYS <==> k in keys {
      assert FETCH_KEYS[0] == "subm_field" && FETCH_KEYS[5] == "path_save";
    }
    FetchDefaultsKeepValues(m, cwd);
  }

  /** The six keys are added to whatever keys were there. */
  lemma FetchDefaultsKeySet(m: Entries, cwd: string)
    ensures WithFetchDefaults(m, cwd).Keys
         == m.Keys + {"subm_field", "cmt_field", "subm_rm_dupe", "cmt_rm_dupe", "num_fetch", "path_save"}
  {
  }

  /** No value already present is overwritten. */
  lemma FetchDefaultsKeepValues(m: Entries, cwd: string)
    ensures forall k :: k in m ==> WithFetchDefaults(m, cwd)[k] == m[k]
  {
  }

  /** The default each absent key receives at funcs.py:40-51. */
  lemma FetchDefaultsValues(m: Entries, cwd: string)
    ensures "subm_field" !in m ==> WithFetchDefaults(m, cwd)["subm_field"] == Str("id,title,selftext")
    ensures "cmt_field" !in m ==> WithFetchDefaults(m, cwd)["cmt_field"] == Str("body")
    ensures "subm_rm_dupe" !in m ==> WithFetchDefaults(m, cwd)["subm_rm_dupe"] == Str("")
    ensures "cmt_rm_dupe" !in m ==> WithFetchDefaults(m, cwd)["cmt_rm_dupe"] == Str("")
    ensures "num_fetch" !in m ==> WithFetchDefaults(m, cwd)["num_fetch"] == Num(100)
    ensures "path_save" !in m ==> WithFetchDefaults(m, cwd)["path_save"] == Str(cwd + "/")
  {
  }

  /** The keys `fetch_data` gives defaults to. */
  const DATA_KEYS: set<string> := {"rm_dupe", "path_save"}

  /**
   * The dict after funcs_pushshift.py:30-33: `rm_dupe` defaults to `''` and
   * `path_save` to the working directory plus `/`, each only when absent.
   */
  function WithDataDefaults(m: Entries, cwd: string): (r: Entries)
    ensures r.Keys == m.Keys + DATA_KEYS
    ensures forall k :: k in m ==> r[k] == m[k]
    ensures "rm_dupe" !in m ==> r["rm_dupe"] == Str("")
    ensures "path_save" !in m ==> r["path_save"] == Str(cwd + "/")
  {
    Default(Default(m, "rm_dupe", Str("")), "path_save", Str(cwd + "/"))
  }

  /** Filling the defaults twice is the same as filling them once. */
  lemma FetchDefaultsIdempotent(m: Entries, cwd: string)
    ensures WithFetchDefaults(WithFetchDefaults(m, cwd), cwd) == WithFetchDefaults(m, cwd)
  {
  }

  lemma DataDefaultsIdempotent(m: Entries, cwd: string)
    ensures WithDataDefaults(WithDataDefaults(m, cwd), cwd) == WithDataDefaults(m, cwd)
  {
  }

  /** `save_suffix` has no default: if the caller leaves it out, it stays out. */
  lemma SaveSuffixNeverDefaulted(m: Entries, cwd: string)
    ensures ("save_suffix" in WithFetchDefaults(m, cwd)) == ("save_suffix" in m)
    ensures ("save_suffix" in WithDataDefaults(m, cwd)) == ("save_suffix" in m)
  {
  }

  /** `cfg[key]`, raising KeyError for a missing key. */
  function Lookup(m: Entries, key: string): (r: Result<Value, Exception>)
    ensures r.Ok? <==> key in m
    ensures r.Ok? ==> r.value == m[key]
  {
    if key in m then Ok(m[key]) else Err(KeyError(key))
  }

  /** `cfg[key]` used where Python needs a `str`: KeyError when missing, TypeError when not a string. */
  function LookupString(m: Entries, key: string): (r: Result<string, Exception>)
    ensures r.Ok? <==> key in m && m[key].Str?
    ensures r.Ok? ==> m[key] == Str(r.value)
  {
    if key !in m then Err(KeyError(key))
    else if m[key].Str? then Ok(m[key].s)
    else Err(TypeError("can only concatenate str (not \"int\") to str"))
  }

  /** The dict object itself, which the fetch routines update in place. */
  class Settings {
    var entries: Entries

    constructor (entries: Entries)
      ensures this.entries == entries
    {
      this.entries := entries;
    }

    /** `if not key in cfg.keys(): cfg.update({key: value})`. */
    method FillDefault(key: string, value: Value)
      modifies this
      ensures entries == Default(old(entries), key, value)
    {
      if key !in entries {
        entries := entries[key := value];
      }
    }

    /** funcs.py:40-51. */
    method FillFetchDefaults(cwd: string)
      modifies this
      ensures entries == WithFetchDefaults(old(entries), cwd)
    {
      FillDefault("subm_field", Str("id,title,selftext"));
      FillDefault("cmt_field", Str("body"));
      FillDefault("subm_rm_dupe", Str(""));
      FillDefault("cmt_rm_dupe", Str(""));
      FillDefault("num_fetch", Num(100));
      FillDefault("path_save", Str(cwd + "/"));
    }

    /** funcs_pushshift.py:30-33. */
    method FillDataDefaults(cwd: string)
      modifies this
      ensures entries == WithDataDefaults(old(entries), cwd)
    {
      FillDefault("rm_dupe", Str(""));
      FillDefault("path_save", Str(cwd + "/"));
    }
  }
}
