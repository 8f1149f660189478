/** Database URL normalisation and engine options (app/database.py). */
module Database {
  import opened Wrappers

  const LegacyScheme: string := "postgres://"
  const Scheme: string := "postgresql://"

  /** `DATABASE_URL.replace("postgres://", "postgresql://", 1)` when the URL starts with the legacy scheme. */
  function RewriteUrl(url: string): (r: string)
    ensures LegacyScheme <= url ==> r == Scheme + url[|LegacyScheme|..]
    ensures !(LegacyScheme <= url) ==> r == url
    ensures !(LegacyScheme <= r)
  {
    if LegacyScheme <= url then
      var r := Scheme + url[|LegacyScheme|..];
      assert r[8] == 'q' != LegacyScheme[8];
      r
    else url
  }

  /** Rewriting an already rewritten URL changes nothing. */
  lemma RewriteUrlIdempotent(url: string)
    ensures RewriteUrl(RewriteUrl(url)) == RewriteUrl(url)
  {
  }

  /** The keyword arguments passed to `create_engine`. */
  datatype EngineKwargs = EngineKwargs(
    poolPrePing: bool,
    checkSameThread: Option<bool>,
    poolSize: Option<int>,
    maxOverflow: Option<int>)

  /** Builds `engine_kwargs` for the rewritten URL one key at a time, as the module does. */
  method EngineKwargsFor(url: string) returns (k: EngineKwargs)
    ensures k.poolPrePing
    ensures "sqlite" <= url ==> k.checkSameThread == Some(false) && k.poolSize.None? && k.maxOverflow.None?
    ensures !("sqlite" <= url) ==> k.checkSameThread.None? && k.poolSize == Some(10) && k.maxOverflow == Some(20)
  {
    k := EngineKwargs(poolPrePing := true, checkSameThread := None, poolSize := None, maxOverflow := None);
    if "sqlite" <= url {
      k := k.(checkSameThread := Some(false));
    } else {
      k := k.(poolSize := Some(10));
      k := k.(maxOverflow := Some(20));
    }
  }
}
