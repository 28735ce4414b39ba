/** The path arithmetic of `IridaConnector`: how the base URL is normalised
    and how a request path is joined onto the base path. The HTTP session
    is not modelled; `urlsplit` is given as functions from a URL to its
    scheme and to its path. */
module Connector {
  import opened Outcome

  predicate EndsWith(s: string, suffix: string) {
    |suffix| <= |s| && s[|s| - |suffix|..] == suffix
  }

  /** `s.rstrip('/')`: the longest prefix of `s` that does not end in '/'
      and leaves only '/' characters behind. */
  function RStripSlash(s: string): (r: string)
    ensures r <= s
    ensures r == [] || r[|r| - 1] != '/'
    ensures forall i :: |r| <= i < |s| ==> s[i] == '/'
  {
    if s != [] && s[|s| - 1] == '/' then RStripSlash(s[..|s| - 1]) else s
  }

  /** The `_base_path` the constructor stores: the path part of the base
      URL once its trailing slashes are gone. */
  function BasePath(baseUrl: string, urlPath: string -> string): string {
    urlPath(RStripSlash(baseUrl))
  }

  function DropLeadingSlash(p: string): string {
    if p != [] && p[0] == '/' then p[1..] else p
  }

  /** `_join_path`. A missing or empty base path and a path that carries a
      scheme leave the path as it is; otherwise the path is put under the
      base path with exactly one '/' between them. An empty path under a
      non-empty base path fails: the source reads `path[0]`. */
  function JoinPath(basePath: Option<string>, path: string, scheme: string -> string): (r: Result<string>)
    ensures basePath.None? || basePath.value == "" || scheme(path) != "" ==> r == Ok(path)
    ensures r.Err? <==> basePath.Some? && basePath.value != "" && scheme(path) == "" && path == ""
    ensures r.Ok? ==> EndsWith(r.value, path)
    ensures r.Ok? && basePath.Some? && basePath.value != "" && scheme(path) == "" ==>
              r.value == basePath.value + "/" + DropLeadingSlash(path)
  {
    if basePath.None? || basePath.value == "" then Ok(path)
    else if scheme(path) != "" then Ok(path)
    else if path == [] then Err(IndexError)
    else if path[0] == '/' then
      assert basePath.value + path == basePath.value + "/" + path[1..];
      Ok(basePath.value + path)
    else Ok(basePath.value + "/" + path)
  }

  /** A base URL given with or without trailing slashes yields the same
      base path. */
  lemma {:induction false} RStripSlashIgnoresTrailing(s: string, k: nat)
    ensures RStripSlash(s + Slashes(k)) == RStripSlash(s)
  {
    if k > 0 {
      assert (s + Slashes(k))[..|s + Slashes(k)| - 1] == s + Slashes(k - 1);
      RStripSlashIgnoresTrailing(s, k - 1);
    } else {
      assert s + Slashes(0) == s;
    }
  }

  function Slashes(k: nat): (r: string)
    ensures |r| == k && forall i :: 0 <= i < k ==> r[i] == '/'
  {
    if k == 0 then "" else Slashes(k - 1) + "/"
  }
}
