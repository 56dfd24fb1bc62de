/** `src/lib/apiConfig.ts`: the API base URL, full endpoint URLs and request headers.
 *  The environment variable is a parameter; `fetchApi`'s request itself is I/O. */
module ApiConfig {
  import opened Wrappers
  import opened Strings

  const LiveServer: string := "https://www.harmoniqfengshui.com"

  /** JavaScript truthiness of an optional string: present and non-empty. */
  predicate Truthy(s: Option<string>)
  {
    s.Some? && s.value != ""
  }

  /** `getApiBaseUrl`: `NEXT_PUBLIC_API_BASE_URL || LIVE`. */
  function ApiBaseUrl(env: Option<string>): (r: string)
    ensures Truthy(env) ==> r == env.value
    ensures !Truthy(env) ==> r == LiveServer
    ensures r != ""
  {
    if Truthy(env) then env.value else LiveServer
  }

  /** `getApiUrl`: the base followed by the path, with a leading `/` added when missing.
   *  The part after the base always starts with a slash: the caller's own, or one that
   *  was added in front of the caller's path. */
  function GetApiUrl(env: Option<string>, path: string): (r: string)
    ensures var base := ApiBaseUrl(env);
      |r| > |base| && r[..|base|] == base && r[|base|] == '/' &&
      (StartsWith(path, "/") ==> r[|base|..] == path) &&
      (!StartsWith(path, "/") ==> r[|base|..] == "/" + path)
  {
    ApiBaseUrl(env) + (if StartsWith(path, "/") then path else "/" + path)
  }

  /** `buildApiUrl` delegates to `getApiUrl`. */
  function BuildApiUrl(env: Option<string>, endpoint: string): (r: string)
    ensures r == GetApiUrl(env, endpoint)
  {
    GetApiUrl(env, endpoint)
  }

  /** Normalising a path that was already normalised changes nothing, and two paths that
   *  differ only by the leading slash give the same URL. */
  lemma GetApiUrlIdempotent(env: Option<string>, path: string)
    ensures var base := ApiBaseUrl(env);
      GetApiUrl(env, GetApiUrl(env, path)[|base|..]) == GetApiUrl(env, path)
    ensures GetApiUrl(env, "/" + path) == GetApiUrl(env, path) <==> StartsWith(path, "/") == false
  {
    var base := ApiBaseUrl(env);
    var rest := GetApiUrl(env, path)[|base|..];
    assert StartsWith(rest, "/");
    assert StartsWith("/" + path, "/");
  }

  /** `{"Content-Type": "application/json", ...options?.headers}`. */
  function Headers(caller: Option<map<string, string>>): (r: map<string, string>)
    ensures "Content-Type" in r
    ensures caller.Some? ==> forall k :: k in caller.value ==> k in r && r[k] == caller.value[k]
    ensures caller.None? || "Content-Type" !in caller.value ==> r["Content-Type"] == "application/json"
    ensures r.Keys == {"Content-Type"} + (if caller.Some? then caller.value.Keys else {})
  {
    map["Content-Type" := "application/json"] + (if caller.Some? then caller.value else map[])
  }
}
