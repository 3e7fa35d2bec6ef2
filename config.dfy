/**
 * The API base URL the frontend talks to: the first non-empty of four build variables, or the
 * local development server when none is set, with any trailing slashes removed.
 */
module Config {
  import opened Api

  /** The build environment; an unset variable is None. */
  datatype Env = Env(viteApiBase: Option<string>, viteApiUrl: Option<string>, viteBackendUrl: Option<string>,
                     apiBase: Option<string>, dev: bool)

  /** A variable counts as set when it is defined and not the empty string. */
  predicate Truthy(v: Option<string>) {
    v.Some? && v.value != ""
  }

  /** JavaScript's `a || b`: `a` when it is truthy, otherwise `b`. */
  function Or(a: Option<string>, b: Option<string>): Option<string> {
    if Truthy(a) then a else b
  }

  /** `VITE_API_BASE || VITE_API_URL || VITE_BACKEND_URL || API_BASE`. */
  function ConfiguredBase(env: Env): (r: Option<string>)
    ensures Truthy(r) <==> Truthy(env.viteApiBase) || Truthy(env.viteApiUrl) || Truthy(env.viteBackendUrl) || Truthy(env.apiBase)
    ensures Truthy(env.viteApiBase) ==> r == env.viteApiBase
    ensures !Truthy(env.viteApiBase) && Truthy(env.viteApiUrl) ==> r == env.viteApiUrl
    ensures !Truthy(env.viteApiBase) && !Truthy(env.viteApiUrl) && Truthy(env.viteBackendUrl) ==> r == env.viteBackendUrl
    ensures !Truthy(env.viteApiBase) && !Truthy(env.viteApiUrl) && !Truthy(env.viteBackendUrl) ==> r == env.apiBase
  {
    Or(Or(Or(env.viteApiBase, env.viteApiUrl), env.viteBackendUrl), env.apiBase)
  }

  const FallbackBase: string := "http://localhost:8000"

  /** `.replace(/\/+$/, "")`: the longest prefix that does not end in a slash. */
  function StripTrailingSlashes(s: string): (r: string)
    ensures |r| <= |s| && r == s[..|r|]
    ensures |r| == 0 || r[|r| - 1] != '/'
    ensures forall i :: |r| <= i < |s| ==> s[i] == '/'
  {
    if |s| > 0 && s[|s| - 1] == '/' then StripTrailingSlashes(s[..|s| - 1]) else s
  }

  /** The three properties above pin the result down: any prefix with them is the stripped text. */
  lemma StripUnique(s: string, t: string)
    requires |t| <= |s| && t == s[..|t|]
    requires |t| == 0 || t[|t| - 1] != '/'
    requires forall i :: |t| <= i < |s| ==> s[i] == '/'
    ensures t == StripTrailingSlashes(s)
  {
    var r := StripTrailingSlashes(s);
    assert |t| == |r|;
  }

  /** Stripping twice strips nothing more. */
  lemma StripIdempotent(s: string)
    ensures StripTrailingSlashes(StripTrailingSlashes(s)) == StripTrailingSlashes(s)
  {
    var r := StripTrailingSlashes(s);
    StripUnique(r, r);
  }

  /** Appending slashes to a URL does not change the base it yields. */
  lemma StripIgnoresAddedSlashes(s: string, slashes: string)
    requires forall i :: 0 <= i < |slashes| ==> slashes[i] == '/'
    ensures StripTrailingSlashes(s + slashes) == StripTrailingSlashes(s)
  {
    var r := StripTrailingSlashes(s);
    assert (s + slashes)[..|r|] == s[..|r|];
    StripUnique(s + slashes, r);
  }

  /** `API_BASE`. */
  function ApiBase(env: Env): (base: string)
    ensures Truthy(ConfiguredBase(env)) ==> base == StripTrailingSlashes(ConfiguredBase(env).value)
    ensures !Truthy(ConfiguredBase(env)) ==> base == FallbackBase
    ensures |base| == 0 || base[|base| - 1] != '/'
  {
    var configured := ConfiguredBase(env);
    StripUnique(FallbackBase, FallbackBase);
    StripTrailingSlashes(if Truthy(configured) then configured.value else FallbackBase)
  }

  /** The development build warns exactly when no variable is set. */
  predicate WarnsOfFallback(env: Env): (warns: bool)
    ensures warns <==> env.dev && !Truthy(env.viteApiBase) && !Truthy(env.viteApiUrl) && !Truthy(env.viteBackendUrl) && !Truthy(env.apiBase)
  {
    !Truthy(ConfiguredBase(env)) && env.dev
  }

  /** With no variable set, the base is the local development server. */
  lemma UnsetUsesFallback(env: Env)
    requires !Truthy(env.viteApiBase) && !Truthy(env.viteApiUrl) && !Truthy(env.viteBackendUrl) && !Truthy(env.apiBase)
    ensures ApiBase(env) == "http://localhost:8000"
  {
    StripUnique(FallbackBase, FallbackBase);
  }

  /** When the development build warns, it is because the fallback is in use. */
  lemma WarningMeansFallback(env: Env)
    ensures WarnsOfFallback(env) ==> ApiBase(env) == FallbackBase
  {
    StripUnique(FallbackBase, FallbackBase);
  }

  /** A set variable is used as written, minus trailing slashes, and never ends in a slash. */
  lemma ConfiguredIsUsed(env: Env)
    requires Truthy(env.viteApiBase)
    ensures ApiBase(env) == StripTrailingSlashes(env.viteApiBase.value)
    ensures |ApiBase(env)| == 0 || ApiBase(env)[|ApiBase(env)| - 1] != '/'
  {
  }
}
