/** The page middleware of reference-files/middleware.ts: public paths pass, other paths need a
    signed-in user, and paths under /admin need an OWNER. */
module PageGate {
  import opened Common
  import opened Text
  import opened ApiAuth

  datatype Decision = Next | RedirectToLogin(callbackUrl: string) | RedirectToQuery

  const ASSET_SUFFIXES := [".svg", ".png", ".jpg", ".ico", ".css", ".js"]
  const PUBLIC_PREFIXES := ["/api/auth", "/api/health", "/_next", "/favicon"]

  /** `/\.(svg|png|jpg|ico|css|js)$/`: the path ends with one of the asset extensions. */
  predicate IsAsset(path: string) {
    exists i :: 0 <= i < |ASSET_SUFFIXES| && EndsWith(path, ASSET_SUFFIXES[i])
  }

  predicate HasPublicPrefix(path: string) {
    exists i :: 0 <= i < |PUBLIC_PREFIXES| && StartsWith(path, PUBLIC_PREFIXES[i])
  }

  predicate IsPublic(path: string) {
    path == "/" || path == "/login" || HasPublicPrefix(path) || IsAsset(path)
  }

  /** The middleware's chain of tests. */
  function Gate(path: string, user: Option<SessionUser>): (d: Decision)
    ensures IsPublic(path) ==> d == Next
    ensures !IsPublic(path) && user.None? ==> d == RedirectToLogin(path)
    ensures d == RedirectToQuery <==>
      !IsPublic(path) && user.Some? && StartsWith(path, "/admin") && user.value.role != Owner
    ensures d == Next <==>
      IsPublic(path) || (user.Some? && !(StartsWith(path, "/admin") && user.value.role != Owner))
  {
    if IsPublic(path) then Next
    else if user.None? then RedirectToLogin(path)
    else if StartsWith(path, "/admin") && user.value.role != Owner then RedirectToQuery
    else Next
  }

  /** The public prefixes are plain prefixes: anything that extends them is public, such as
      "/api/authors". */
  lemma PublicPrefixesArePlain(rest: string)
    ensures Gate("/api/auth" + rest, None) == Next
    ensures Gate("/_next" + rest, None) == Next
  {
    assert StartsWith("/api/auth" + rest, PUBLIC_PREFIXES[0]) by {
      assert ("/api/auth" + rest)[..9] == "/api/auth";
    }
    assert StartsWith("/_next" + rest, PUBLIC_PREFIXES[2]) by {
      assert ("/_next" + rest)[..6] == "/_next";
    }
  }

  /** The asset test runs before the sign-in and role tests: an asset path under /admin passes
      without a user. */
  lemma AssetsPassBeforeAuth(path: string)
    ensures Gate(path + ".js", None) == Next
    ensures Gate("/admin/" + path + ".css", None) == Next
  {
    var p := path + ".js";
    assert EndsWith(p, ASSET_SUFFIXES[5]) by {
      assert p[|p| - 3..] == ".js";
    }
    var q := "/admin/" + path + ".css";
    assert EndsWith(q, ASSET_SUFFIXES[4]) by {
      assert q[|q| - 4..] == ".css";
    }
  }

  /** A non-owner is sent away from every admin page that is not an asset, while an owner
      passes it. */
  lemma AdminNeedsOwner(rest: string, user: SessionUser)
    requires !IsPublic("/admin" + rest)
    ensures Gate("/admin" + rest, Some(user)) == (if user.role == Owner then Next else RedirectToQuery)
  {
    assert StartsWith("/admin" + rest, "/admin") by {
      assert ("/admin" + rest)[..6] == "/admin";
    }
  }
}
