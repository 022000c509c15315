/**
 * The request gate in front of the admin pages (middleware.ts): paths under
 * "/admin", except the login page, need a non-empty `admin_authenticated`
 * cookie.
 */
module Middleware {
  import opened Wrappers
  import CombosRoute

  datatype Decision = PassThrough | RedirectToLogin

  const ADMIN_PREFIX: string := "/admin"
  const LOGIN_PATH: string := "/admin/login"

  /** `s.startsWith(prefix)`. */
  predicate StartsWith(s: string, prefix: string) {
    |prefix| <= |s| && s[..|prefix|] == prefix
  }

  /** `middleware(request)`, given the path and the value of the cookie if it is set. */
  function Gate(path: string, cookie: Option<string>): (d: Decision)
    ensures !StartsWith(path, ADMIN_PREFIX) ==> d == PassThrough
    ensures path == LOGIN_PATH ==> d == PassThrough
    ensures StartsWith(path, ADMIN_PREFIX) && path != LOGIN_PATH ==>
      (d == RedirectToLogin <==> cookie.None? || cookie.value == "")
  {
    if StartsWith(path, ADMIN_PREFIX) then
      if path == LOGIN_PATH then PassThrough
      else if cookie.None? || cookie.value == "" then RedirectToLogin
      else PassThrough
    else PassThrough
  }

  /** A request is let through exactly when it is outside "/admin", is the login page, or carries a non-empty cookie. */
  lemma PassesIff(path: string, cookie: Option<string>)
    ensures Gate(path, cookie) == PassThrough <==>
      !StartsWith(path, ADMIN_PREFIX) || path == LOGIN_PATH || (cookie.Some? && cookie.value != "")
  {
  }

  /** The prefix test is textual: "/administrator" is gated too, and "/Admin" is not. */
  lemma PrefixIsTextual()
    ensures Gate("/administrator", None) == RedirectToLogin
    ensures Gate("/Admin/orders", None) == PassThrough
    ensures Gate("/admin/login", None) == PassThrough
  {
    assert "/administrator"[..6] == ADMIN_PREFIX;
    assert "/admin/login"[..6] == ADMIN_PREFIX;
    assert "/Admin/orders"[..6][1] != ADMIN_PREFIX[1];
  }

  /**
   * A cookie that is set but empty is refused by the gate, while the combo
   * API, which only asks whether the cookie is present, accepts it.
   */
  lemma EmptyCookieGateVersusApi(path: string)
    requires StartsWith(path, ADMIN_PREFIX) && path != LOGIN_PATH
    ensures Gate(path, Some("")) == RedirectToLogin
    ensures CombosRoute.HasAdminCookie(Some(""))
  {
  }
}
