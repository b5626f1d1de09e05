/**
 * The OAuth callback (app/auth/callback/route.ts): the sign-in code, when
 * present, is exchanged for a session, and the browser is sent to the
 * `redirect` parameter, resolved against the application's own origin.
 */
module AuthCallback {
  import opened Wrappers
  import opened Text

  const DefaultTarget := "/participants"

  /** Where a redirect target resolved against the application origin points: a path on the
      application itself, or the authority (user information, host and port) of another site. */
  datatype Location = OnOrigin(path: string) | OffOrigin(authority: string)

  /** URL parsing treats `\` like `/` in web URLs. */
  predicate IsSlash(c: char) { c == '/' || c == '\\' }

  /** ASCII tab, line feed and carriage return: the URL parser removes them from its input wherever
      they occur, before anything else is read (WHATWG URL Standard, basic URL parser). */
  predicate IsTabOrNewline(c: char) { c == '\t' || c == '\n' || c == '\r' }

  /** The input with every tab, line feed and carriage return removed and nothing else changed. */
  function StripTabsAndNewlines(s: string): (r: string)
    ensures forall i :: 0 <= i < |r| ==> !IsTabOrNewline(r[i])
    ensures (forall i :: 0 <= i < |s| ==> !IsTabOrNewline(s[i])) ==> r == s
    ensures s != [] && !IsTabOrNewline(s[0]) ==> r != [] && r[0] == s[0]
  {
    if s == [] then []
    else
      var rest := StripTabsAndNewlines(s[1..]);
      assert s == [s[0]] + s[1..];
      if IsTabOrNewline(s[0]) then rest else [s[0]] + rest
  }

  /** Stripping removes the tabs and newlines and keeps every other character as often as it occurs. */
  lemma {:induction false} StripKeepsOthers(s: string)
    ensures forall c :: multiset(StripTabsAndNewlines(s))[c] == if IsTabOrNewline(c) then 0 else multiset(s)[c]
  {
    if s != [] {
      StripKeepsOthers(s[1..]);
      assert s == [s[0]] + s[1..];
    }
  }

  /** The characters that end an authority: a slash, `?` or `#`. */
  predicate EndsAuthority(c: char) { IsSlash(c) || c == '?' || c == '#' }

  /** The authority of a scheme-relative reference: everything up to the first slash, `?` or `#`. */
  function Authority(s: string): (a: string)
    ensures |a| <= |s| && a == s[..|a|]
    ensures forall i :: 0 <= i < |a| ==> !EndsAuthority(a[i])
    ensures |a| < |s| ==> EndsAuthority(s[|a|])
  {
    if s == [] || EndsAuthority(s[0]) then "" else [s[0]] + Authority(s[1..])
  }

  /** A host name with no slash, `?` or `#` is its own authority. */
  lemma {:induction false} AuthorityOfHost(s: string)
    requires forall i :: 0 <= i < |s| ==> !EndsAuthority(s[i])
    ensures Authority(s) == s
  {
    if s != [] {
      AuthorityOfHost(s[1..]);
    }
  }

  /** Further slashes after the first two are skipped before the authority starts. */
  function SkipSlashes(s: string): (r: string)
    ensures |r| <= |s| && r == s[|s| - |r|..]
    ensures r == [] || !IsSlash(r[0])
    ensures forall i :: 0 <= i < |s| - |r| ==> IsSlash(s[i])
  {
    if s != [] && IsSlash(s[0]) then SkipSlashes(s[1..]) else s
  }

  /** `new URL(target, origin)` for a target starting with a slash. Tabs and newlines are dropped
      first; then a second slash makes the target a scheme-relative reference to another site,
      and otherwise it is a path on the application origin. */
  function Resolve(target: string): (loc: Location)
    requires StartsWith(target, "/")
    ensures var t := StripTabsAndNewlines(target);
      && (loc.OnOrigin? <==> !(|t| >= 2 && IsSlash(t[1])))
      && (loc.OnOrigin? ==> loc.path == t)
    ensures (forall i :: 0 <= i < |target| ==> !IsTabOrNewline(target[i])) ==>
      (loc.OnOrigin? <==> !(|target| >= 2 && IsSlash(target[1])))
  {
    var t := StripTabsAndNewlines(target);
    if |t| >= 2 && IsSlash(t[1]) then OffOrigin(Authority(SkipSlashes(t[2..]))) else OnOrigin(t)
  }

  /** A target with no tab or newline whose second character is not a slash is a path on the
      application origin, unchanged. */
  lemma PathStaysHome(p: string)
    requires |p| >= 2 && p[0] == '/' && !IsSlash(p[1])
    requires forall i :: 0 <= i < |p| ==> !IsTabOrNewline(p[i])
    ensures StartsWith(p, "/") && Resolve(p) == OnOrigin(p)
  {
  }

  /** The default target is a path on the application origin. */
  lemma DefaultTargetStaysHome()
    ensures StartsWith(DefaultTarget, "/") && Resolve(DefaultTarget) == OnOrigin(DefaultTarget)
  {
    var p := DefaultTarget;
    assert forall i :: 0 <= i < |p| ==> !IsTabOrNewline(p[i]);
    PathStaysHome(p);
  }

  /** `safeRedirect` as written: any non-empty parameter starting with `/` is used. */
  function SafeRedirect(redirect: Option<string>): (target: string)
    ensures StartsWith(target, "/")
    ensures redirect.Some? && StartsWith(redirect.value, "/") ==> target == redirect.value
    ensures !(redirect.Some? && StartsWith(redirect.value, "/")) ==> target == DefaultTarget
  {
    if redirect.Some? && redirect.value != "" && StartsWith(redirect.value, "/") then redirect.value else DefaultTarget
  }

  /** A target starting with a slash whose stripped form is `//host`, for a host with no slash,
      `?` or `#`, leaves the origin for that host. */
  lemma ResolveToHost(u: string, host: string)
    requires StartsWith(u, "/") && StripTabsAndNewlines(u) == "//" + host
    requires forall i :: 0 <= i < |host| ==> !EndsAuthority(host[i])
    ensures Resolve(u) == OffOrigin(host)
  {
    assert ("//" + host)[2..] == host;
    AuthorityOfHost(host);
  }

  /** Stripping leaves `//host` unchanged, and drops a tab or newline placed between its two slashes. */
  lemma StripBetweenSlashes(u: string, c: char, host: string)
    requires IsTabOrNewline(c) && u == ['/', c, '/'] + host
    requires forall i :: 0 <= i < |host| ==> !IsTabOrNewline(host[i])
    ensures StripTabsAndNewlines("//" + host) == "//" + host
    ensures StripTabsAndNewlines(u) == "//" + host
  {
    var t := "//" + host;
    assert u[1..][1..] == u[2..] == t[1..];
    assert forall i :: 0 <= i < |t| ==> !IsTabOrNewline(t[i]) by {
      assert forall i :: 2 <= i < |t| ==> t[i] == host[i - 2];
    }
    assert StripTabsAndNewlines(t[1..]) == t[1..];
    assert StripTabsAndNewlines(u[1..]) == StripTabsAndNewlines(t[1..]);
    assert StripTabsAndNewlines(u) == [u[0]] + StripTabsAndNewlines(u[1..]);
  }

  /** As written, `?redirect=//evil.example`, and `?redirect=/%09/evil.example` with a tab (or a
      newline) between the slashes, pass the check and send the signed-in user to another site. */
  lemma SafeRedirectLeavesOrigin(host: string, c: char)
    requires IsTabOrNewline(c)
    requires forall i :: 0 <= i < |host| ==> !EndsAuthority(host[i]) && !IsTabOrNewline(host[i])
    ensures SafeRedirect(Some("//" + host)) == "//" + host
    ensures Resolve("//" + host) == OffOrigin(host)
    ensures SafeRedirect(Some(['/', c, '/'] + host)) == ['/', c, '/'] + host
    ensures Resolve(['/', c, '/'] + host) == OffOrigin(host)
  {
    StripBetweenSlashes(['/', c, '/'] + host, c, host);
    ResolveToHost("//" + host, host);
    ResolveToHost(['/', c, '/'] + host, host);
  }

  /** The evidently intended check: a parameter is used only when it resolves to a path on the
      application's own origin. */
  function SameOriginRedirect(redirect: Option<string>): (target: string)
    ensures StartsWith(target, "/")
    ensures Resolve(target).OnOrigin?
    ensures redirect.Some? && StartsWith(redirect.value, "/") && Resolve(redirect.value).OnOrigin?
      ==> target == redirect.value
    ensures target != DefaultTarget ==> redirect == Some(target)
  {
    DefaultTargetStaysHome();
    if redirect.Some? && redirect.value != "" && StartsWith(redirect.value, "/") && Resolve(redirect.value).OnOrigin?
    then redirect.value
    else DefaultTarget
  }

  /** The corrected target always stays on the application origin, and differs from the
      as-written one only where that one leaves it. */
  lemma SameOriginRedirectStaysHome(redirect: Option<string>)
    ensures Resolve(SameOriginRedirect(redirect)).OnOrigin?
    ensures Resolve(SafeRedirect(redirect)).OnOrigin? ==> SameOriginRedirect(redirect) == SafeRedirect(redirect)
  {
    DefaultTargetStaysHome();
  }

  /** The corrected check refuses both open redirects and falls back to the default target. */
  lemma SameOriginRedirectRefuses(host: string, c: char)
    requires IsTabOrNewline(c)
    requires forall i :: 0 <= i < |host| ==> !EndsAuthority(host[i]) && !IsTabOrNewline(host[i])
    ensures SameOriginRedirect(Some("//" + host)) == DefaultTarget
    ensures SameOriginRedirect(Some(['/', c, '/'] + host)) == DefaultTarget
  {
    SafeRedirectLeavesOrigin(host, c);
  }

  /** What the callback does: the code exchanged for a session, if any, and where it redirects. */
  datatype CallbackOutcome = CallbackOutcome(exchangedCode: Option<string>, location: Location)

  /** `GET`, with the corrected redirect check. */
  function Callback(code: Option<string>, redirect: Option<string>): (r: CallbackOutcome)
    ensures r.exchangedCode.Some? <==> code.Some? && code.value != ""
    ensures r.exchangedCode.Some? ==> r.exchangedCode == code
    ensures r.location.OnOrigin?
    ensures redirect.None? ==> r.location == OnOrigin(DefaultTarget)
  {
    var target := SameOriginRedirect(redirect);
    DefaultTargetStaysHome();
    assert redirect.None? ==> target == DefaultTarget;
    CallbackOutcome(if code.Some? && code.value != "" then code else None, Resolve(target))
  }
}
