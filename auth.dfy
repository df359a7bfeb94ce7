/** The authentication gate of the adapter (src/index.ts:62-126): the
    session record with its two well-known keys, the `preHandler` guard,
    the login form, login submission and logout, first as pure transitions
    on a session value and then as a `Session` object whose fields the
    request handlers assign in place. */
module Auth {
  import opened Wrappers
  import opened Text
  import opened Js
  import opened Routes

  /** The two keys the adapter reads and writes in a session. */
  datatype SessionState = SessionState(adminUser: JsValue, redirectTo: Option<string>)

  /** A session that holds neither key. */
  const FreshSession := SessionState(Undefined, None)

  /** The arguments given to `admin.renderLogin`; the rendered HTML itself
      is AdminJS's business. */
  datatype LoginView = LoginView(action: string, errorMessage: Option<string>)

  /** What a handler of the gate sends back. */
  datatype Reply =
    | Redirect(status: nat, location: string)
    | Page(contentType: string, view: LoginView)
    | PlainText(status: nat, body: string)
    | NoResponse

  /** What the `preHandler` hook does with a request: hand it on with
      `next()`, or answer it itself. */
  datatype HookResult = Continue | Halt(reply: Reply)

  /** The session after a handler ran, and what the handler produced. */
  datatype Step<R> = Step(session: SessionState, result: R)

  /** The gate's events, for reasoning about sequences of requests. */
  datatype Event =
    | Request(url: string)
    | SubmitLogin(principal: JsValue)
    | Logout(destroyFails: bool)

  const ActionsMarker := "/actions"
  const InvalidCredentials := "invalidCredentials"
  const InternalServerError := "Internal Server Error"

  /** `reply.redirect(url)` without a status code answers with 302. */
  const Found := 302

  /** `AdminRouter.assets.find((asset) => req.url.match(asset.path))`: the
      first asset whose path pattern `matches` the URL. The regular
      expression match is left abstract. */
  function FindAsset(url: string, assets: seq<AssetDescriptor>, matches: (string, string) -> bool): (r: Option<nat>)
    ensures r.Some? ==> r.value < |assets| && matches(url, assets[r.value].path)
    ensures r.Some? ==> forall i :: 0 <= i < r.value ==> !matches(url, assets[i].path)
    ensures r.None? <==> forall i :: 0 <= i < |assets| ==> !matches(url, assets[i].path)
  {
    if assets == [] then None
    else if matches(url, assets[0].path) then Some(0)
    else
      match FindAsset(url, assets[1..], matches)
      case None => None
      case Some(i) => Some(i + 1)
  }

  /** The pending-redirect value the guard stores for `url`: the part of
      the URL before the first `/actions`, or `rootPath` when that part
      mentions `rootPath + "/api"`. */
  function RedirectTarget(url: string, rootPath: string): (t: string)
    ensures t == rootPath || IsPrefix(t, url)
  {
    var head := SplitHead(url, ActionsMarker);
    if Contains(head, rootPath + "/api") then rootPath else head
  }

  /** The three ways a request passes the guard. */
  predicate Admitted(s: SessionState, url: string, assetHit: bool, options: AdminOptions) {
    assetHit || Truthy(s.adminUser) || IsPrefix(options.loginPath, url) || IsPrefix(options.logoutPath, url)
  }

  /** The `preHandler` hook (lines 108-126). */
  function Guard(s: SessionState, url: string, assets: seq<AssetDescriptor>,
                 matches: (string, string) -> bool, options: AdminOptions): (g: Step<HookResult>)
    ensures g.session.adminUser == s.adminUser
    ensures g.result == Continue ==> g.session == s
    ensures g.result != Continue ==> g.session.redirectTo.Some? && g.result.Halt? && g.result.reply.Redirect?
  {
    if FindAsset(url, assets, matches).Some? then
      Step(s, Continue)
    else if Truthy(s.adminUser) || IsPrefix(options.loginPath, url) || IsPrefix(options.logoutPath, url) then
      Step(s, Continue)
    else
      Step(s.(redirectTo := Some(RedirectTarget(url, options.rootPath))), Halt(Redirect(Found, options.loginPath)))
  }

  /** GET on the login path (lines 63-69). */
  function LoginFormPage(options: AdminOptions): (r: Reply)
    ensures r.Page? && r.contentType == "text/html"
    ensures r.Page? ==> r.view.action == options.loginPath && r.view.errorMessage.None?
  {
    Page("text/html", LoginView(options.loginPath, None))
  }

  /** Where a successful login goes: `if (req.session.redirectTo)` tests
      truthiness, so an empty pending redirect counts as none. */
  function LoginTarget(redirectTo: Option<string>, rootPath: string): string {
    if redirectTo.Some? && redirectTo.value != "" then redirectTo.value else rootPath
  }

  /** POST on the login path (lines 71-91), given what `authenticate`
      resolved to for the submitted email and password. */
  function Login(s: SessionState, principal: JsValue, options: AdminOptions): (step: Step<Reply>)
    ensures step.session.redirectTo == s.redirectTo
    ensures Truthy(step.session.adminUser) <==> Truthy(principal) || Truthy(s.adminUser)
    ensures !Truthy(principal) ==> step.session == s
  {
    if Truthy(principal) then
      Step(s.(adminUser := principal), Redirect(Found, LoginTarget(s.redirectTo, options.rootPath)))
    else
      Step(s, Page("text/html", LoginView(options.loginPath, Some(InvalidCredentials))))
  }

  /** GET on the logout path (lines 94-105), given whether the session
      store reports an error while destroying the session. Without a user
      the handler sends nothing at all. */
  function LogoutStep(s: SessionState, destroyFails: bool, options: AdminOptions): (step: Step<Reply>)
    ensures step.result == NoResponse <==> !Truthy(s.adminUser)
    ensures step.session == s || step.session == FreshSession
    ensures step.session == FreshSession <==> (Truthy(s.adminUser) && !destroyFails) || s == FreshSession
  {
    if !Truthy(s.adminUser) then
      Step(s, NoResponse)
    else if destroyFails then
      Step(s, PlainText(500, InternalServerError))
    else
      Step(FreshSession, Redirect(Found, options.loginPath))
  }

  /** The session after one event. */
  function Apply(s: SessionState, e: Event, assets: seq<AssetDescriptor>,
                 matches: (string, string) -> bool, options: AdminOptions): SessionState
  {
    match e
    case Request(url) => Guard(s, url, assets, matches, options).session
    case SubmitLogin(p) => Login(s, p, options).session
    case Logout(fails) => LogoutStep(s, fails, options).session
  }

  /** The session after a sequence of events. */
  function Run(s: SessionState, events: seq<Event>, assets: seq<AssetDescriptor>,
               matches: (string, string) -> bool, options: AdminOptions): SessionState
    decreases |events|
  {
    if events == [] then s
    else Run(Apply(s, events[0], assets, matches, options), events[1..], assets, matches, options)
  }

  /** A session holds either no user or a truthy one. */
  predicate WellFormed(s: SessionState) {
    s.adminUser == Undefined || Truthy(s.adminUser)
  }

  // ---------------------------------------------------------------------
  // The guard

  /** A request whose URL matches an asset passes whatever the session
      holds, and the session is untouched. */
  lemma AssetsAlwaysPass(s: SessionState, url: string, assets: seq<AssetDescriptor>,
                         matches: (string, string) -> bool, options: AdminOptions, k: nat)
    requires k < |assets| && matches(url, assets[k].path)
    ensures Guard(s, url, assets, matches, options) == Step(s, Continue)
  {
  }

  /** The guard passes a request exactly when it matches an asset, the
      session has a user, or the URL starts with the login or logout path;
      a passed request leaves the session as it was. Otherwise the guard
      answers with a 302 to the login path, keeps the user and records the
      redirect target. */
  lemma GuardDecision(s: SessionState, url: string, assets: seq<AssetDescriptor>,
                      matches: (string, string) -> bool, options: AdminOptions)
    ensures var hit := exists i :: 0 <= i < |assets| && matches(url, assets[i].path);
      var g := Guard(s, url, assets, matches, options);
      && (g.result == Continue <==> Admitted(s, url, hit, options))
      && (g.result == Continue ==> g.session == s)
      && (g.result != Continue ==>
            && g.result == Halt(Redirect(302, options.loginPath))
            && g.session.adminUser == s.adminUser
            && g.session.redirectTo == Some(RedirectTarget(url, options.rootPath)))
  {
    var hit := exists i :: 0 <= i < |assets| && matches(url, assets[i].path);
    var found := FindAsset(url, assets, matches);
    assert found.Some? <==> hit by {
      if found.Some? {
        assert matches(url, assets[found.value].path);
      }
    }
  }

  /** The redirect target is `rootPath` or a prefix of the URL free of
      `/actions`; it is the part of the URL before the first `/actions`
      unless that part mentions the API path; a URL with neither comes back
      whole. */
  lemma RedirectTargetFacts(url: string, rootPath: string)
    ensures var t := RedirectTarget(url, rootPath);
      t == rootPath || (IsPrefix(t, url) && !Contains(t, ActionsMarker))
    ensures var t := RedirectTarget(url, rootPath);
      t != rootPath ==>
        && !Contains(t, rootPath + "/api")
        && (t == url || OccursAt(url, ActionsMarker, |t|))
        && forall i :: 0 <= i < |t| ==> !OccursAt(url, ActionsMarker, i)
    ensures !Contains(url, ActionsMarker) && !Contains(url, rootPath + "/api") ==>
      RedirectTarget(url, rootPath) == url
  {
    SplitHeadHasNoSeparator(url, ActionsMarker);
    var head := SplitHead(url, ActionsMarker);
    if !Contains(url, ActionsMarker) && head != url {
      assert false;
    }
  }

  /** The converse of RedirectTargetFacts: a prefix of the URL that ends
      at the first `/actions` (or is the whole URL when there is none) is
      what the guard stores, unless it mentions the API path, in which case
      the admin root is stored. */
  lemma RedirectTargetIsHead(url: string, rootPath: string, p: string)
    requires IsPrefix(p, url)
    requires p == url || OccursAt(url, ActionsMarker, |p|)
    requires forall i :: 0 <= i < |p| ==> !OccursAt(url, ActionsMarker, i)
    ensures !Contains(p, rootPath + "/api") ==> RedirectTarget(url, rootPath) == p
    ensures Contains(p, rootPath + "/api") ==> RedirectTarget(url, rootPath) == rootPath
  {
    SplitHeadUnique(url, ActionsMarker, p);
  }

  /** `/actions` cannot start inside the root path and run past the `/`
      that follows it, since its only `/` is its first character. */
  lemma MarkerCannotStraddleSlash(url: string, rootPath: string, j: nat)
    requires IsPrefix(rootPath + "/", url)
    requires j < |rootPath| < j + |ActionsMarker|
    ensures !OccursAt(url, ActionsMarker, j)
  {
    assert url[|rootPath|] == (rootPath + "/")[|rootPath|] == '/';
    var k := |rootPath| - j;
    assert ActionsMarker[k] != '/';
  }

  /** When the URL is the admin root or lies below it, and the root itself
      does not contain `/actions`, the stored redirect target lies under the
      admin root too. The guard does not check this itself. */
  lemma RedirectTargetUnderRoot(url: string, rootPath: string)
    requires url == rootPath || IsPrefix(rootPath + "/", url)
    requires !Contains(rootPath, ActionsMarker)
    ensures IsPrefix(rootPath, RedirectTarget(url, rootPath))
  {
    var head := SplitHead(url, ActionsMarker);
    assert IsPrefix(rootPath, url) by {
      if url != rootPath {
        assert url[..|rootPath|] == (rootPath + "/")[..|rootPath|];
      }
    }
    forall j | 0 <= j < |rootPath| ensures !OccursAt(url, ActionsMarker, j) {
      if j + |ActionsMarker| <= |rootPath| {
        assert rootPath[j..j + |ActionsMarker|] == url[j..j + |ActionsMarker|];
        assert !OccursAt(rootPath, ActionsMarker, j);
      } else if url != rootPath {
        MarkerCannotStraddleSlash(url, rootPath, j);
      }
    }
    assert |head| >= |rootPath|;
    assert head[..|rootPath|] == url[..|rootPath|];
  }

  // ---------------------------------------------------------------------
  // Login and logout

  /** A truthy principal is stored in the session, the pending redirect
      is kept, and the reply is a 302 to the pending redirect when it is a
      non-empty string and to the admin root otherwise. */
  lemma LoginSucceeds(s: SessionState, principal: JsValue, options: AdminOptions)
    requires Truthy(principal)
    ensures var step := Login(s, principal, options);
      && step.session == SessionState(principal, s.redirectTo)
      && step.result.Redirect? && step.result.status == 302
      && (s.redirectTo.Some? && s.redirectTo.value != "" ==> step.result.location == s.redirectTo.value)
      && (s.redirectTo.None? || s.redirectTo.value == "" ==> step.result.location == options.rootPath)
  {
  }

  /** A falsy principal leaves the session as it was and renders the login
      page again, the same page as the login form but for the
      invalid-credentials message. */
  lemma LoginFails(s: SessionState, principal: JsValue, options: AdminOptions)
    requires !Truthy(principal)
    ensures Login(s, principal, options) ==
      Step(s, Page("text/html", LoginView(options.loginPath, Some("invalidCredentials"))))
    ensures LoginFormPage(options).Page? && Login(s, principal, options).result ==
      LoginFormPage(options).(view := LoginFormPage(options).view.(errorMessage := Some("invalidCredentials")))
    ensures LoginFormPage(options).view.errorMessage.None?
  {
  }

  /** Logging out a session with a user clears it and redirects to the
      login page, unless the store fails, which answers 500. Logging out a
      session without a user sends no response and changes nothing. */
  lemma LogoutOutcomes(s: SessionState, destroyFails: bool, options: AdminOptions)
    ensures var step := LogoutStep(s, destroyFails, options);
      && (!Truthy(s.adminUser) ==> step == Step(s, NoResponse))
      && (Truthy(s.adminUser) && destroyFails ==>
            step == Step(s, PlainText(500, "Internal Server Error")))
      && (Truthy(s.adminUser) && !destroyFails ==>
            !Truthy(step.session.adminUser) && step.session.redirectTo.None? &&
            step.result == Redirect(302, options.loginPath))
  {
  }

  // ---------------------------------------------------------------------
  // Sequences of requests

  /** An unauthenticated request to a protected URL without `/actions` and
      without the API path is sent to the login page, and a successful
      login right after it returns the user to that very URL. */
  lemma LoginReturnsToRequestedUrl(s: SessionState, url: string, assets: seq<AssetDescriptor>,
                                   matches: (string, string) -> bool, options: AdminOptions,
                                   principal: JsValue)
    requires url != ""
    requires forall i :: 0 <= i < |assets| ==> !matches(url, assets[i].path)
    requires !Admitted(s, url, false, options)
    requires !Contains(url, ActionsMarker) && !Contains(url, options.rootPath + "/api")
    requires Truthy(principal)
    ensures var g := Guard(s, url, assets, matches, options);
      && g.result == Halt(Redirect(302, options.loginPath))
      && Login(g.session, principal, options).result == Redirect(302, url)
      && Login(g.session, principal, options).session.adminUser == principal
  {
    GuardDecision(s, url, assets, matches, options);
    RedirectTargetFacts(url, options.rootPath);
  }

  /** An unauthenticated request for an action URL is sent, after a
      successful login, to the URL's part before `/actions`, and one under
      the API path to the admin root. */
  lemma LoginReturnsToResource(s: SessionState, url: string, assets: seq<AssetDescriptor>,
                               matches: (string, string) -> bool, options: AdminOptions,
                               principal: JsValue)
    requires forall i :: 0 <= i < |assets| ==> !matches(url, assets[i].path)
    requires !Admitted(s, url, false, options)
    requires Truthy(principal)
    ensures var head := SplitHead(url, ActionsMarker);
      var target := Login(Guard(s, url, assets, matches, options).session, principal, options).result;
      && (Contains(head, options.rootPath + "/api") ==> target == Redirect(302, options.rootPath))
      && (!Contains(head, options.rootPath + "/api") && head != "" ==> target == Redirect(302, head))
      && (head == "" ==> target == Redirect(302, options.rootPath))
  {
    GuardDecision(s, url, assets, matches, options);
    RedirectTargetFacts(url, options.rootPath);
  }

  /** Once a login has succeeded, the guard passes every request. */
  lemma LoggedInPassesEverything(s: SessionState, principal: JsValue, url: string,
                                 assets: seq<AssetDescriptor>, matches: (string, string) -> bool,
                                 options: AdminOptions)
    requires Truthy(principal)
    ensures var s' := Login(s, principal, options).session;
      Guard(s', url, assets, matches, options) == Step(s', Continue)
  {
  }

  /** After a successful logout the guard again turns away protected
      requests. */
  lemma LoggedOutIsTurnedAway(s: SessionState, url: string, assets: seq<AssetDescriptor>,
                              matches: (string, string) -> bool, options: AdminOptions)
    requires Truthy(s.adminUser)
    requires forall i :: 0 <= i < |assets| ==> !matches(url, assets[i].path)
    requires !IsPrefix(options.loginPath, url) && !IsPrefix(options.logoutPath, url)
    ensures var s' := LogoutStep(s, false, options).session;
      Guard(s', url, assets, matches, options).result == Halt(Redirect(302, options.loginPath))
  {
    GuardDecision(LogoutStep(s, false, options).session, url, assets, matches, options);
  }

  /** Every event keeps a session well formed. */
  lemma ApplyPreservesWellFormed(s: SessionState, e: Event, assets: seq<AssetDescriptor>,
                                 matches: (string, string) -> bool, options: AdminOptions)
    requires WellFormed(s)
    ensures WellFormed(Apply(s, e, assets, matches, options))
  {
  }

  /** From a well-formed session, any sequence of requests, logins and
      logouts leaves a session that has either no user or a truthy one. */
  lemma {:induction false} RunPreservesWellFormed(s: SessionState, events: seq<Event>,
                                                  assets: seq<AssetDescriptor>,
                                                  matches: (string, string) -> bool,
                                                  options: AdminOptions)
    requires WellFormed(s)
    ensures WellFormed(Run(s, events, assets, matches, options))
    decreases |events|
  {
    if events != [] {
      ApplyPreservesWellFormed(s, events[0], assets, matches, options);
      RunPreservesWellFormed(Apply(s, events[0], assets, matches, options), events[1..], assets, matches, options);
    }
  }

  /** The pending redirect, if any, is the admin root or lies under it. */
  predicate RedirectUnderRoot(s: SessionState, rootPath: string) {
    s.redirectTo.None? || IsPrefix(rootPath, s.redirectTo.value)
  }

  /** A request URL at the admin root or below `rootPath + "/"`. */
  predicate UnderRoot(url: string, rootPath: string) {
    url == rootPath || IsPrefix(rootPath + "/", url)
  }

  /** Every event keeps the pending redirect under the admin root, as long
      as the request URLs lie under it and the root has no `/actions`. */
  lemma ApplyKeepsRedirectUnderRoot(s: SessionState, e: Event, assets: seq<AssetDescriptor>,
                                    matches: (string, string) -> bool, options: AdminOptions)
    requires !Contains(options.rootPath, ActionsMarker)
    requires RedirectUnderRoot(s, options.rootPath)
    requires e.Request? ==> UnderRoot(e.url, options.rootPath)
    ensures RedirectUnderRoot(Apply(s, e, assets, matches, options), options.rootPath)
  {
    if e.Request? {
      GuardDecision(s, e.url, assets, matches, options);
      RedirectTargetUnderRoot(e.url, options.rootPath);
    }
  }

  /** Over any sequence of requests under the admin root, logins and
      logouts, a pending redirect stays the admin root or a path under it. */
  lemma {:induction false} RunKeepsRedirectUnderRoot(s: SessionState, events: seq<Event>,
                                                     assets: seq<AssetDescriptor>,
                                                     matches: (string, string) -> bool,
                                                     options: AdminOptions)
    requires !Contains(options.rootPath, ActionsMarker)
    requires RedirectUnderRoot(s, options.rootPath)
    requires forall i :: 0 <= i < |events| && events[i].Request? ==> UnderRoot(events[i].url, options.rootPath)
    ensures RedirectUnderRoot(Run(s, events, assets, matches, options), options.rootPath)
    decreases |events|
  {
    if events != [] {
      ApplyKeepsRedirectUnderRoot(s, events[0], assets, matches, options);
      var rest := events[1..];
      assert forall i :: 0 <= i < |rest| ==> rest[i] == events[i + 1];
      RunKeepsRedirectUnderRoot(Apply(s, events[0], assets, matches, options), rest, assets, matches, options);
    }
  }

  // ---------------------------------------------------------------------
  // The session object the handlers update in place

  class Session {
    var adminUser: JsValue
    var redirectTo: Option<string>

    function State(): SessionState
      reads this
    {
      SessionState(adminUser, redirectTo)
    }

    constructor ()
      ensures State() == FreshSession
    {
      adminUser := Undefined;
      redirectTo := None;
    }

    /** The `preHandler` hook, run on this request's session. */
    method PreHandler(url: string, assets: seq<AssetDescriptor>, matches: (string, string) -> bool,
                      options: AdminOptions) returns (r: HookResult)
      modifies this
      ensures State() == Guard(old(State()), url, assets, matches, options).session
      ensures r == Guard(old(State()), url, assets, matches, options).result
    {
      if FindAsset(url, assets, matches).Some? {
        return Continue;
      } else if Truthy(adminUser) || IsPrefix(options.loginPath, url) || IsPrefix(options.logoutPath, url) {
        return Continue;
      } else {
        var head := SplitHead(url, ActionsMarker);
        redirectTo := if Contains(head, options.rootPath + "/api") then Some(options.rootPath) else Some(head);
        return Halt(Redirect(Found, options.loginPath));
      }
    }

    /** The POST login handler, given what `authenticate` resolved to. */
    method SubmitLogin(principal: JsValue, options: AdminOptions) returns (reply: Reply)
      modifies this
      ensures State() == Login(old(State()), principal, options).session
      ensures reply == Login(old(State()), principal, options).result
    {
      if Truthy(principal) {
        adminUser := principal;
        if redirectTo.Some? && redirectTo.value != "" {
          reply := Redirect(Found, redirectTo.value);
        } else {
          reply := Redirect(Found, options.rootPath);
        }
      } else {
        reply := Page("text/html", LoginView(options.loginPath, Some(InvalidCredentials)));
      }
    }

    /** The logout handler, given whether destroying the session fails. */
    method LogOut(destroyFails: bool, options: AdminOptions) returns (reply: Reply)
      modifies this
      ensures State() == LogoutStep(old(State()), destroyFails, options).session
      ensures reply == LogoutStep(old(State()), destroyFails, options).result
    {
      reply := NoResponse;
      if Truthy(adminUser) {
        if destroyFails {
          reply := PlainText(500, InternalServerError);
        } else {
          adminUser, redirectTo := Undefined, None;
          reply := Redirect(Found, options.loginPath);
        }
      }
    }
  }
}
