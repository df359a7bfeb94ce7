/** Route registration of the adapter (src/index.ts): the admin-instance
    check that raises `WrongArgumentError`, the rewrite of AdminJS route
    templates such as `/resources/{resourceId}` into Fastify URLs such as
    `/admin/resources/:resourceId`, and the table of routes the plugin
    mounts. */
module Routes {
  import opened Wrappers
  import opened Text

  /** The three paths the adapter reads from `admin.options`. */
  datatype AdminOptions = AdminOptions(rootPath: string, loginPath: string, logoutPath: string)

  /** The argument passed as `admin`; `isAdminJS` is the outcome of the
      `instanceof AdminJS` test. */
  datatype AdminArg = AdminArg(isAdminJS: bool, options: AdminOptions)

  /** An entry of AdminJS's router: HTTP method, path template with
      `{name}` placeholders, controller action name and optional content
      type. */
  datatype RouteDescriptor = RouteDescriptor(verb: string, path: string, action: string, contentType: Option<string>)

  /** An entry of AdminJS's asset list: public path and file to serve. */
  datatype AssetDescriptor = AssetDescriptor(path: string, src: string)

  /** What a mounted route does when it is hit. */
  datatype Endpoint =
    | LoginForm
    | LoginSubmit
    | LogoutEndpoint
    | ActionEndpoint(route: RouteDescriptor)
    | AssetEndpoint(asset: AssetDescriptor)

  datatype Registration = Registration(verb: string, url: string, endpoint: Endpoint)

  datatype WrongArgumentError = WrongArgumentError(name: string, message: string)

  const InvalidAdminInstance := "You have to pass an instance of AdminJS to `adminRoute` plugin"

  /** `p.replace(/{/g, ":")`. */
  function ReplaceOpenBraces(p: string): (r: string)
    ensures |r| == |p|
  {
    seq(|p|, i requires 0 <= i < |p| => if p[i] == '{' then ':' else p[i])
  }

  /** `p.replace(/}/g, "")`. */
  function DropCloseBraces(p: string): (r: string)
    ensures |r| <= |p|
  {
    if p == [] then []
    else (if p[0] == '}' then [] else [p[0]]) + DropCloseBraces(p[1..])
  }

  /** The template rewrite of line 135, the two `replace` calls in order. */
  function RewritePath(p: string): (r: string)
    ensures |r| <= |p|
  {
    DropCloseBraces(ReplaceOpenBraces(p))
  }

  /** What a single template character becomes in the Fastify URL. */
  function CharImage(c: char): string {
    if c == '{' then ":" else if c == '}' then "" else [c]
  }

  /** Reference definition of the rewrite, one character at a time. */
  function RewriteByChar(p: string): string {
    if p == [] then [] else CharImage(p[0]) + RewriteByChar(p[1..])
  }

  /** The URL a route descriptor is mounted at:
      `rootPath + rewritten || "/"`, where `+` binds tighter than `||`. */
  function RouteUrl(rootPath: string, path: string): (url: string)
    ensures url != ""
  {
    var url := rootPath + RewritePath(path);
    if url != "" then url else "/"
  }

  /** The two `replace` passes rewrite every character independently. */
  lemma {:induction false} RewriteIsCharwise(p: string)
    ensures RewritePath(p) == RewriteByChar(p)
  {
    if p != [] {
      RewriteIsCharwise(p[1..]);
      assert ReplaceOpenBraces(p)[1..] == ReplaceOpenBraces(p[1..]);
    }
  }

  lemma {:induction false} RewriteByCharAppend(a: string, b: string)
    ensures RewriteByChar(a + b) == RewriteByChar(a) + RewriteByChar(b)
  {
    if a == [] {
      assert a + b == b;
    } else {
      assert (a + b)[0] == a[0];
      assert (a + b)[1..] == a[1..] + b;
      RewriteByCharAppend(a[1..], b);
    }
  }

  /** Rewriting a concatenation rewrites each part. */
  lemma RewriteAppend(a: string, b: string)
    ensures RewritePath(a + b) == RewritePath(a) + RewritePath(b)
  {
    RewriteIsCharwise(a + b);
    RewriteIsCharwise(a);
    RewriteIsCharwise(b);
    RewriteByCharAppend(a, b);
  }

  lemma {:induction false} RewriteByCharBraceFree(p: string)
    ensures '{' !in RewriteByChar(p) && '}' !in RewriteByChar(p)
  {
    if p != [] {
      RewriteByCharBraceFree(p[1..]);
    }
  }

  /** How many times `c` occurs in the rewrite of a template whose
      character counts are `m`. */
  function RewrittenCount(m: multiset<char>, c: char): nat {
    if c == ':' then m[':'] + m['{'] else if c == '{' || c == '}' then 0 else m[c]
  }

  lemma ImageCount(d: char, c: char)
    ensures multiset(CharImage(d))[c] == RewrittenCount(multiset([d]), c)
  {
  }

  lemma {:induction false} RewriteByCharCount(p: string, c: char)
    ensures multiset(RewriteByChar(p))[c] == RewrittenCount(multiset(p), c)
  {
    if p != [] {
      var rest := p[1..];
      RewriteByCharCount(rest, c);
      ImageCount(p[0], c);
      assert p == [p[0]] + rest;
      var m, m0, mr := multiset(p), multiset([p[0]]), multiset(rest);
      assert m == m0 + mr;
      assert RewrittenCount(m, c) == RewrittenCount(m0, c) + RewrittenCount(mr, c);
      assert RewriteByChar(p) == CharImage(p[0]) + RewriteByChar(rest);
    }
  }

  lemma {:induction false} RewriteByCharLength(p: string)
    ensures |RewriteByChar(p)| == |p| - multiset(p)['}']
  {
    if p != [] {
      RewriteByCharLength(p[1..]);
      assert p == [p[0]] + p[1..];
      assert multiset(p) == multiset([p[0]]) + multiset(p[1..]);
    }
  }

  lemma {:induction false} RewriteByCharIdentity(p: string)
    requires forall i :: 0 <= i < |p| ==> p[i] != '{' && p[i] != '}'
    ensures RewriteByChar(p) == p
  {
    if p != [] {
      var rest := p[1..];
      assert forall i :: 0 <= i < |rest| ==> rest[i] == p[i + 1];
      RewriteByCharIdentity(rest);
      assert CharImage(p[0]) == [p[0]];
      assert p == [p[0]] + rest;
    }
  }

  /** The rewritten template holds no brace; its length is the original
      length minus the number of closing braces; every `{` became a `:` and
      every other character except `}` is kept; a template without braces
      is left as it is. */
  lemma RewriteFacts(p: string)
    ensures '{' !in RewritePath(p) && '}' !in RewritePath(p)
    ensures |RewritePath(p)| == |p| - multiset(p)['}']
    ensures forall c :: multiset(RewritePath(p))[c] == RewrittenCount(multiset(p), c)
    ensures '{' !in p && '}' !in p ==> RewritePath(p) == p
  {
    RewriteIsCharwise(p);
    RewriteByCharBraceFree(p);
    forall c ensures multiset(RewritePath(p))[c] == RewrittenCount(multiset(p), c) {
      RewriteByCharCount(p, c);
    }
    RewriteByCharLength(p);
    if '{' !in p && '}' !in p {
      RewriteByCharIdentity(p);
    }
  }

  /** Rewriting twice is rewriting once. */
  lemma RewriteIdempotent(p: string)
    ensures RewritePath(RewritePath(p)) == RewritePath(p)
  {
    RewriteFacts(p);
    RewriteFacts(RewritePath(p));
  }

  /** A placeholder segment `/{name}` becomes `/:name`. */
  lemma RewritePlaceholder(prefix: string, name: string)
    requires '{' !in name && '}' !in name
    ensures RewritePath(prefix + "/{" + name + "}") == RewritePath(prefix) + "/:" + name
  {
    RewriteAppend(prefix + "/{" + name, "}");
    RewriteAppend(prefix + "/{", name);
    RewriteAppend(prefix, "/{");
    RewriteIsCharwise(name);
    RewriteByCharIdentity(name);
    assert RewritePath(name) == name;
    RewriteIsCharwise("/{");
    assert RewritePath("/{") == "/:";
    RewriteIsCharwise("}");
    assert RewritePath("}") == "";
  }

  /** The mounted URL is never empty; it is `rootPath` followed by the
      brace-free rewritten template, except that an empty concatenation
      becomes "/". */
  lemma RouteUrlShape(rootPath: string, path: string)
    ensures RouteUrl(rootPath, path) != ""
    ensures RouteUrl(rootPath, path) == "/" <==>
      rootPath + RewritePath(path) == "" || rootPath + RewritePath(path) == "/"
    ensures rootPath + RewritePath(path) != "" ==>
      IsPrefix(rootPath, RouteUrl(rootPath, path)) &&
      RouteUrl(rootPath, path)[|rootPath|..] == RewritePath(path)
    ensures '{' !in RouteUrl(rootPath, path)[|rootPath|..] && '}' !in RouteUrl(rootPath, path)[|rootPath|..]
  {
    RewriteFacts(path);
    var url := rootPath + RewritePath(path);
    if url != "" {
      assert url[..|rootPath|] == rootPath;
      assert url[|rootPath|..] == RewritePath(path);
    }
  }

  /** The login form, login submission and logout routes. */
  function AuthRoutes(o: AdminOptions): (r: seq<Registration>)
    ensures |r| == 3
  {
    [Registration("GET", o.loginPath, LoginForm),
     Registration("POST", o.loginPath, LoginSubmit),
     Registration("GET", o.logoutPath, LogoutEndpoint)]
  }

  /** One route per AdminJS route descriptor. */
  function ActionRoutes(rootPath: string, routes: seq<RouteDescriptor>): (r: seq<Registration>)
    ensures |r| == |routes|
    ensures forall i :: 0 <= i < |routes| ==>
      r[i] == Registration(routes[i].verb, RouteUrl(rootPath, routes[i].path), ActionEndpoint(routes[i]))
  {
    seq(|routes|, i requires 0 <= i < |routes| =>
      Registration(routes[i].verb, RouteUrl(rootPath, routes[i].path), ActionEndpoint(routes[i])))
  }

  /** One GET route per asset. */
  function AssetRoutes(rootPath: string, assets: seq<AssetDescriptor>): (r: seq<Registration>)
    ensures |r| == |assets|
    ensures forall j :: 0 <= j < |assets| ==>
      r[j] == Registration("GET", rootPath + assets[j].path, AssetEndpoint(assets[j]))
  {
    seq(|assets|, j requires 0 <= j < |assets| =>
      Registration("GET", rootPath + assets[j].path, AssetEndpoint(assets[j])))
  }

  /** The routes the plugin mounts, in registration order: the login form,
      login submission and logout routes when authentication is configured,
      then one route per AdminJS route descriptor, then one GET route per
      asset. A value that is not an AdminJS instance is refused with
      `WrongArgumentError` before anything is mounted. */
  function Mount(admin: AdminArg, authConfigured: bool, routes: seq<RouteDescriptor>, assets: seq<AssetDescriptor>)
    : (r: Result<seq<Registration>, WrongArgumentError>)
    ensures r.Failure? <==> !admin.isAdminJS
    ensures r.Failure? ==> r.error == WrongArgumentError("WrongArgumentError", InvalidAdminInstance)
    ensures r.Success? ==> |r.value| == (if authConfigured then 3 else 0) + |routes| + |assets|
    ensures r.Success? && authConfigured ==>
      var o := admin.options;
      r.value[..3] == [Registration("GET", o.loginPath, LoginForm),
                       Registration("POST", o.loginPath, LoginSubmit),
                       Registration("GET", o.logoutPath, LogoutEndpoint)]
    ensures r.Success? ==>
      var k := if authConfigured then 3 else 0;
      r.value[k..k + |routes|] == ActionRoutes(admin.options.rootPath, routes)
    ensures r.Success? ==>
      var k := (if authConfigured then 3 else 0) + |routes|;
      r.value[k..] == AssetRoutes(admin.options.rootPath, assets)
  {
    if !admin.isAdminJS then
      Failure(WrongArgumentError("WrongArgumentError", InvalidAdminInstance))
    else
      var o := admin.options;
      var auth := if authConfigured then AuthRoutes(o) else [];
      var actions := ActionRoutes(o.rootPath, routes);
      var files := AssetRoutes(o.rootPath, assets);
      var all := auth + actions + files;
      assert all[|auth|..|auth| + |routes|] == actions;
      assert all[|auth| + |routes|..] == files;
      Success(all)
  }
}
