# adminjs-fastify: the decision layer of the AdminJS plugin for Fastify

The `adminRoute` plugin mounts AdminJS onto a Fastify server. Around the
framework plumbing sits a small decision layer, and this project models it
in Dafny and proves what it promises:

- the admin-instance check that raises `WrongArgumentError` before anything
  is mounted, and the table of routes the plugin mounts;
- the rewrite of AdminJS route templates (`/resources/{resourceId}`) into
  Fastify URLs (`/admin/resources/:resourceId`), with the `|| "/"` fallback
  applying to the whole concatenation;
- the session guard (`preHandler` hook), which passes asset requests,
  authenticated sessions and the login/logout paths, and otherwise stores a
  pending redirect in the session and redirects to the login page;
- login and logout as transitions of a session record
  `{adminUser, redirectTo}`, both as pure functions and as a `Session`
  object whose methods assign its fields in place;
- the route handler's payload loop over multipart parts, its fallback to
  the parsed body, and its content-type and send rules.

JavaScript truthiness is modelled explicitly (`Js.Truthy`), because every
`if (x)` test in the code (`if (adminUser)`, `if (req.session.redirectTo)`,
`if (route.contentType)`, `if (html)`) is a truthiness test. For example,
an empty pending redirect is falsy, so a login after it goes to the admin
root.

Files: `wrappers.dfy` (Option, Result), `text.dfy` (`startsWith`,
`includes`, the first piece of `split`, ASCII `toLowerCase`), `js.dfy`
(values and truthiness), `routes.dfy` (template rewrite, route URL, mount
table), `auth.dfy` (guard, login, logout, session object), `handler.dfy`
(payload loop, reply shaping, the whole route handler).

Parameters stand for what the adapter calls but does not define:
- the value `authenticate(email, password)` resolved to;
- whether `destroySession` reports an error;
- the regular-expression match `req.url.match(asset.path)`, an arbitrary
  `(string, string) -> bool`;
- the controller action `controller[route.action]`, an arbitrary function
  of the user and the action request;
- the multipart stream, given as the parts it yields and whether it throws.

One might expect a pending redirect always to lie under the admin root. The
guard (src/index.ts:119-123) does not check this: it stores whatever precedes
`/actions` in the URL. `Auth.RedirectTargetUnderRoot` proves it only when the
URL is the root or lies below `rootPath + "/"` and the root does not itself
contain `/actions`; `Auth.RunKeepsRedirectUnderRoot` extends this to any
sequence of requests, logins and logouts whose request URLs lie there.

## Model

| member | source | states |
|---|---|---|
| `Text.SplitHead` | src/index.ts:120 | the first piece of `url.split(sep)` is a prefix of the URL that ends at the first occurrence of the separator, or is the whole URL when there is none |
| `Text.SplitHeadUnique` | src/index.ts:120 | those three facts determine the piece: any string satisfying them equals `SplitHead` |
| `Text.SplitHeadHasNoSeparator` | src/index.ts:120 | the piece before the first `/actions` contains no `/actions` |
| `Text.LowerAscii` | src/index.ts:161 | the lower-cased method name has the same length, each upper-case ASCII letter becomes the matching lower-case letter, and every other character is unchanged |
| `Routes.RewritePath` | src/index.ts:135 | the two `replace` calls in order; the result is never longer than the template (what it holds: see `RewriteIsCharwise` and `RewriteFacts`) |
| `Routes.RouteUrl` | src/index.ts:135 | `rootPath + rewritten`, or `"/"` when that is empty; the URL is never empty (its shape: see `RouteUrlShape`) |
| `Routes.RewriteIsCharwise` | src/index.ts:135 | the two global `replace` calls equal a character-by-character rewrite: `{` to `:`, `}` to nothing, everything else kept |
| `Routes.RewriteAppend` | src/index.ts:135 | rewriting a concatenation rewrites each part separately |
| `Routes.RewriteFacts` | src/index.ts:135 | the rewritten template has no `{` or `}`; its length is the original length minus the number of `}`; each `{` became a `:` and other characters keep their counts; a brace-free template is unchanged |
| `Routes.RewriteIdempotent` | src/index.ts:135 | rewriting an already rewritten template changes nothing |
| `Routes.RewritePlaceholder` | src/index.ts:134-135 | a segment `/{name}` becomes `/:name` |
| `Routes.RouteUrlShape` | src/index.ts:135 | the mounted URL is never empty; it is `"/"` exactly when `rootPath + rewritten` is empty or `"/"`; otherwise it is `rootPath` followed by the rewritten template; the part after `rootPath` has no braces |
| `Routes.Mount` | src/index.ts:39-185 | a non-AdminJS argument fails with `WrongArgumentError` and the fixed message, and nothing is mounted; otherwise the routes are the three auth routes (when auth is configured), then one route per descriptor at `RouteUrl`, then one GET per asset at `rootPath + asset.path` |
| `Auth.FindAsset` | src/index.ts:109 | returns the first asset whose path matches the URL, and returns none exactly when no asset matches |
| `Auth.Guard` | src/index.ts:108-126 | the guard never changes the session's user; when it passes a request the session is unchanged; otherwise it halts with a redirect and stores a pending redirect (the exact condition and values: see `GuardDecision`) |
| `Auth.RedirectTarget` | src/index.ts:119-123 | the stored target is the root or a prefix of the URL (in full: see `RedirectTargetFacts` and `RedirectTargetIsHead`) |
| `Auth.AssetsAlwaysPass` | src/index.ts:109-110 | a URL that matches any asset passes the guard with the session unchanged, whatever the session holds |
| `Auth.GuardDecision` | src/index.ts:108-126 | the guard passes exactly when an asset matches, the session has a truthy user, or the URL starts with the login or logout path, and then the session is unchanged; otherwise it replies 302 to the login path, keeps the user and stores `RedirectTarget` as the pending redirect |
| `Auth.RedirectTargetFacts` | src/index.ts:119-123 | the stored target is the root or an `/actions`-free prefix of the URL; a target other than the root does not contain `rootPath + "/api"` and is the prefix ending at the first `/actions` (or the whole URL when there is none); a URL with neither is stored whole |
| `Auth.RedirectTargetIsHead` | src/index.ts:119-123 | conversely, the part of the URL before its first `/actions` (the whole URL when there is none) is the stored target when it does not contain `rootPath + "/api"`, and the root is stored when it does |
| `Auth.RedirectTargetUnderRoot` | src/index.ts:119-123 | for a URL at or below `rootPath + "/"`, with no `/actions` inside the root, the stored target starts with the root |
| `Auth.LoginFormPage` | src/index.ts:63-69 | the GET login handler renders the login page as HTML with the login path as action and no error message |
| `Auth.Login` | src/index.ts:71-91 | login never touches the pending redirect; afterwards the session has a truthy user exactly when the principal or the old user was truthy; a falsy principal changes nothing (replies: see `LoginSucceeds` and `LoginFails`) |
| `Auth.LogoutStep` | src/index.ts:94-105 | there is no response exactly when the session has no truthy user; the session is either unchanged or emptied, and emptied exactly when a user was present and destruction succeeded (replies: see `LogoutOutcomes`) |
| `Auth.LoginSucceeds` | src/index.ts:76-83 | a truthy principal becomes the session's user, the pending redirect is kept, and the reply is a 302 to the pending redirect when it is a non-empty string and to the root otherwise |
| `Auth.LoginFails` | src/index.ts:84-90 | a falsy principal leaves the session unchanged and renders the login page with `invalidCredentials`; this is the GET login page (src/index.ts:63-69, no error message) with only the message changed |
| `Auth.LogoutOutcomes` | src/index.ts:94-105 | with a user: the session is destroyed and the reply is a 302 to the login path, or a 500 "Internal Server Error" when destruction fails; without a user: no response at all and the session unchanged |
| `Auth.LoginReturnsToRequestedUrl` | src/index.ts:71-126 | an unauthenticated, non-asset request for a URL without `/actions` or the API path is redirected to login, and a successful login right after it redirects back to that URL and stores the user |
| `Auth.LoginReturnsToResource` | src/index.ts:71-126 | after a redirected action URL, a successful login goes to the part before `/actions` when that part is non-empty and not under the API path, and to the root when it lies under the API path or is empty (a URL starting with `/actions`, since the empty string is falsy) |
| `Auth.LoggedInPassesEverything` | src/index.ts:78 | after a successful login the guard passes every URL and leaves the session unchanged |
| `Auth.LoggedOutIsTurnedAway` | src/index.ts:94-126 | after a successful logout the guard again redirects every non-asset URL outside the login and logout paths |
| `Auth.ApplyPreservesWellFormed` | src/index.ts:78 | guard, login and logout each keep the session's user either absent or truthy |
| `Auth.RunPreservesWellFormed` | src/index.ts:71-126 | any sequence of requests, logins and logouts keeps the user absent or truthy |
| `Auth.ApplyKeepsRedirectUnderRoot` | src/index.ts:71-126 | a guard step on a URL under the admin root, a login or a logout keeps the pending redirect the root or under it, when the root has no `/actions` |
| `Auth.RunKeepsRedirectUnderRoot` | src/index.ts:71-126 | over any sequence of events whose request URLs lie under the admin root, the pending redirect stays the root or a path under it |
| `Auth.Session.PreHandler` | src/index.ts:108-126 | the in-place hook updates the session object and returns exactly as `Guard` prescribes |
| `Auth.Session.SubmitLogin` | src/index.ts:71-91 | the in-place login handler updates the session object and replies exactly as `Login` prescribes |
| `Auth.Session.LogOut` | src/index.ts:94-105 | the in-place logout handler updates the session object and replies exactly as `LogoutStep` prescribes |
| `Handler.Collect` | src/index.ts:145-152 | the dictionary after storing the parts in order has at most one key per part (keys and values: see `CollectKeys` and `CollectLastWins`) |
| `Handler.CollectKeys` | src/index.ts:145-152 | the payload's keys are exactly the keys of the parts (file name for file parts, field name otherwise) |
| `Handler.CollectLastWins` | src/index.ts:145-152 | a key holds the value of the last part stored under it |
| `Handler.FilePartsByFilename` | src/index.ts:146-151 | a file part's stream is found under its file name, a field's value under its field name |
| `Handler.BuildPayload` | src/index.ts:142-155 | the loop yields the dictionary of all parts, or the parsed request body when the stream throws |
| `Handler.Respond` | src/index.ts:164-172 | a body is sent exactly when the result is truthy and is the result itself; a sent string always has a content type; the content type is the route's or `text/html` |
| `Handler.ContentType` | src/index.ts:164-168 | a header value set is never empty; no header is set exactly when the route has no non-empty content type and the result is not a string (cases: see `ContentTypeCases`) |
| `Handler.ContentTypeCases` | src/index.ts:164-168 | the route's non-empty content type wins; else `text/html` for a string result; else none; an empty string result gets `text/html` and no body |
| `Handler.ControllerUser` | src/index.ts:137-140 | the controller receives the session's own `adminUser` value when there is a session, and `undefined` without sessions; it is truthy exactly when there is a session with a truthy user |
| `Handler.HandleRoute` | src/index.ts:136-173 | the reply is the response rule applied to the action's result on the collected payload and the lower-cased method |

## Left out

- Exceptions thrown by callbacks: `authenticate` rejecting (src/index.ts:76), `admin.renderLogin` rejecting (src/index.ts:64, 85), destructuring an absent `req.body` (src/index.ts:72), and `new route.Controller` or `controller[route.action]` throwing or not being a function (src/index.ts:137, 157). These errors propagate unhandled to Fastify. `Login` and `HandleRoute` are total: the model assumes the callbacks return. When one throws, the session is left as the handler had it at that point, and no reply from this adapter is sent.
- Fastify itself: plugin registration, `fastify.route`, `addHook`, and the order in which Fastify runs hooks (src/index.ts:49-60, 176). `Mount` lists the routes; it does not register them.
- Cookie and session middleware configuration (cookie name default `adminjs`, secure flag, secret), which only configures the middleware (src/index.ts:54-60).
- `admin.initialize()`, fired and forgotten with an unsynchronised race (src/index.ts:43-45).
- `admin.renderLogin`: the model records its arguments (`LoginView`), not the HTML.
- Controller construction and dynamic `controller[route.action]` dispatch: one opaque function parameter.
- The regular-expression semantics of `req.url.match(asset.path)`: an arbitrary predicate.
- Asynchronous stream iteration: the multipart stream is a finite sequence of parts plus whether it throws after them. A stream that throws part-way is modelled by the parts before the throw; they are discarded anyway.
- JavaScript property-key quirks of the payload object (`__proto__` and other prototype keys).
- Asset serving: `mime.getType` and `fs.readFileSync` are file-system I/O and library lookup (src/index.ts:179-185).
- Session destruction: a successful `destroySession` is modelled as an empty session. A failed one leaves the session as it was, because the store's behaviour is unknown.
- Logout without a user sends no response, so the request hangs. The model keeps this behaviour (`LogoutStep`, `Auth.LogoutOutcomes`) and does not correct it.
- Text.LowerAscii: lower-cases ASCII letters only, not full Unicode `toLowerCase`, because HTTP method names are ASCII.
- Strings as UTF-16 code units: JavaScript strings are sequences of UTF-16 code units, while here a string is a sequence of Unicode scalar values. Lengths (as in `Routes.RewriteFacts`) count scalar values, and a lone surrogate cannot be represented. The URLs and templates the adapter handles are ASCII, where the two agree.
- Js.Truthy: `NaN` is not modelled (numbers are integers), so every non-zero number is truthy.
- examples/auth.ts and examples/simple.ts: application bootstrap (database connection, environment variables, `listen`).
