# newww core rules, modelled in Dafny

This project models the decision logic at the core of the npm website (newww):

- **The content agent** (`agents/cms.js`). It fetches one page of the content-management API. It checks the response in a fixed order: the HTTP status, then whether the body decodes, then whether the decoded value is an object. It then stamps `fetchedAt`, checks the page shape, and serves pages through a cache. Module `CmsAgent`, file `cms_agent.dfy`.
- **The content handlers** (`handlers/cms.js`). `displayCMSPage` routes a fetched page or its error to a view. `dismissNotice` clears the user's `dismiss` field, requests a save and replies; an anonymous request throws, and a user without a `resource` object is replied as an error with no save. Module `CmsHandler`, file `cms_handler.dfy`.
- **The package page** (`handlers/package.js`, `show`). The success branch decorates the package record in place: dependents, downloads for unscoped names, the "more dependents" count (NaN when the count is absent), `isStarred`, `isCollaboratedOnByUser` as written with JavaScript's `in` (see "## Findings"), `hasStats`, and the unpublished page. A `null` package, a package without a name and, for a logged-in viewer, a `null` collaborators object make it throw, which the catch branch replies as a 500; an anonymous viewer never reaches the `in` check and gets `isCollaboratedOnByUser` false. The catch branch turns the error into a billing redirect, a "package not found" page with an availability classification, or a 500. Module `PackageHandler`, file `package_handler.dfy`.
- **The session key space** (`test/adapters/redis-sessions.js`). A session key is the user's prefix hash, the separator `---` and a random token, stored under the namespace `hapi-cache:%7Csessions:`. A shared store lists and drops one user's sessions by prefix. Module `SessionKeys`, file `session_keys.dfy`.
- **Feature flags** (`test/adapters/bonbon.js`). A flag is `true`, `false`, or a comma-separated list of `group:NAME` entries and bare usernames. Module `FeatureFlags`, file `feature_flags.dfy`.
- **JSON view context** (`test/adapters/bonbon.js`). Who may request a page's view context with `?json`, and which part of it (`?json=a.b`) comes back. Module `ViewContext`, file `view_context.dfy`.

Supporting modules:

- `Wrappers` (`wrappers.dfy`) holds `Option` and `Result`.
- `Strings` (`strings.dfy`) holds JavaScript's `String.prototype.split` on one character, with its round trips against `join` in both directions (`JoinSplit`, `SplitJoin`).
- `JsValues` (`js_values.dfy`) holds the JSON values the handlers inspect, with the JavaScript semantics they rely on:
  - `typeof`, where `null` and arrays are `"object"`;
  - truthiness;
  - own-property reads and writes;
  - the `in` operator, which also finds inherited names, against `hasOwnProperty`.

Upstream answers, the clock, environment variables, the two package-name libraries and each user's group membership are inputs. The prefix hash is a function-typed field of `KeyScheme`. Its `Valid()` requires one fixed output length. A hash of fixed length cannot be injective on all names, so the isolation lemmas take as a premise that the two users' hashes differ (`KeyScheme.Distinguishes`), and `TestScheme` exhibits a valid scheme that tells bob and alice apart.

The source of `adapters/redis-sessions` and of the background-refresh cache is not part of this model. Their contracts come from their call sites and tests.

For the empty user name the model follows the test (`test/adapters/redis-sessions.js:81-87`), which lists alice's key with `getKeysWithPrefix('')` after bob's drop: `ScanPrefix("")` is the bare namespace, so the empty name enumerates every session.

## Model

| member | source | states |
|---|---|---|
| JsValues.TypeOf | agents/cms.js:40 | `typeof v` is "object" exactly for null, arrays and objects |
| JsValues.Truthy | agents/cms.js:18 | a value is falsy exactly when it is undefined, null, false, 0 or "" |
| JsValues.Get | handlers/package.js:44 | an own-property read: an object yields its field exactly when the key is present; null, booleans and numbers yield undefined |
| JsValues.Put | agents/cms.js:34 | after `v[key] = x` the key reads x and every other key reads as before |
| JsValues.InOperator | handlers/package.js:59 | `key in v` throws unless v is an object or array, and otherwise holds for own keys and for inherited prototype names |
| JsValues.HasOwnProperty | handlers/package.js:59 | the own-key test: throws on null, otherwise holds exactly when the read finds the key |
| CmsAgent.FetchError.StatusCode | agents/cms.js:28-29 | only the bad-status error carries a `statusCode`, and it is the response status |
| CmsAgent.AssertObject | agents/cms.js:39-44 | accepts exactly values whose typeof is "object" (null and arrays included), unchanged; otherwise "Invalid data received" |
| CmsAgent.AddMarker | agents/cms.js:33-36 | stamping fails exactly on null; otherwise the result has `fetchedAt` = now and every other property unchanged |
| CmsAgent.FetchAndDecode | agents/cms.js:25-37 | the checks run in order: network failure, status >= 300 gives a status error with `statusCode` = status, undecodable body, non-object, null stamp; success exactly for a status < 300 object or array, which comes back stamped |
| CmsAgent.FetchPage | agents/cms.js:12-23 | a page is accepted exactly when the upstream answered < 300 with an object or array whose id, html and title are truthy; the result is that payload stamped; earlier errors pass through; "Invalid page returned" exactly for decoded payloads failing the shape check |
| CmsAgent.StampKeepsShape | agents/cms.js:33-36 | the `fetchedAt` stamp neither creates nor removes a valid page |
| CmsAgent.StatusPrecedesPayload | agents/cms.js:26-33 | for a status >= 300 the outcome is the status error, whatever the body and time, so the shape check is never reached |
| CmsAgent.ArrayNeverAPage | agents/cms.js:16-21 | a decoded array passes the object check but is rejected as an invalid page |
| CmsAgent.CacheTime | agents/cms.js:10 | the cache lifetime is 1800 seconds exactly when `CMS_CACHE_TIME` is unset or empty, otherwise the variable's value |
| CmsAgent.GetPage | agents/cms.js:47-49 | `getPage(slug)` is the cache's answer for the same slug, untransformed |
| CmsHandler.DisplayCmsPage | handlers/cms.js:5-20 | a page renders view "cms" with the page, its title and full width; an error with statusCode 404 renders "errors/not-found" with code 404; any other error is replied unchanged |
| CmsHandler.UpstreamNotFoundIsNotFoundPage | handlers/cms.js:13-15 | when the cache's answer is a fetch the upstream answered with 404, the visitor gets the not-found page with code 404 |
| CmsHandler.OtherFailuresPassThrough | handlers/cms.js:16-17 | every failed fetch whose upstream status is not 404 is replied as the same error |
| CmsHandler.FetchedPageShowsTitle | handlers/cms.js:6-11 | an accepted page renders with a truthy title |
| CmsHandler.UserRecord.constructor | handlers/cms.js:26-27 | the user record holds the resource object it was given, or none |
| CmsHandler.UserAgent.constructor | handlers/cms.js:24 | a new user agent has requested no save |
| CmsHandler.UserAgent.Save | handlers/cms.js:28 | each `save()` adds one save request |
| CmsHandler.DismissNotice | handlers/cms.js:22-35 | an anonymous request throws before the lookup; a failed lookup is replied as its error; a user without `resource` is replied as that error; in these cases nothing is saved or changed; otherwise `resource.dismiss` becomes "" and one save is requested, then an absent or empty returnURL replies `{}` and a present one replies the error of the undefined `validate` |
| PackageHandler.IndexOf | handlers/package.js:55 | `indexOf` is -1 exactly when the value is absent, and otherwise the position of its first occurrence |
| PackageHandler.Starred | handlers/package.js:53-55 | `isStarred` holds exactly when a user is logged in, `stars` is an array, and it contains the user's name |
| PackageHandler.CollaboratedOnAsWritten | handlers/package.js:57-59 | as written, the check throws exactly for a logged-in user and null collaborators, and otherwise holds exactly when a user is logged in, collaborators is an object or array, and the name is an own key of it, a name every object inherits, or (for an array) a name every array inherits |
| PackageHandler.CollaboratedOn | handlers/package.js:57-59 | as intended, the check throws exactly for a logged-in user and null collaborators, and otherwise holds exactly when a user is logged in, collaborators is an object or array, and the user's name is one of its own keys |
| PackageHandler.CollaboratedOnAgreesOffPrototype | handlers/package.js:57-59 | for a user whose name no object or array inherits, the check as written and the intended one give the same answer |
| PackageHandler.ConstructorCollaboratesEverywhere | handlers/package.js:57-59 | as written, a user named "constructor" collaborates on every package whose collaborators object lacks that key, which the own-key check rejects |
| PackageHandler.MoreDependents | handlers/package.js:49-50 | the number of further dependents is NaN exactly when `dependentCount` is absent, and otherwise added to the listed count gives `dependentCount` |
| PackageHandler.JsOr | handlers/package.js:61 | `a \|\| b` is truthy exactly when a or b is |
| PackageHandler.UrlOf | handlers/package.js:61 | `v && v.url` is truthy exactly when v and its url are |
| PackageHandler.HasStats | handlers/package.js:61 | `hasStats` is truthy exactly when downloads, the bugs URL or the pull-requests URL is truthy, and is the downloads when those are truthy |
| PackageHandler.PackageRecord.constructor | handlers/package.js:26 | the package as returned, with none of the decorated fields assigned |
| PackageHandler.ShowFetched | handlers/package.js:36-64 | a null package fails before anything is set; otherwise dependents are attached; a package without a name then fails; downloads only for names not starting with '@'; an unpublished package gives the unpublished view and nothing more is set; otherwise numMoreDependents = dependentCount - number of results (NaN without a count) when there are results, isStarred, isCollaboratedOnByUser by the `in` check as written, hasStats per its rule, then the show view; a throwing collaborator check fails the branch with isCollaboratedOnByUser and hasStats unset |
| PackageHandler.ShowError | handlers/package.js:66-100 | 402 redirects to "/settings/billing?package=" + name; 404 with an invalid name renders not-found with code 400 and available false; 404 with a valid name gives code 404, owner = scope without its '@', available exactly when unscoped or owned by the logged-in user, otherwise the logged-in or the anonymous flag by login state; any other error is replied with statusCode 500 |
| PackageHandler.AvailabilityIsExclusive | handlers/package.js:81-91 | on a 404 for a valid name exactly one of available, unavailableToLoggedInUser and unavailableToAnonymousUser is set, and none for an invalid name |
| PackageHandler.Show | handlers/package.js:12-101 | a rejected lookup is handled by the catch branch; a fetched package is decorated as the success branch does (the same state of every decorated field) and gives the unpublished or show view; a null package, a missing name or a throwing collaborator check ends in the catch branch as a 500 |
| SessionKeys.TestScheme | test/adapters/redis-sessions.js:28-40 | a scheme whose hashes all have one length and whose hashes of "bob" and "alice" differ exists, so the scenario's premises can be met |
| SessionKeys.KeyScheme.GenerateRandomUserHash | test/adapters/redis-sessions.js:28-40 | a session key starts with the user's prefix hash and "---", followed by the token |
| SessionKeys.KeyDeterminesUserAndToken | test/adapters/redis-sessions.js:29-30 | two session keys are equal only when made from the same prefix hash and the same token, so one user's two tokens give two keys |
| SessionKeys.OwnSessionsMatch | test/adapters/redis-sessions.js:65-75 | every stored session of a user lies in that user's scan |
| SessionKeys.ScanOwnerIsUnique | test/adapters/redis-sessions.js:65-75 | a key in the scans of two non-empty names carries one hash, so it lies in both scans only when the names' hashes are equal, even when one name is a prefix of the other |
| SessionKeys.ScansAreDisjoint | test/adapters/redis-sessions.js:65-75 | scans of two non-empty names whose hashes differ never match the same key |
| SessionKeys.OthersSessionsDoNotMatch | test/adapters/redis-sessions.js:65-75 | no session of another user, whose hash differs, is in a user's scan |
| SessionKeys.KeysWithPrefix | test/adapters/redis-sessions.js:65-75 | the scan is exactly the stored keys that start with the prefix |
| SessionKeys.WithoutPrefix | test/adapters/redis-sessions.js:77-80 | the dropped store keeps exactly the keys not starting with the prefix, with their values |
| SessionKeys.DropIsExact | test/adapters/redis-sessions.js:77-91 | after a user's drop that user's scan is empty, and the scan of every other user whose hash differs finds the same keys with the same values |
| SessionKeys.DistinctListSize | test/adapters/redis-sessions.js:68 | a repetition-free key list with a given set of elements has that set's size |
| SessionKeys.SessionStore.constructor | test/adapters/redis-sessions.js:22 | a new store is empty |
| SessionKeys.SessionStore.Set | test/adapters/redis-sessions.js:43-45 | `set` stores the value under the key and changes nothing else |
| SessionKeys.SessionStore.Get | test/adapters/redis-sessions.js:47-63 | `get` returns the stored value, and nothing for a key never set |
| SessionKeys.SessionStore.GetKeysWithPrefix | test/adapters/redis-sessions.js:65-75 | lists each stored key in the user's scan exactly once |
| SessionKeys.SessionStore.DropKeysWithPrefix | test/adapters/redis-sessions.js:77-80 | deletes exactly the keys in the user's scan and nothing else |
| SessionKeys.ScenarioScans | test/adapters/redis-sessions.js:65-91 | with bob's two keys and alice's one stored, bob's scan is his two keys, and after his drop the empty-name scan is alice's key alone |
| SessionKeys.ScenarioKeys | test/adapters/redis-sessions.js:28-45 | the test's store keys: bob's two are distinct and in bob's scan; alice's is under the namespace and outside bob's scan |
| SessionKeys.BobListing | test/adapters/redis-sessions.js:65-75 | a listing of bob's two keys has length 2, every key carries bob's prefix and none carries alice's |
| SessionKeys.SingleListing | test/adapters/redis-sessions.js:81-87 | a repetition-free listing of a single key is exactly that key |
| SessionKeys.SessionScenario | test/adapters/redis-sessions.js:28-91 | the test run: bob's scan lists two keys, both with bob's prefix and neither with alice's, and after the drop only alice's key remains |
| FeatureFlags.ParseEntry | test/adapters/bonbon.js:93-94 | an entry is a group exactly when it starts with "group:", and the group is the rest; otherwise it is a username |
| FeatureFlags.ParseFlag | test/adapters/bonbon.js:92-95 | "true" is on for everyone; "false" or unset is off; any other value is the list of its comma-separated entries |
| FeatureFlags.AnyAdmits | test/adapters/bonbon.js:124-158 | a list admits a viewer exactly when one of its entries does |
| FeatureFlags.ListedAdmits | test/adapters/bonbon.js:94 | a parsed list admits a viewer exactly when one of its raw comma-separated entries names them |
| FeatureFlags.GroupEntry | test/adapters/bonbon.js:93-94 | an entry "group:G" names exactly the viewers in group G |
| FeatureFlags.OneEntry | test/adapters/bonbon.js:93 | a one-entry list names a viewer exactly when its entry does |
| FeatureFlags.ThreeEntries | test/adapters/bonbon.js:94 | a three-entry list names a viewer exactly when one of its entries does |
| FeatureFlags.FlagEnabled | test/adapters/bonbon.js:89-177 | "true" is on and "false" or unset off for every viewer; an anonymous viewer sees only "true" flags; for a list, a logged-in viewer sees the flag exactly when an entry names them or one of their groups |
| FeatureFlags.Features | test/adapters/bonbon.js:114-119 | the `features` object has exactly the configured flags, each with its value for the viewer |
| FeatureFlags.BetaEntries | test/adapters/bonbon.js:94 | the beta flag lists group npm-humans, group friends and bob |
| FeatureFlags.AlphaEntries | test/adapters/bonbon.js:93 | the alpha flag lists the single group npm-humans |
| FeatureFlags.AlphaFor | test/adapters/bonbon.js:93 | a flag listing only group npm-humans is on exactly for members of npm-humans |
| FeatureFlags.BetaFor | test/adapters/bonbon.js:94 | a flag listing npm-humans, friends and bob is on exactly for members of either group and for bob |
| FeatureFlags.TestListsFor | test/adapters/bonbon.js:93-94 | the test's alpha and beta flags, evaluated for any logged-in viewer of the test directory |
| FeatureFlags.TestFeatures | test/adapters/bonbon.js:91-105 | with the test flags, every viewer gets stealth off and common on, and alpha and beta as evaluated |
| FeatureFlags.AnonymousTestFlags | test/adapters/bonbon.js:107-122 | an anonymous viewer gets only common |
| FeatureFlags.FriendTestFlags | test/adapters/bonbon.js:124-140 | mikeal, in the friends group, gets beta and common |
| FeatureFlags.ListedTestFlags | test/adapters/bonbon.js:142-158 | bob, listed by name, gets beta and common |
| FeatureFlags.EmployeeTestFlags | test/adapters/bonbon.js:160-177 | seldo, an employee, gets alpha, beta and common, and stealth stays off |
| ViewContext.GetPath | test/adapters/bonbon.js:232-246 | an empty path reads the value itself; a missing or null step reads undefined; a one-step path is a property read |
| ViewContext.JsonSubset | test/adapters/bonbon.js:216-246 | an empty `json` value selects the whole context; otherwise the value is a dotted path into it |
| ViewContext.SingleProperty | test/adapters/bonbon.js:232-246 | a query without a dot reads that property of the context |
| ViewContext.Respond | test/adapters/bonbon.js:200-312 | the reply is JSON exactly when `json` is present and NODE_ENV is "dev" or the viewer is an employee, and it is the selected part of the context; otherwise the page's template with its context |
| ViewContext.GetPathAppend | test/adapters/bonbon.js:232-246 | following path p then q reads the same as following p + q |
| ViewContext.SubsetComposes | test/adapters/bonbon.js:232-246 | the query "a.b" reads b's path inside what "a" selects |
| ViewContext.TwoStepQuery | test/adapters/bonbon.js:232-246 | a query "a.b" without further dots reads property b of property a, and undefined when a is missing |
| ViewContext.ProfileResource | test/adapters/bonbon.js:232-246 | `?json=profile.resource` yields the context's profile's resource object |
| ViewContext.ProductionServesEmployeesOnly | test/adapters/bonbon.js:248-262 | in production the JSON context is served exactly to employees, and never to anonymous viewers |
| ViewContext.DevServesEveryone | test/adapters/bonbon.js:297-312 | with NODE_ENV "dev" every viewer, anonymous included, gets the whole context |
| ViewContext.UnlistedViewerIsNoEmployee | test/adapters/bonbon.js:264-278 | in production a viewer the directory does not list, "constructor" included, gets the template whatever the `json` query |
| ViewContext.TestViewers | test/adapters/bonbon.js:200-294 | in production seldo gets the whole context, while bob and "constructor" get "user/profile" |

## Left out

- The background-refresh cache's internals: refreshing, coalescing concurrent fetches and serving stale entries. Its source is not part of this model, and this is concurrency. `PageCache.get` is an uninterpreted function.
- `url.resolve`, `node-fetch`, `res.json()` and `Date.now()`. These are I/O or library calls. The response is an `Upstream` value and the clock reading is an input.
- CmsAgent.AddMarker: stamps a copy of the value rather than writing into the decoded object in place. Nothing else holds that object, so no aliasing is lost.
- JSON numbers are integers. Fractions, infinities and NaN as a JSON value are left out; the one NaN the handler computes (`numMoreDependents` without a `dependentCount`) is the `JsNumber` value `NaN`. A page whose `id` is NaN would be rejected by the source, and the model cannot express it. A `dependentCount` that is present but not a number is not modelled.
- JsValues.Get: reads own properties only. Inherited properties such as `constructor` are not read through it. The agent and the package handler read through `Get` only `id`, `html`, `title`, `url`, `unpublished` and `length`, which no JSON payload inherits with a truthy value. The other properties the package handler reads (`name`, `time`, `stars`, `collaborators`, `bugs`, `pull_requests`, `dependentCount`) are fields of `PackageDoc`, and none of them is an inherited name either.
- ViewContext.GetPath: reads own properties only, through `JsValues.Get`. A JavaScript getter following a query such as `?json=constructor` reaches an inherited function, which the model reads as undefined; JSON serialisation of such a value is not modelled either.
- PackageHandler.ShowFetched: the `npmo` feature choice (`downloads` is null) is part of the `Joined` input, not decided by the handler.
- `P.join` parallelism, logger calls, `reply.view` rendering, `userfacts`/`CMS.getPromotion`, and `exports.update`. These are asynchronous or rendering glue, or a thin wrapper over the package agent. View outcomes are datatype values.
- `validate-npm-package-name` and `npm-package-arg` are foreign libraries. Their answers are the `NameFacts` input.
- CmsHandler.DismissNotice: `agent.save()` is not awaited and its target is not visible, so the model counts save requests. What the server does with the synchronous throw of an anonymous request is outside `handlers/cms.js`; the model stops at the `Thrown` outcome. The returnURL branch calls `validate`, which `handlers/cms.js` does not define, so it is modelled as that error reply rather than a redirect.
- The session adapter's hashing and random token generation. The hash is an uninterpreted function whose outputs have one fixed length; where two users must be told apart, that their hashes differ is a premise. The token is an input. Redis I/O and callbacks are left out. The store is a map.
- SessionKeys.SessionStore.GetKeysWithPrefix: the order of the listed keys is not modelled. The store's scan order is unspecified.
- The mapping from `FEATURE_*` environment variables to flag names is not modelled. Flags are a map from name to value, and group membership is a `Directory` input, because the fixtures are not shown.
- ViewContext.GetPath: paths are split on '.' only. A lodash-style getter also understands bracket notation, which no query in the tests uses.
- The employee check and the `json` query handling live in the bonbon plugin, whose source is not part of this model. Employment is membership in the npm-humans group of the `Directory` input.
- The page-view counter and the charset header are not modelled. Their tests check nothing about the model's rules: the counter test swallows its own failures, and the header test is HTTP-only.
- `test/enterprise/find-license.js` is not modelled. Its outcomes are keyed on e-mail addresses interpreted by unseen mocks.

## Findings

| source | as written | input that shows it | evidently intended | confidence | as-written member | corrected member |
|---|---|---|---|---|---|---|
| handlers/package.js:57-59 | `loggedInUser.name in pkg.collaborators` also holds for names every object inherits; `PackageHandler.ShowFetched` and `PackageHandler.Show` model this code as written | a logged-in user named `constructor` viewing a package whose collaborators object does not list that name gets `isCollaboratedOnByUser` true | true only when the name is an own key of `collaborators` | not executed; follows from the semantics of JavaScript's `in` | PackageHandler.CollaboratedOnAsWritten (shown by PackageHandler.ConstructorCollaboratesEverywhere) | PackageHandler.CollaboratedOn (agreeing off the prototype names: PackageHandler.CollaboratedOnAgreesOffPrototype) |
