/** The package page handler: decorating the package record the registry returned, and turning
    the errors of the lookup into a billing redirect, a "package not found" page or a 500. */
module PackageHandler {
  import opened Wrappers
  import opened JsValues

  /** The logged-in user of the request. */
  datatype User = User(name: string)

  /** An error the handler's promise chain rejected with, with its `statusCode` when it has one. */
  datatype HandlerError = HandlerError(message: string, statusCode: Option<int>)

  /** A dependents listing as the package agent's `list` returns it. */
  datatype Dependents = Dependents(results: seq<string>)

  /** The registry's fields of a package that the handler reads and never writes. `None` stands
      for an absent (undefined) property. */
  datatype PackageDoc = PackageDoc(
    name: Option<string>,
    time: Option<Json>,
    stars: Option<Json>,
    collaborators: Option<Json>,
    bugs: Option<Json>,
    pullRequests: Option<Json>,
    dependentCount: Option<int>)

  /** A JavaScript number as the handler computes one: an integer, or `NaN` from arithmetic on
      `undefined`. */
  datatype JsNumber = Finite(n: int) | NaN

  /** The package object the agent returned; the handler assigns the fields below in place.
      `None` stands for a property never assigned. */
  class PackageRecord {
    const doc: PackageDoc
    var dependents: Option<Option<Dependents>>
    var downloads: Option<Json>
    var numMoreDependents: Option<JsNumber>
    var isStarred: Option<bool>
    var isCollaboratedOnByUser: Option<bool>
    var hasStats: Option<Json>

    constructor (doc: PackageDoc, downloads: Option<Json>)
      ensures this.doc == doc && this.downloads == downloads
      ensures dependents.None? && numMoreDependents.None? && isStarred.None?
      ensures isCollaboratedOnByUser.None? && hasStats.None?
    {
      this.doc := doc;
      this.downloads := downloads;
      dependents, numMoreDependents, isStarred, isCollaboratedOnByUser, hasStats := None, None, None, None, None;
    }
  }

  /** What the four parallel lookups resolved to. `pkg` is `null` when the agent resolved with
      `null`; `downloads` is `null` when the `npmo` feature is on; `dependents` is `None` for a
      `null` listing. */
  datatype Joined = Joined(pkg: PackageRecord?, dependents: Option<Dependents>, downloads: Json, promotion: Json)

  /** What the name libraries say about the requested name: `validate(name).validForNewPackages`
      and `npa(name).scope` (`None` for `null`). */
  datatype NameFacts = NameFacts(validForNewPackages: bool, scope: Option<string>)

  /** The parsed name the not-found page shows, with the flags the handler sets on it; `false`
      stands for a flag never set. */
  datatype PackageSpec = PackageSpec(
    name: string,
    scope: Option<string>,
    available: bool,
    owner: Option<string>,
    unavailableToLoggedInUser: bool,
    unavailableToAnonymousUser: bool)

  /** What `show` replies with. */
  datatype ShowReply =
    | PackageView(title: string, promotion: Json, pkg: PackageRecord)  // view "package/show"
    | UnpublishedView(title: string, promotion: Json)                  // view "package/unpublished"
    | BillingRedirect(location: string)
    | NotFoundView(title: string, spec: PackageSpec, code: int)        // view "errors/package-not-found"
    | ErrorReply(err: HandlerError)                                    // `reply(err)`
  {
    function Template(): string
      requires PackageView? || UnpublishedView? || NotFoundView?
    {
      if PackageView? then "package/show"
      else if UnpublishedView? then "package/unpublished"
      else "errors/package-not-found"
    }

    function Code(): int
      requires PackageView? || UnpublishedView? || NotFoundView?
    {
      if PackageView? then 200 else if UnpublishedView? then 404 else code
    }
  }

  /** The error `name in null` throws. */
  const InOnNull := HandlerError("TypeError: Cannot use 'in' operator to search in null", None)

  /** The error `pkg.dependents = dependents` throws when the package is `null`. */
  const SetOnNull := HandlerError("TypeError: Cannot set property 'dependents' of null", None)

  /** The error `pkg.name[0]` throws when the package has no name. */
  const IndexOnUndefined := HandlerError("TypeError: Cannot read property '0' of undefined", None)

  /** `pkg.dependentCount - pkg.dependents.results.length`: `NaN` when the count is absent. */
  function MoreDependents(dependentCount: Option<int>, listed: nat): (r: JsNumber)
    ensures r.NaN? <==> dependentCount.None?
    ensures r.Finite? ==> r.n + listed == dependentCount.value
  {
    if dependentCount.Some? then Finite(dependentCount.value - listed) else NaN
  }

  /** `pkg.name[0] != '@'`: downloads belong to unscoped packages; an empty name has no first
      character, which is not '@'. */
  predicate ShowsDownloads(name: string) {
    |name| == 0 || name[0] != '@'
  }

  /** `pkg && pkg.time && pkg.time.unpublished`. */
  predicate Unpublished(doc: PackageDoc) {
    Truthy(doc.time) && Truthy(Get(doc.time.value, "unpublished"))
  }

  /** `Array.prototype.indexOf` with strict equality. */
  function IndexOf(items: seq<Json>, x: Json): (i: int)
    ensures -1 <= i < |items|
    ensures i == -1 <==> x !in items
    ensures i >= 0 ==> items[i] == x && x !in items[..i]
  {
    if |items| == 0 then -1
    else if items[0] == x then 0
    else
      var k := IndexOf(items[1..], x);
      if k == -1 then -1
      else
        assert items[..k + 1] == [items[0]] + items[1..][..k];
        k + 1
  }

  /** `isStarred`: a user is logged in, `stars` is an array, and it holds the user's name. */
  function Starred(user: Option<User>, stars: Option<Json>): (b: bool)
    ensures b <==> user.Some? && stars.Some? && stars.value.JArr? && JStr(user.value.name) in stars.value.items
  {
    user.Some? && stars.Some? && stars.value.JArr?
    && IndexOf(stars.value.items, JStr(user.value.name)) > -1
  }

  /** `isCollaboratedOnByUser` as written, `loggedInUser.name in pkg.collaborators`: JavaScript's
      `in` also finds the names every object inherits (and every array, when the collaborators
      are an array), and it throws on `null`. */
  function CollaboratedOnAsWritten(user: Option<User>, collaborators: Option<Json>): (r: Result<bool, HandlerError>)
    ensures r.Failure? <==> user.Some? && collaborators == Some(JNull)
    ensures r.Failure? ==> r.error == InOnNull
    ensures r.Success? ==> (r.value <==> user.Some? && collaborators.Some?
                                         && (collaborators.value.JObj? || collaborators.value.JArr?)
                                         && (OwnKey(collaborators.value, user.value.name)
                                             || user.value.name in ObjectPrototypeNames
                                             || (collaborators.value.JArr? && user.value.name in ArrayPrototypeNames)))
  {
    if user.None? then Success(false)
    else if collaborators.None? || TypeOf(collaborators.value) != "object" then Success(false)
    else match InOperator(user.value.name, collaborators.value)
      case None => Failure(InOnNull)
      case Some(b) => Success(b)
  }

  /** `isCollaboratedOnByUser` as intended: a user is logged in, `collaborators` is an object, and
      the user's name is one of its own keys. A `null` listing still throws. */
  function CollaboratedOn(user: Option<User>, collaborators: Option<Json>): (r: Result<bool, HandlerError>)
    ensures r.Failure? <==> user.Some? && collaborators == Some(JNull)
    ensures r.Failure? ==> r.error == InOnNull
    ensures r.Success? ==> (r.value <==> user.Some? && collaborators.Some?
                                         && (collaborators.value.JObj? || collaborators.value.JArr?)
                                         && OwnKey(collaborators.value, user.value.name))
  {
    if user.None? then Success(false)
    else if collaborators.None? || TypeOf(collaborators.value) != "object" then Success(false)
    else match HasOwnProperty(collaborators.value, user.value.name)
      case None => Failure(InOnNull)
      case Some(b) => Success(b)
  }

  /** A user named "constructor" collaborates, as written, on every package whose collaborators
      are an object, though no such key is listed; the intended check says no. */
  lemma ConstructorCollaboratesEverywhere(fields: map<string, Json>)
    requires "constructor" !in fields
    ensures CollaboratedOnAsWritten(Some(User("constructor")), Some(JObj(fields))) == Success(true)
    ensures CollaboratedOn(Some(User("constructor")), Some(JObj(fields))) == Success(false)
  {
  }

  /** For a name no object or array inherits, the check as written and the intended one agree. */
  lemma CollaboratedOnAgreesOffPrototype(user: Option<User>, collaborators: Option<Json>)
    requires user.Some? ==> user.value.name !in ObjectPrototypeNames && user.value.name !in ArrayPrototypeNames
    ensures CollaboratedOnAsWritten(user, collaborators) == CollaboratedOn(user, collaborators)
  {
  }

  /** JavaScript's `a || b`. */
  function JsOr(a: Option<Json>, b: Option<Json>): (r: Option<Json>)
    ensures Truthy(r) <==> Truthy(a) || Truthy(b)
  {
    if Truthy(a) then a else b
  }

  /** `v && v.url`. */
  function UrlOf(v: Option<Json>): (r: Option<Json>)
    ensures Truthy(r) <==> Truthy(v) && Truthy(Get(v.value, "url"))
  {
    if Truthy(v) then Get(v.value, "url") else v
  }

  /** `pkg.hasStats`: truthy exactly when the package has truthy downloads, a bugs URL or a pull
      requests URL; it is the first of those that is truthy. */
  function HasStats(downloads: Option<Json>, bugs: Option<Json>, pullRequests: Option<Json>): (r: Option<Json>)
    ensures Truthy(r) <==> Truthy(downloads) || Truthy(UrlOf(bugs)) || Truthy(UrlOf(pullRequests))
    ensures Truthy(downloads) ==> r == downloads
  {
    JsOr(downloads, JsOr(UrlOf(bugs), UrlOf(pullRequests)))
  }

  /** The state the success branch of `show` leaves `pkg` in: `dependents` always; then, for a
      package with a name, the downloads of an unscoped package; then, for a package still
      published, the number of further dependents, the star and collaborator flags (the
      collaborator check as written, which may throw) and `hasStats`. A field a step that was
      not reached would have set keeps its old value. */
  twostate predicate Decorated(user: Option<User>, pkg: PackageRecord, dependents: Option<Dependents>, downloads: Json)
    reads pkg
  {
    var named := pkg.doc.name.Some?;
    var published := named && !Unpublished(pkg.doc);
    var collaborated := CollaboratedOnAsWritten(user, pkg.doc.collaborators);
    && pkg.dependents == Some(dependents)
    && pkg.downloads == (if named && ShowsDownloads(pkg.doc.name.value) then Some(downloads) else old(pkg.downloads))
    && pkg.numMoreDependents == (if published && dependents.Some? && |dependents.value.results| > 0
                                 then Some(MoreDependents(pkg.doc.dependentCount, |dependents.value.results|))
                                 else old(pkg.numMoreDependents))
    && pkg.isStarred == (if published then Some(Starred(user, pkg.doc.stars)) else old(pkg.isStarred))
    && pkg.isCollaboratedOnByUser == (if published && collaborated.Success? then Some(collaborated.value)
                                      else old(pkg.isCollaboratedOnByUser))
    && pkg.hasStats == (if published && collaborated.Success?
                        then HasStats(pkg.downloads, pkg.doc.bugs, pkg.doc.pullRequests)
                        else old(pkg.hasStats))
  }

  /** The success branch of `show`: decorate the package in place and choose the view. It fails
      when the package is `null`, when it has no name, and when the collaborators check throws. */
  method ShowFetched(name: string, user: Option<User>, j: Joined) returns (r: Result<ShowReply, HandlerError>)
    modifies j.pkg
    ensures j.pkg == null ==> r == Failure(SetOnNull)
    ensures j.pkg != null ==> Decorated(user, j.pkg, j.dependents, j.downloads)
    ensures j.pkg != null && j.pkg.doc.name.None? ==> r == Failure(IndexOnUndefined)
    ensures j.pkg != null && j.pkg.doc.name.Some? && Unpublished(j.pkg.doc) ==>
              r == Success(UnpublishedView(name, j.promotion))
    ensures j.pkg != null && j.pkg.doc.name.Some? && !Unpublished(j.pkg.doc) ==>
              r == (if CollaboratedOnAsWritten(user, j.pkg.doc.collaborators).Success?
                    then Success(PackageView(name, j.promotion, j.pkg)) else Failure(InOnNull))
  {
    var pkg := j.pkg;
    if pkg == null {
      return Failure(SetOnNull);
    }
    pkg.dependents := Some(j.dependents);
    if pkg.doc.name.None? {
      return Failure(IndexOnUndefined);
    }
    if ShowsDownloads(pkg.doc.name.value) {
      pkg.downloads := Some(j.downloads);
    }
    if Unpublished(pkg.doc) {
      return Success(UnpublishedView(name, j.promotion));
    }
    if j.dependents.Some? && |j.dependents.value.results| > 0 {
      pkg.numMoreDependents := Some(MoreDependents(pkg.doc.dependentCount, |j.dependents.value.results|));
    }
    pkg.isStarred := Some(Starred(user, pkg.doc.stars));
    var collaborated := CollaboratedOnAsWritten(user, pkg.doc.collaborators);
    if collaborated.Failure? {
      return Failure(collaborated.error);
    }
    pkg.isCollaboratedOnByUser := Some(collaborated.value);
    pkg.hasStats := HasStats(pkg.downloads, pkg.doc.bugs, pkg.doc.pullRequests);
    r := Success(PackageView(name, j.promotion, pkg));
  }

  /** `npa(name).scope` as a JavaScript condition. */
  predicate Scoped(facts: NameFacts) {
    facts.scope.Some? && facts.scope.value != ""
  }

  /** What the catch branch of `show` promises for an error `err`. */
  ghost predicate HandlesError(name: string, user: Option<User>, err: HandlerError, facts: NameFacts, r: ShowReply) {
    && (err.statusCode == Some(402) ==> r == BillingRedirect("/settings/billing?package=" + name))
    && (err.statusCode == Some(404) ==>
          && r.NotFoundView? && r.title == name && r.spec.name == name && r.spec.scope == facts.scope
          && (!facts.validForNewPackages ==>
                && r.Code() == 400 && !r.spec.available && r.spec.owner.None?
                && !r.spec.unavailableToLoggedInUser && !r.spec.unavailableToAnonymousUser)
          && (facts.validForNewPackages ==>
                && r.Code() == 404
                && r.spec.owner == (if Scoped(facts) then Some(facts.scope.value[1..]) else None)
                && (r.spec.available <==>
                      !Scoped(facts) || (user.Some? && user.value.name == facts.scope.value[1..]))
                && (r.spec.unavailableToLoggedInUser <==> !r.spec.available && user.Some?)
                && (r.spec.unavailableToAnonymousUser <==> !r.spec.available && user.None?)))
    && (err.statusCode != Some(402) && err.statusCode != Some(404) ==>
          r == ErrorReply(err.(statusCode := Some(500))))
  }

  /** The catch branch of `show`: 402 redirects to billing, 404 classifies the name's
      availability, and anything else is replied as a 500. */
  method ShowError(name: string, user: Option<User>, err: HandlerError, facts: NameFacts) returns (r: ShowReply)
    ensures HandlesError(name, user, err, facts, r)
  {
    if err.statusCode == Some(402) {
      return BillingRedirect("/settings/billing?package=" + name);
    }
    if err.statusCode == Some(404) {
      var spec := PackageSpec(name, facts.scope, false, None, false, false);
      if !facts.validForNewPackages {
        return NotFoundView(name, spec, 400);
      }
      if Scoped(facts) {
        spec := spec.(owner := Some(facts.scope.value[1..]));
      }
      if !Scoped(facts) || (user.Some? && spec.owner == Some(user.value.name)) {
        spec := spec.(available := true);
      } else if user.Some? {
        spec := spec.(unavailableToLoggedInUser := true);
      } else {
        spec := spec.(unavailableToAnonymousUser := true);
      }
      return NotFoundView(name, spec, 404);
    }
    var failed := err.(statusCode := Some(500));
    r := ErrorReply(failed);
  }

  /** A name that is free and either unscoped or in the user's own scope is offered as available;
      otherwise exactly one of the two "unavailable" flags is set. */
  lemma {:induction false} AvailabilityIsExclusive(name: string, user: Option<User>, err: HandlerError, facts: NameFacts, r: ShowReply)
    requires HandlesError(name, user, err, facts, r)
    requires err.statusCode == Some(404)
    ensures r.NotFoundView?
    ensures (if r.spec.available then 1 else 0) + (if r.spec.unavailableToLoggedInUser then 1 else 0)
            + (if r.spec.unavailableToAnonymousUser then 1 else 0) == (if facts.validForNewPackages then 1 else 0)
  {
    if facts.validForNewPackages {
      if r.spec.available {
        assert !r.spec.unavailableToLoggedInUser && !r.spec.unavailableToAnonymousUser;
      } else if user.Some? {
        assert r.spec.unavailableToLoggedInUser && !r.spec.unavailableToAnonymousUser;
      } else {
        assert !r.spec.unavailableToLoggedInUser && r.spec.unavailableToAnonymousUser;
      }
    }
  }

  /** `show`: the success branch when all lookups resolved, and the catch branch for their
      rejection or for the error the success branch throws; a thrown `TypeError` carries no
      status code, so it is replied as a 500. */
  method Show(name: string, user: Option<User>, joined: Result<Joined, HandlerError>, facts: NameFacts)
    returns (r: ShowReply)
    modifies if joined.Success? then {joined.value.pkg} else {}
    ensures joined.Failure? ==> HandlesError(name, user, joined.error, facts, r)
    ensures joined.Success? && joined.value.pkg == null ==> r == ErrorReply(SetOnNull.(statusCode := Some(500)))
    ensures joined.Success? && joined.value.pkg != null ==>
              Decorated(user, joined.value.pkg, joined.value.dependents, joined.value.downloads)
    ensures joined.Success? && joined.value.pkg != null && joined.value.pkg.doc.name.None? ==>
              r == ErrorReply(IndexOnUndefined.(statusCode := Some(500)))
    ensures joined.Success? && joined.value.pkg != null && joined.value.pkg.doc.name.Some? ==>
              r == (if Unpublished(joined.value.pkg.doc) then UnpublishedView(name, joined.value.promotion)
                    else if CollaboratedOnAsWritten(user, joined.value.pkg.doc.collaborators).Success?
                    then PackageView(name, joined.value.promotion, joined.value.pkg)
                    else ErrorReply(InOnNull.(statusCode := Some(500))))
  {
    match joined
    case Failure(err) =>
      r := ShowError(name, user, err, facts);
    case Success(j) =>
      var outcome := ShowFetched(name, user, j);
      match outcome
      case Success(reply) =>
        r := reply;
      case Failure(err) =>
        r := ShowError(name, user, err, facts);
  }
}
