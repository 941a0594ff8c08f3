/** The content-page handlers: rendering a page the agent fetched, and dismissing a notice. */
module CmsHandler {
  import opened Wrappers
  import opened JsValues
  import opened CmsAgent

  /** What `displayCMSPage` replies with. */
  datatype CmsReply =
    | PageView(page: Json, title: Option<Json>, contentIsFullwidth: bool)  // view "cms"
    | NotFoundView(err: FetchError)                                         // view "errors/not-found"
    | ErrorReply(err: FetchError)                                           // `reply(err)`
  {
    function Template(): string
      requires !ErrorReply?
    {
      if PageView? then "cms" else "errors/not-found"
    }

    function Code(): int
      requires !ErrorReply?
    {
      if PageView? then 200 else 404
    }
  }

  /** `displayCMSPage` given what the agent settled with for the requested slug. */
  function DisplayCmsPage(fetched: Result<Json, FetchError>): (r: CmsReply)
    ensures fetched.Success? ==>
              && r.PageView? && r.Template() == "cms" && r.Code() == 200
              && r.page == fetched.value && r.title == Get(fetched.value, "title")
              && r.contentIsFullwidth
    ensures fetched.Failure? ==> (r.NotFoundView? <==> fetched.error.StatusCode() == Some(404))
    ensures r.NotFoundView? ==> r.Template() == "errors/not-found" && r.Code() == 404 && r.err == fetched.error
    ensures fetched.Failure? && !r.NotFoundView? ==> r == ErrorReply(fetched.error)
  {
    match fetched
    case Success(page) => PageView(page, Get(page, "title"), true)
    case Failure(err) => if err.StatusCode() == Some(404) then NotFoundView(err) else ErrorReply(err)
  }

  /** End to end: when the cache's answer for a slug is a fetch the upstream answered with 404,
      the visitor gets the not-found page with code 404. */
  lemma UpstreamNotFoundIsNotFoundPage(cache: PageCache, slug: string, body: Body, now: int)
    requires cache.get(slug) == FetchPage(Response(404, body), now)
    ensures DisplayCmsPage(GetPage(cache, slug)).NotFoundView?
    ensures DisplayCmsPage(GetPage(cache, slug)).Code() == 404
  {
  }

  /** Every other failed fetch is handed on as it is: only an upstream 404 is turned into a page. */
  lemma OtherFailuresPassThrough(resp: Upstream, now: int)
    requires FetchPage(resp, now).Failure?
    requires !(resp.Response? && resp.status == 404)
    ensures DisplayCmsPage(FetchPage(resp, now)) == ErrorReply(FetchPage(resp, now).error)
  {
  }

  /** A fetched page renders with its (truthy) title. */
  lemma FetchedPageShowsTitle(resp: Upstream, now: int)
    requires FetchPage(resp, now).Success?
    ensures DisplayCmsPage(FetchPage(resp, now)).PageView?
    ensures Truthy(DisplayCmsPage(FetchPage(resp, now)).title)
  {
  }

  /** The user object the agent's `get` resolves with; `resource` is `None` when the object has
      no `resource` property. */
  class UserRecord {
    var resource: Option<map<string, string>>

    constructor (resource: Option<map<string, string>>)
      ensures this.resource == resource
    {
      this.resource := resource;
    }
  }

  /** The user agent of one request. `save` is fired without waiting for it, so the model only
      counts the requests. */
  class UserAgent {
    var saveRequests: nat

    constructor ()
      ensures saveRequests == 0
    {
      saveRequests := 0;
    }

    method Save()
      modifies this
      ensures saveRequests == old(saveRequests) + 1
    {
      saveRequests := saveRequests + 1;
    }
  }

  /** What `dismissNotice` does: reply with an empty object, reply with an error (`.catch(reply)`),
      or throw before any promise is made. */
  datatype DismissReply = EmptyObject | Rejected(err: DismissError) | Thrown(err: DismissError)

  datatype DismissError =
    | LookupFailed(reason: string)  // the user agent's `get` rejected
    | NoResource                    // TypeError: setting `dismiss` on an undefined `resource`
    | ValidateUndefined             // ReferenceError: `validate` is not defined in the handler's file
    | NoLoggedInUser                // TypeError: reading `name` of an undefined `loggedInUser`

  const Dismiss := "dismiss"

  /** `dismissNotice` given the user agent, the logged-in user's name (`None` for an anonymous
      request, which throws before the agent is asked) and what the agent's `get` settled with:
      the user's `dismiss` field is cleared and a save requested; with no (or an empty)
      `returnURL` the reply is an empty object, and with one the handler calls an undefined
      `validate`, so the reply is that error. A user without a `resource` object makes the
      callback throw before the save, and that error is the reply. */
  method DismissNotice(agent: UserAgent, loggedIn: Option<string>, lookup: Result<UserRecord, string>,
                       returnUrl: Option<string>)
    returns (r: DismissReply)
    modifies agent
    modifies if lookup.Success? then {lookup.value} else {}
    ensures loggedIn.None? ==> r == Thrown(NoLoggedInUser)
    ensures loggedIn.Some? && lookup.Failure? ==> r == Rejected(LookupFailed(lookup.error))
    ensures loggedIn.Some? && lookup.Success? && lookup.value.resource.None? ==> r == Rejected(NoResource)
    ensures loggedIn.None? || lookup.Failure? || old(lookup.value.resource).None? ==>
              agent.saveRequests == old(agent.saveRequests)
              && (lookup.Success? ==> lookup.value.resource == old(lookup.value.resource))
    ensures loggedIn.Some? && lookup.Success? && old(lookup.value.resource).Some? ==>
              && lookup.value.resource == Some(old(lookup.value.resource).value[Dismiss := ""])
              && agent.saveRequests == old(agent.saveRequests) + 1
              && r == (if returnUrl.Some? && returnUrl.value != "" then Rejected(ValidateUndefined) else EmptyObject)
  {
    if loggedIn.None? {
      return Thrown(NoLoggedInUser);
    }
    match lookup
    case Failure(reason) =>
      r := Rejected(LookupFailed(reason));
    case Success(user) =>
      if user.resource.None? {
        return Rejected(NoResource);
      }
      user.resource := Some(user.resource.value[Dismiss := ""]);
      agent.Save();
      if returnUrl.Some? && returnUrl.value != "" {
        r := Rejected(ValidateUndefined);
      } else {
        r := EmptyObject;
      }
  }
}
