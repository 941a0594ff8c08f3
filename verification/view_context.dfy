/** Who may ask a page for its view context as JSON (the `json` query parameter), and
    which part of the context comes back. */
module ViewContext {
  import opened Wrappers
  import opened Strings
  import opened JsValues
  import opened FeatureFlags

  /** The group that makes a viewer an npm employee. */
  const EmployeeGroup := "npm-humans"

  /** The `NODE_ENV` value under which every viewer may see the JSON context. */
  const DevEnv := "dev"

  predicate IsEmployee(directory: Directory, user: Option<string>) {
    EmployeeGroup in GroupsOf(directory, user)
  }

  /** What the page replies: the (part of the) view context as JSON, or the rendered template.
      `body` is `None` when the requested path leads nowhere (JSON `undefined`). */
  datatype ViewReply = JsonReply(body: Option<Json>) | HtmlView(template: string, context: Json)

  /** Reads a property path the way a safe nested getter does: a missing or null step makes
      the whole read undefined. */
  function GetPath(v: Option<Json>, path: seq<string>): (r: Option<Json>)
    ensures path == [] ==> r == v
    ensures v.None? || v == Some(JNull) ==> (path != [] ==> r.None?)
    ensures |path| == 1 && v.Some? ==> r == Get(v.value, path[0])
    decreases |path|
  {
    if path == [] then v
    else match v
      case None => None
      case Some(x) => GetPath(Get(x, path[0]), path[1..])
  }

  /** The part of the context a `json` query value asks for: an empty value is the whole
      context, otherwise the value is a dot-separated property path into it. */
  function JsonSubset(context: Json, query: string): (r: Option<Json>)
    ensures query == "" ==> r == Some(context)
    ensures query != "" ==> r == GetPath(Some(context), Split(query, '.'))
  {
    if query == "" then Some(context) else GetPath(Some(context), Split(query, '.'))
  }

  /** A query without a dot reads that one property of the context. */
  lemma SingleProperty(context: Json, query: string)
    requires query != "" && '.' !in query
    ensures JsonSubset(context, query) == Get(context, query)
  {
    SplitPlain(query, '.');
  }

  /** The reply to a page request. `jsonQuery` is the `json` query parameter (`None` when it is
      absent, `Some("")` when it is present without a value). */
  function Respond(nodeEnv: Option<string>, directory: Directory, user: Option<string>,
                   jsonQuery: Option<string>, template: string, context: Json): (r: ViewReply)
    ensures r.JsonReply? <==> jsonQuery.Some? && (nodeEnv == Some(DevEnv) || IsEmployee(directory, user))
    ensures r.JsonReply? ==> r.body == JsonSubset(context, jsonQuery.value)
    ensures r.HtmlView? ==> r.template == template && r.context == context
  {
    if jsonQuery.Some? && (nodeEnv == Some(DevEnv) || IsEmployee(directory, user)) then
      JsonReply(JsonSubset(context, jsonQuery.value))
    else
      HtmlView(template, context)
  }

  /** Following a path in two legs reaches the same place as following it at once. */
  lemma {:induction false} GetPathAppend(v: Option<Json>, p: seq<string>, q: seq<string>)
    ensures GetPath(v, p + q) == GetPath(GetPath(v, p), q)
    decreases |p|
  {
    if p == [] {
      assert p + q == q;
    } else if v.None? {
      assert GetPath(v, p + q) == None;
      if q != [] {
        assert GetPath(None, q) == None;
      }
    } else {
      assert (p + q)[0] == p[0];
      assert (p + q)[1..] == p[1..] + q;
      GetPathAppend(Get(v.value, p[0]), p[1..], q);
    }
  }

  /** A dotted query `a.b` reads `b` inside what `a` selects. */
  lemma {:induction false} SubsetComposes(context: Json, a: string, b: string)
    requires a != ""
    ensures JsonSubset(context, a + "." + b) == GetPath(JsonSubset(context, a), Split(b, '.'))
  {
    assert a + "." + b == a + ['.'] + b;
    SplitAppend(a, '.', b);
    GetPathAppend(Some(context), Split(a, '.'), Split(b, '.'));
  }

  /** A two-step query `a.b`, neither step holding a dot, reads property `b` of property `a`. */
  lemma {:induction false} TwoStepQuery(context: Json, a: string, b: string)
    requires a != "" && '.' !in a && b != "" && '.' !in b
    ensures JsonSubset(context, a + "." + b)
            == if Get(context, a).Some? then Get(Get(context, a).value, b) else None
  {
    SubsetComposes(context, a, b);
    SingleProperty(context, a);
    SplitPlain(b, '.');
  }

  /** `?json=profile.resource` yields the `resource` object of the context's `profile`. */
  lemma {:induction false} ProfileResource(context: Json, profile: Json, resource: Json)
    requires context.JObj? && "profile" in context.fields && context.fields["profile"] == profile
    requires profile.JObj? && "resource" in profile.fields && profile.fields["resource"] == resource
    ensures JsonSubset(context, "profile.resource") == Some(resource)
  {
    var a, b := "profile", "resource";
    assert '.' !in a && '.' !in b;
    TwoStepQuery(context, a, b);
    assert a + "." + b == "profile.resource";
  }

  /** In production the JSON context goes to employees only; everyone else, anonymous viewers
      included, gets the template. */
  lemma ProductionServesEmployeesOnly(directory: Directory, user: Option<string>, query: string,
                                      template: string, context: Json)
    ensures Respond(Some("production"), directory, user, Some(query), template, context).JsonReply?
            <==> IsEmployee(directory, user)
    ensures user.None? ==> Respond(Some("production"), directory, user, Some(query), template, context)
                           == HtmlView(template, context)
  {
  }

  /** Under `NODE_ENV=dev` every viewer, anonymous ones included, gets the JSON context. */
  lemma DevServesEveryone(directory: Directory, user: Option<string>, template: string, context: Json)
    ensures Respond(Some(DevEnv), directory, user, Some(""), template, context) == JsonReply(Some(context))
  {
  }

  /** In production a viewer the directory does not list is shown the template, whatever the
      `json` query: group membership is looked up by the directory's own entries only, so a name
      such as `constructor` gains no groups from what objects inherit. */
  lemma UnlistedViewerIsNoEmployee(directory: Directory, name: string, query: string,
                                   template: string, context: Json)
    requires name !in directory
    ensures Respond(Some("production"), directory, Some(name), Some(query), template, context)
            == HtmlView(template, context)
  {
  }

  /** The test viewers in production: seldo, an employee, gets the whole context; bob and
      `constructor` get the profile template. */
  lemma {:induction false} TestViewers(context: Json)
    ensures Respond(Some("production"), TestDirectory, Some("seldo"), Some(""), "user/profile", context)
            == JsonReply(Some(context))
    ensures Respond(Some("production"), TestDirectory, Some("bob"), Some(""), "user/profile", context)
            == HtmlView("user/profile", context)
    ensures Respond(Some("production"), TestDirectory, Some("constructor"), Some(""), "user/profile", context)
            == HtmlView("user/profile", context)
  {
    assert GroupsOf(TestDirectory, Some("seldo")) == {"npm-humans"};
    assert GroupsOf(TestDirectory, Some("bob")) == {};
    assert "constructor" !in TestDirectory;
  }
}
