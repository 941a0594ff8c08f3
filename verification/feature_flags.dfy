/** Feature flags as the site evaluates them for a viewer. A flag's value is "true" (on for
    everyone), "false" (off for everyone), or a comma-separated list whose entries are
    `group:NAME` or a bare username. */
module FeatureFlags {
  import opened Wrappers
  import opened Strings

  /** Group membership by username; a name the directory does not list is in no group. */
  type Directory = map<string, set<string>>

  /** The groups of the viewer (`None` for an anonymous one). */
  function GroupsOf(directory: Directory, user: Option<string>): set<string> {
    if user.Some? && user.value in directory then directory[user.value] else {}
  }

  const GroupTag := "group:"

  /** One entry of a flag's list. */
  datatype Entry = Group(group: string) | Username(name: string)

  function ParseEntry(s: string): (e: Entry)
    ensures e.Group? <==> GroupTag <= s
    ensures e.Group? ==> s == GroupTag + e.group
    ensures e.Username? ==> s == e.name
  {
    if GroupTag <= s then Group(s[|GroupTag|..]) else Username(s)
  }

  /** What a flag's value says. An unset flag is off. */
  datatype Rule = Everyone | Nobody | Listed(entries: seq<Entry>)

  function ParseFlag(value: Option<string>): (rule: Rule)
    ensures rule.Everyone? <==> value == Some("true")
    ensures rule.Nobody? <==> value.None? || value == Some("false")
    ensures rule.Listed? ==> |rule.entries| == |Split(value.value, ',')|
    ensures rule.Listed? ==> forall i :: 0 <= i < |rule.entries| ==> rule.entries[i] == ParseEntry(Split(value.value, ',')[i])
  {
    match value
    case None => Nobody
    case Some(v) =>
      if v == "true" then Everyone
      else if v == "false" then Nobody
      else Listed(seq(|Split(v, ',')|, i requires 0 <= i < |Split(v, ',')| => ParseEntry(Split(v, ',')[i])))
  }

  /** Whether one entry lets a logged-in viewer in. */
  predicate Admits(e: Entry, name: string, groups: set<string>) {
    match e
    case Group(g) => g in groups
    case Username(n) => n == name
  }

  /** Whether some entry of the list lets the viewer in. */
  function AnyAdmits(entries: seq<Entry>, name: string, groups: set<string>): (b: bool)
    ensures b <==> exists i :: 0 <= i < |entries| && Admits(entries[i], name, groups)
  {
    if |entries| == 0 then false
    else if Admits(entries[0], name, groups) then true
    else
      var rest := AnyAdmits(entries[1..], name, groups);
      assert forall i :: 1 <= i < |entries| ==> entries[i] == entries[1..][i - 1];
      rest
  }

  /** Whether a raw list entry names the viewer, by username or by one of the viewer's groups. */
  predicate Names(entry: string, name: string, groups: set<string>) {
    if GroupTag <= entry then entry[|GroupTag|..] in groups else entry == name
  }

  /** Whether some entry of the raw comma-separated list names the viewer. */
  predicate ListNames(value: string, name: string, groups: set<string>) {
    exists i :: 0 <= i < |Split(value, ',')| && Names(Split(value, ',')[i], name, groups)
  }

  /** Whether the viewer sees a flag: "true" is on for everyone, anonymous viewers included;
      "false" and an unset flag are off for everyone; a list is on exactly for the logged-in
      viewers it names or whose group it names. */
  function FlagEnabled(value: Option<string>, directory: Directory, user: Option<string>): (on: bool)
    ensures value == Some("true") ==> on
    ensures value.None? || value == Some("false") ==> !on
    ensures user.None? ==> (on <==> value == Some("true"))
    ensures value.Some? && value.value != "true" && value.value != "false" && user.Some? ==>
              (on <==> ListNames(value.value, user.value, GroupsOf(directory, user)))
  {
    match ParseFlag(value)
    case Everyone => true
    case Nobody => false
    case Listed(entries) =>
      if user.None? then false
      else
        ListedAdmits(entries, value.value, user.value, GroupsOf(directory, user));
        AnyAdmits(entries, user.value, GroupsOf(directory, user))
  }

  /** A parsed list admits a viewer exactly when one of its raw entries names them. */
  lemma ListedAdmits(entries: seq<Entry>, value: string, name: string, groups: set<string>)
    requires |entries| == |Split(value, ',')|
    requires forall i :: 0 <= i < |entries| ==> entries[i] == ParseEntry(Split(value, ',')[i])
    ensures AnyAdmits(entries, name, groups) <==> ListNames(value, name, groups)
  {
    var parts := Split(value, ',');
    forall i | 0 <= i < |entries|
      ensures Admits(entries[i], name, groups) <==> Names(parts[i], name, groups)
    {
    }
  }

  /** The `features` object of the view context: each flag's value for this viewer. */
  function Features(flags: map<string, string>, directory: Directory, user: Option<string>): (features: map<string, bool>)
    ensures features.Keys == flags.Keys
    ensures forall f :: f in flags ==> features[f] == FlagEnabled(Some(flags[f]), directory, user)
  {
    map f | f in flags :: FlagEnabled(Some(flags[f]), directory, user)
  }

  /** The flags the site's tests set, and the group membership their users have. */
  const TestFlags: map<string, string> :=
    map["stealth" := "false", "alpha" := "group:npm-humans",
        "beta" := "group:npm-humans,group:friends,bob", "common" := "true"]

  const TestDirectory: Directory := map["bob" := {}, "mikeal" := {"friends"}, "seldo" := {"npm-humans"}]

  /** The beta flag's list, entry by entry. */
  lemma {:induction false} BetaEntries()
    ensures Split("group:npm-humans,group:friends,bob", ',') == ["group:npm-humans", "group:friends", "bob"]
  {
    var parts := ["group:npm-humans", "group:friends", "bob"];
    assert Join(parts, ',') == "group:npm-humans,group:friends,bob";
    SplitJoin(parts, ',');
  }

  /** The alpha flag's list, a single group entry. */
  lemma AlphaEntries()
    ensures Split("group:npm-humans", ',') == ["group:npm-humans"]
  {
    SplitPlain("group:npm-humans", ',');
  }

  /** A `features` object holding exactly the four test flags, with these values. */
  predicate Shows(features: map<string, bool>, stealth: bool, alpha: bool, beta: bool, common: bool) {
    features.Keys == {"stealth", "alpha", "beta", "common"}
    && features["stealth"] == stealth && features["alpha"] == alpha
    && features["beta"] == beta && features["common"] == common
  }

  /** The flags a viewer of the tests sees, given which of the listed flags are on for them. */
  lemma {:induction false} TestFeatures(user: Option<string>, alpha: bool, beta: bool)
    requires FlagEnabled(Some(TestFlags["alpha"]), TestDirectory, user) == alpha
    requires FlagEnabled(Some(TestFlags["beta"]), TestDirectory, user) == beta
    ensures Shows(Features(TestFlags, TestDirectory, user), false, alpha, beta, true)
  {
    assert TestFlags.Keys == {"stealth", "alpha", "beta", "common"};
    assert TestFlags["stealth"] == "false";
    assert TestFlags["common"] == "true";
  }

  /** A `group:` entry names exactly the members of that group. */
  lemma GroupEntry(g: string, name: string, groups: set<string>)
    ensures Names(GroupTag + g, name, groups) <==> g in groups
  {
    assert (GroupTag + g)[..|GroupTag|] == GroupTag;
    assert (GroupTag + g)[|GroupTag|..] == g;
  }

  /** A one-entry list names a viewer exactly when its entry does. */
  lemma OneEntry(value: string, name: string, groups: set<string>)
    requires |Split(value, ',')| == 1
    ensures ListNames(value, name, groups) <==> Names(Split(value, ',')[0], name, groups)
  {
  }

  /** A three-entry list names a viewer exactly when one of its three entries does. */
  lemma ThreeEntries(value: string, name: string, groups: set<string>)
    requires |Split(value, ',')| == 3
    ensures ListNames(value, name, groups)
            <==> || Names(Split(value, ',')[0], name, groups) || Names(Split(value, ',')[1], name, groups)
                 || Names(Split(value, ',')[2], name, groups)
  {
  }

  /** A flag listing the single group npm-humans is on exactly for logged-in viewers in that
      group. */
  lemma {:induction false} AlphaFor(v: string, directory: Directory, name: string)
    requires v != "true" && v != "false"
    requires Split(v, ',') == ["group:npm-humans"]
    ensures FlagEnabled(Some(v), directory, Some(name)) <==> "npm-humans" in GroupsOf(directory, Some(name))
  {
    OneEntry(v, name, GroupsOf(directory, Some(name)));
    assert "group:npm-humans" == GroupTag + "npm-humans";
    GroupEntry("npm-humans", name, GroupsOf(directory, Some(name)));
  }

  /** A flag listing the npm-humans group, the friends group and bob is on exactly for logged-in
      viewers in either group, and for bob. */
  lemma {:induction false} BetaFor(v: string, directory: Directory, name: string)
    requires v != "true" && v != "false"
    requires Split(v, ',') == ["group:npm-humans", "group:friends", "bob"]
    ensures FlagEnabled(Some(v), directory, Some(name))
            <==> "npm-humans" in GroupsOf(directory, Some(name)) || "friends" in GroupsOf(directory, Some(name))
                 || name == "bob"
  {
    var groups := GroupsOf(directory, Some(name));
    ThreeEntries(v, name, groups);
    assert "group:npm-humans" == GroupTag + "npm-humans";
    GroupEntry("npm-humans", name, groups);
    assert "group:friends" == GroupTag + "friends";
    GroupEntry("friends", name, groups);
    assert "bob"[0] != GroupTag[0];
    assert !(GroupTag <= "bob");
  }

  /** The test's alpha and beta flags, evaluated for a logged-in viewer. */
  lemma {:induction false} TestListsFor(name: string)
    ensures FlagEnabled(Some(TestFlags["alpha"]), TestDirectory, Some(name))
            <==> "npm-humans" in GroupsOf(TestDirectory, Some(name))
    ensures FlagEnabled(Some(TestFlags["beta"]), TestDirectory, Some(name))
            <==> "npm-humans" in GroupsOf(TestDirectory, Some(name)) || "friends" in GroupsOf(TestDirectory, Some(name))
                 || name == "bob"
  {
    var alpha := TestFlags["alpha"];
    var beta := TestFlags["beta"];
    assert alpha == "group:npm-humans" && beta == "group:npm-humans,group:friends,bob";
    assert alpha[0] == 'g' && beta[0] == 'g';
    AlphaEntries();
    BetaEntries();
    AlphaFor(alpha, TestDirectory, name);
    BetaFor(beta, TestDirectory, name);
  }

  /** Anonymous viewers get only the common flag. */
  lemma AnonymousTestFlags()
    ensures Shows(Features(TestFlags, TestDirectory, None), false, false, false, true)
  {
    TestFeatures(None, false, false);
  }

  /** mikeal, in the friends group, gets beta and common. */
  lemma {:induction false} FriendTestFlags()
    ensures Shows(Features(TestFlags, TestDirectory, Some("mikeal")), false, false, true, true)
  {
    assert GroupsOf(TestDirectory, Some("mikeal")) == {"friends"};
    TestListsFor("mikeal");
    TestFeatures(Some("mikeal"), false, true);
  }

  /** bob, listed by name, gets beta and common. */
  lemma {:induction false} ListedTestFlags()
    ensures Shows(Features(TestFlags, TestDirectory, Some("bob")), false, false, true, true)
  {
    assert GroupsOf(TestDirectory, Some("bob")) == {};
    TestListsFor("bob");
    TestFeatures(Some("bob"), false, true);
  }

  /** seldo, an npm employee, gets alpha, beta and common; stealth stays off even for employees. */
  lemma {:induction false} EmployeeTestFlags()
    ensures Shows(Features(TestFlags, TestDirectory, Some("seldo")), false, true, true, true)
  {
    assert GroupsOf(TestDirectory, Some("seldo")) == {"npm-humans"};
    TestListsFor("seldo");
    TestFeatures(Some("seldo"), true, true);
  }
}
