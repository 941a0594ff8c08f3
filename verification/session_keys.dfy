/** Per-user session keys in a shared key-value store: a session key is the user's prefix hash,
    the separator "---" and a random token, kept under the session namespace, so that all of one
    user's sessions can be listed and dropped by prefix. */
module SessionKeys {
  import opened Wrappers

  /** The namespace the session cache keeps its entries under. */
  const Namespace := "hapi-cache:%7Csessions:"

  const Separator := "---"

  /** How session keys are made. The prefix hash is deterministic and of one fixed length;
      which hash it is, is not part of this model. A fixed-length hash cannot be injective on
      all names, so the properties that need two users' hashes to differ take that as a premise
      about those two users. */
  datatype KeyScheme = KeyScheme(prefixHash: string -> string, hashLength: nat) {

    ghost predicate Valid() {
      forall u :: |prefixHash(u)| == hashLength
    }

    /** The hashes of `u` and `v` do not collide. */
    predicate Distinguishes(u: string, v: string) {
      prefixHash(u) != prefixHash(v)
    }

    /** `userPrefixHash(u)`. */
    function UserPrefixHash(u: string): string {
      prefixHash(u)
    }

    /** `generateRandomUserHash(u)`, with the random token as an input: the user's prefix hash,
        the separator, then the token. */
    function GenerateRandomUserHash(u: string, token: string): (key: string)
      ensures UserPrefixHash(u) + Separator <= key
      ensures key[|UserPrefixHash(u) + Separator|..] == token
    {
      UserPrefixHash(u) + Separator + token
    }

    /** The store-key prefix that `getKeysWithPrefix(u)` enumerates: the user's prefix hash and
        the separator under the namespace, or the whole namespace for the empty name. */
    function ScanPrefix(u: string): string {
      if u == "" then Namespace else Namespace + UserPrefixHash(u) + Separator
    }
  }

  /** The store key a session is kept under. */
  function StoreKey(sessionKey: string): string {
    Namespace + sessionKey
  }

  /** A scheme that meets `Valid()` and tells the test's two users apart. */
  function TestScheme(): (scheme: KeyScheme)
    ensures scheme.Valid()
    ensures scheme.Distinguishes("bob", "alice")
  {
    KeyScheme(u => if u == "bob" then "b0" else "a1", 2)
  }

  /** A session key determines its user's hash and its token: two keys are equal only when they
      were made from the same hash with the same token, so one user's sessions with different
      tokens have different keys, and two users whose hashes differ never share a key. */
  lemma {:induction false} KeyDeterminesUserAndToken(scheme: KeyScheme, u: string, v: string, t1: string, t2: string)
    requires scheme.Valid()
    requires scheme.GenerateRandomUserHash(u, t1) == scheme.GenerateRandomUserHash(v, t2)
    ensures scheme.UserPrefixHash(u) == scheme.UserPrefixHash(v) && t1 == t2
  {
    var k := scheme.GenerateRandomUserHash(u, t1);
    var n := scheme.hashLength;
    assert |scheme.UserPrefixHash(u)| == n && |scheme.UserPrefixHash(v)| == n;
    assert scheme.UserPrefixHash(u) == k[..n] == scheme.UserPrefixHash(v);
  }

  /** Every session made for `u` is found by `u`'s scan. */
  lemma OwnSessionsMatch(scheme: KeyScheme, u: string, token: string)
    ensures scheme.ScanPrefix(u) <= StoreKey(scheme.GenerateRandomUserHash(u, token))
  {
  }

  /** A key in the scans of two non-empty names carries one hash: the hashes have one length,
      so both scans read the same hash out of the key. This is what keeps "bob" and "bobby"
      apart, though "bob" is a prefix of "bobby". */
  lemma {:induction false} ScanOwnerIsUnique(scheme: KeyScheme, u: string, v: string, k: string)
    requires scheme.Valid()
    requires u != "" && v != ""
    requires scheme.ScanPrefix(u) <= k && scheme.ScanPrefix(v) <= k
    ensures scheme.UserPrefixHash(u) == scheme.UserPrefixHash(v)
  {
    var n := |Namespace|;
    var m := scheme.hashLength;
    assert |scheme.UserPrefixHash(u)| == m && |scheme.UserPrefixHash(v)| == m;
    assert scheme.UserPrefixHash(u) == scheme.ScanPrefix(u)[n..n + m] == k[n..n + m];
    assert scheme.UserPrefixHash(v) == scheme.ScanPrefix(v)[n..n + m] == k[n..n + m];
  }

  /** Scans for two non-empty names whose hashes differ never match the same key. */
  lemma ScansAreDisjoint(scheme: KeyScheme, u: string, v: string, k: string)
    requires scheme.Valid()
    requires u != "" && v != "" && scheme.Distinguishes(u, v)
    ensures !(scheme.ScanPrefix(u) <= k && scheme.ScanPrefix(v) <= k)
  {
    if scheme.ScanPrefix(u) <= k && scheme.ScanPrefix(v) <= k {
      ScanOwnerIsUnique(scheme, u, v, k);
    }
  }

  /** No session made for another user, whose hash differs, matches `u`'s scan. */
  lemma OthersSessionsDoNotMatch(scheme: KeyScheme, u: string, v: string, token: string)
    requires scheme.Valid()
    requires u != "" && v != "" && scheme.Distinguishes(u, v)
    ensures !(scheme.ScanPrefix(u) <= StoreKey(scheme.GenerateRandomUserHash(v, token)))
  {
    ScansAreDisjoint(scheme, u, v, StoreKey(scheme.GenerateRandomUserHash(v, token)));
  }

  /** The keys of the store that start with `prefix`: what a prefix scan returns. */
  function KeysWithPrefix(data: map<string, string>, prefix: string): (keys: set<string>)
    ensures forall k :: k in keys <==> k in data && prefix <= k
  {
    set k | k in data && prefix <= k
  }

  /** The store after every key starting with `prefix` is deleted. */
  function WithoutPrefix(data: map<string, string>, prefix: string): (rest: map<string, string>)
    ensures forall k :: k in rest <==> k in data && !(prefix <= k)
    ensures forall k :: k in rest ==> rest[k] == data[k]
  {
    map k | k in data && !(prefix <= k) :: data[k]
  }

  /** After `u`'s drop, `u`'s scan finds nothing, and the scan of every other (non-empty) user
      whose hash differs finds exactly what it found before, with the same values. */
  lemma {:induction false} DropIsExact(scheme: KeyScheme, data: map<string, string>, u: string, v: string)
    requires scheme.Valid()
    requires u != "" && v != "" && scheme.Distinguishes(u, v)
    ensures KeysWithPrefix(WithoutPrefix(data, scheme.ScanPrefix(u)), scheme.ScanPrefix(u)) == {}
    ensures KeysWithPrefix(WithoutPrefix(data, scheme.ScanPrefix(u)), scheme.ScanPrefix(v))
            == KeysWithPrefix(data, scheme.ScanPrefix(v))
    ensures forall k :: k in KeysWithPrefix(data, scheme.ScanPrefix(v)) ==>
              WithoutPrefix(data, scheme.ScanPrefix(u))[k] == data[k]
  {
    var rest := WithoutPrefix(data, scheme.ScanPrefix(u));
    forall k | k in data && scheme.ScanPrefix(v) <= k
      ensures k in rest
    {
      ScansAreDisjoint(scheme, u, v, k);
    }
  }

  /** A list without repetitions whose elements are exactly a set has the set's size. */
  lemma {:induction false} DistinctListSize(keys: seq<string>, s: set<string>)
    requires forall i, j :: 0 <= i < j < |keys| ==> keys[i] != keys[j]
    requires forall k :: k in keys <==> k in s
    ensures |keys| == |s|
    decreases |keys|
  {
    if |keys| > 0 {
      var last := keys[|keys| - 1];
      var front := keys[..|keys| - 1];
      assert forall k :: k in front <==> k in s - {last} by {
        forall k ensures k in front <==> k in s - {last} {
          if k in front {
            var i :| 0 <= i < |front| && front[i] == k;
            assert keys[i] != last;
          }
          if k in s - {last} {
            assert k in keys;
            var i :| 0 <= i < |keys| && keys[i] == k;
            assert i != |keys| - 1;
            assert front[i] == k;
          }
        }
      }
      DistinctListSize(front, s - {last});
    } else {
      assert forall k :: k !in s;
      assert s == {};
    }
  }

  /** The shared key-value store with the session adapter over it. */
  class SessionStore {
    const scheme: KeyScheme
    var data: map<string, string>

    constructor (scheme: KeyScheme)
      requires scheme.Valid()
      ensures this.scheme == scheme && data == map[]
    {
      this.scheme := scheme;
      data := map[];
    }

    /** The store's `set`. */
    method Set(key: string, value: string)
      modifies this
      ensures data == old(data)[key := value]
    {
      data := data[key := value];
    }

    /** The store's `get`: the stored value, or nothing for a key never set. */
    method Get(key: string) returns (r: Option<string>)
      ensures r.Some? <==> key in data
      ensures r.Some? ==> r.value == data[key]
    {
      r := if key in data then Some(data[key]) else None;
    }

    /** `getKeysWithPrefix(u)`: every stored key in `u`'s scan, each once, in no set order. */
    method GetKeysWithPrefix(u: string) returns (keys: seq<string>)
      ensures forall k :: k in keys <==> k in data && scheme.ScanPrefix(u) <= k
      ensures forall i, j :: 0 <= i < j < |keys| ==> keys[i] != keys[j]
    {
      var prefix := scheme.ScanPrefix(u);
      var unseen := data.Keys;
      keys := [];
      while unseen != {}
        invariant unseen <= data.Keys
        invariant forall k :: k in keys <==> k in data && k !in unseen && prefix <= k
        invariant forall i, j :: 0 <= i < j < |keys| ==> keys[i] != keys[j]
        decreases |unseen|
      {
        var k :| k in unseen;
        if prefix <= k {
          keys := keys + [k];
        }
        unseen := unseen - {k};
      }
    }

    /** `dropKeysWithPrefix(u)`: deletes exactly the keys `getKeysWithPrefix(u)` lists. */
    method DropKeysWithPrefix(u: string)
      modifies this
      ensures data == WithoutPrefix(old(data), scheme.ScanPrefix(u))
    {
      var keys := GetKeysWithPrefix(u);
      data := map k | k in data && k !in keys :: data[k];
    }
  }

  /** The store of the adapter's test once bob's two sessions and alice's one are set: bob's
      scan finds his two keys, and after his drop the scan of the empty name finds alice's. */
  lemma {:induction false} ScenarioScans(scheme: KeyScheme, bob1: string, bob2: string, alice1: string, data: map<string, string>)
    requires bob1 != bob2
    requires scheme.ScanPrefix("bob") <= bob1 && scheme.ScanPrefix("bob") <= bob2
    requires !(scheme.ScanPrefix("bob") <= alice1) && Namespace <= alice1
    requires data.Keys == {bob1, bob2, alice1}
    ensures KeysWithPrefix(data, scheme.ScanPrefix("bob")) == {bob1, bob2}
    ensures KeysWithPrefix(WithoutPrefix(data, scheme.ScanPrefix("bob")), scheme.ScanPrefix("")) == {alice1}
  {
    var rest := WithoutPrefix(data, scheme.ScanPrefix("bob"));
    assert rest.Keys == {alice1};
  }

  /** The store keys of the test's sessions: bob's two are distinct and in bob's scan, and
      alice's is under the namespace, outside bob's scan. */
  lemma {:induction false} ScenarioKeys(scheme: KeyScheme, bobToken1: string, bobToken2: string, aliceToken: string,
                                        bob1: string, bob2: string, alice1: string)
    requires scheme.Valid() && scheme.Distinguishes("bob", "alice")
    requires bobToken1 != bobToken2
    requires bob1 == StoreKey(scheme.GenerateRandomUserHash("bob", bobToken1))
    requires bob2 == StoreKey(scheme.GenerateRandomUserHash("bob", bobToken2))
    requires alice1 == StoreKey(scheme.GenerateRandomUserHash("alice", aliceToken))
    ensures bob1 != bob2 && alice1 != bob1 && alice1 != bob2
    ensures scheme.ScanPrefix("bob") <= bob1 && scheme.ScanPrefix("bob") <= bob2
    ensures !(scheme.ScanPrefix("bob") <= alice1) && Namespace <= alice1
  {
    var s1 := scheme.GenerateRandomUserHash("bob", bobToken1);
    var s2 := scheme.GenerateRandomUserHash("bob", bobToken2);
    assert bob1[|Namespace|..] == s1 && bob2[|Namespace|..] == s2;
    if s1 == s2 {
      KeyDeterminesUserAndToken(scheme, "bob", "bob", bobToken1, bobToken2);
    }
    OwnSessionsMatch(scheme, "bob", bobToken1);
    OwnSessionsMatch(scheme, "bob", bobToken2);
    OthersSessionsDoNotMatch(scheme, "bob", "alice", aliceToken);
  }

  /** A repetition-free listing of bob's two keys has two entries, all in bob's scan and none in
      alice's. */
  lemma {:induction false} BobListing(scheme: KeyScheme, keys: seq<string>, bob1: string, bob2: string)
    requires scheme.Valid() && scheme.Distinguishes("bob", "alice")
    requires bob1 != bob2
    requires scheme.ScanPrefix("bob") <= bob1 && scheme.ScanPrefix("bob") <= bob2
    requires forall k :: k in keys <==> k == bob1 || k == bob2
    requires forall i, j :: 0 <= i < j < |keys| ==> keys[i] != keys[j]
    ensures |keys| == 2
    ensures forall k :: k in keys ==> Namespace + scheme.UserPrefixHash("bob") + Separator <= k
    ensures forall k :: k in keys ==> !(Namespace + scheme.UserPrefixHash("alice") + Separator <= k)
  {
    assert forall k :: k in keys <==> k in {bob1, bob2};
    DistinctListSize(keys, {bob1, bob2});
    forall k | k in keys
      ensures !(Namespace + scheme.UserPrefixHash("alice") + Separator <= k)
    {
      ScansAreDisjoint(scheme, "bob", "alice", k);
    }
  }

  /** A repetition-free listing of exactly one key is that key alone. */
  lemma {:induction false} SingleListing(keys: seq<string>, key: string)
    requires forall k :: k in keys <==> k == key
    requires forall i, j :: 0 <= i < j < |keys| ==> keys[i] != keys[j]
    ensures keys == [key]
  {
    assert forall k :: k in keys <==> k in {key};
    DistinctListSize(keys, {key});
    assert keys[0] in keys;
  }

  /** The adapter's test run: two sessions for bob and one for alice are stored and read back;
      bob's scan lists his two keys; after dropping bob's sessions, the scan of the empty name
      lists alice's key alone. */
  method SessionScenario(scheme: KeyScheme, bobToken1: string, bobToken2: string, aliceToken: string)
    returns (bobKeys: seq<string>, remaining: seq<string>)
    requires scheme.Valid() && scheme.Distinguishes("bob", "alice")
    requires bobToken1 != bobToken2
    ensures |bobKeys| == 2
    ensures forall k :: k in bobKeys ==> Namespace + scheme.UserPrefixHash("bob") + Separator <= k
    ensures forall k :: k in bobKeys ==> !(Namespace + scheme.UserPrefixHash("alice") + Separator <= k)
    ensures remaining == [StoreKey(scheme.GenerateRandomUserHash("alice", aliceToken))]
  {
    var bob1 := StoreKey(scheme.GenerateRandomUserHash("bob", bobToken1));
    var bob2 := StoreKey(scheme.GenerateRandomUserHash("bob", bobToken2));
    var alice1 := StoreKey(scheme.GenerateRandomUserHash("alice", aliceToken));
    ScenarioKeys(scheme, bobToken1, bobToken2, aliceToken, bob1, bob2, alice1);

    var store := new SessionStore(scheme);
    store.Set(bob1, "This is Bob on Firefox");
    store.Set(bob2, "This is Bob on Safari");
    store.Set(alice1, "This is Alice on Opera");
    ScenarioScans(scheme, bob1, bob2, alice1, store.data);

    var read := store.Get(bob1);
    assert read == Some("This is Bob on Firefox");
    read := store.Get(bob2);
    assert read == Some("This is Bob on Safari");
    read := store.Get(alice1);
    assert read == Some("This is Alice on Opera");

    bobKeys := store.GetKeysWithPrefix("bob");
    BobListing(scheme, bobKeys, bob1, bob2);

    store.DropKeysWithPrefix("bob");
    remaining := store.GetKeysWithPrefix("");
    SingleListing(remaining, alice1);
  }
}
