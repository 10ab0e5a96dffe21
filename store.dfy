/**
 * The key-value store (Redis) both programs keep their per-user state in,
 * as one map from key to value held by an object whose methods are the
 * Redis commands the source issues.
 */
module Store {
  import opened Wrappers
  import opened Json

  /**
   * What a key holds: a string (GET/SET), a JSON document (a JSON.stringify'd
   * string or a RedisJSON value), a list (LPUSH/LTRIM) or a set (SADD).
   */
  datatype Value =
    | Text(text: string)
    | Doc(doc: Json)
    | List(items: seq<Json>)
    | Members(elems: set<string>)

  /** A KEYS glob with one wildcard: `prefix*suffix`. */
  datatype Pattern = Pattern(prefix: string, suffix: string)

  predicate Matches(key: string, p: Pattern) {
    |p.prefix| + |p.suffix| <= |key| && p.prefix <= key && key[|key| - |p.suffix|..] == p.suffix
  }

  /** The per-user key `user:<id>:<category>` both programs use. */
  function UserKey(userId: string, category: string): string {
    "user:" + userId + ":" + category
  }

  /** The glob `user:<id>:*` matching every key of one user. */
  function UserPattern(userId: string): Pattern {
    Pattern("user:" + userId + ":", "")
  }

  lemma UserKeyMatches(userId: string, category: string)
    ensures Matches(UserKey(userId, category), UserPattern(userId))
  {
    assert UserKey(userId, category) == ("user:" + userId + ":") + category;
  }

  predicate NoColon(s: string) {
    forall i :: 0 <= i < |s| ==> s[i] != ':'
  }

  /** Different categories of one user live under different keys. */
  lemma {:induction false} UserKeyCategories(userId: string, c1: string, c2: string)
    requires c1 != c2
    ensures UserKey(userId, c1) != UserKey(userId, c2)
  {
    var p := "user:" + userId + ":";
    assert UserKey(userId, c1) == p + c1 && UserKey(userId, c2) == p + c2;
    assert (p + c1)[|p|..] == c1 && (p + c2)[|p|..] == c2;
  }

  /** For ids without a colon, the key determines both the user and the category. */
  lemma {:induction false} UserKeyInjective(u1: string, c1: string, u2: string, c2: string)
    requires NoColon(u1) && NoColon(u2)
    requires UserKey(u1, c1) == UserKey(u2, c2)
    ensures u1 == u2 && c1 == c2
  {
    var k1, k2 := UserKey(u1, c1), UserKey(u2, c2);
    assert forall i :: 0 <= i < |u1| ==> k1[5 + i] == u1[i];
    assert forall i :: 0 <= i < |u2| ==> k2[5 + i] == u2[i];
    assert k1[5 + |u1|] == ':' && k2[5 + |u2|] == ':';
    assert |u1| == |u2|;
    assert u1 == k1[5..5 + |u1|] && u2 == k2[5..5 + |u2|];
    assert c1 == k1[6 + |u1|..] && c2 == k2[6 + |u2|..];
  }

  predicate Distinct<T(==)>(s: seq<T>) {
    forall i, j :: 0 <= i < j < |s| ==> s[i] != s[j]
  }

  /** The stored keys that match a pattern. */
  function MatchingKeys(m: map<string, Value>, p: Pattern): (r: set<string>)
    ensures forall k :: k in r <==> k in m && Matches(k, p)
  {
    set k | k in m && Matches(k, p)
  }

  lemma DistinctSnoc<T>(s: seq<T>, x: T)
    requires Distinct(s) && x !in s
    ensures Distinct(s + [x])
  {
  }

  /** Redis LTRIM key start stop for non-negative indices: keep the elements start..stop inclusive. */
  function TrimList(items: seq<Json>, start: nat, stop: nat): (r: seq<Json>)
    ensures |r| <= stop + 1
    ensures start == 0 ==> r <= items
    ensures start == 0 && stop < |items| ==> |r| == stop + 1
    ensures start == 0 && |items| <= stop + 1 ==> r == items
  {
    if start > stop || start >= |items| then []
    else if stop + 1 <= |items| then items[start..stop + 1]
    else items[start..]
  }

  class KeyValueStore {
    var data: map<string, Value>

    constructor (init: map<string, Value>)
      ensures data == init
    {
      data := init;
    }

    /** GET: the value of a key, absent as None. */
    function Get(key: string): (r: Option<Value>)
      reads this
      ensures r.Some? <==> key in data
      ensures r.Some? ==> r.value == data[key]
    {
      if key in data then Some(data[key]) else None
    }

    /** SET (and a RedisJSON set at the root path). */
    method Set(key: string, v: Value)
      modifies this
      ensures data == old(data)[key := v]
    {
      data := data[key := v];
    }

    /** DEL of one key. */
    method Delete(key: string) returns (removed: nat)
      modifies this
      ensures data == old(data) - {key}
      ensures removed == if key in old(data) then 1 else 0
    {
      removed := if key in data then 1 else 0;
      data := data - {key};
    }

    /** DEL k1 k2 ... in one command; returns how many of the keys existed. */
    method DeleteAll(keys: seq<string>) returns (removed: nat)
      requires Distinct(keys)
      modifies this
      ensures data == old(data) - set k | k in keys
      ensures removed == |set k | k in keys && k in old(data)|
    {
      var gone := set k | k in keys && k in data;
      removed := |gone|;
      data := data - set k | k in keys;
    }

    /** KEYS pattern: every matching key exactly once, in no particular order. */
    method Keys(p: Pattern) returns (keys: seq<string>)
      ensures Distinct(keys)
      ensures forall k :: k in keys <==> k in data && Matches(k, p)
    {
      var matching := MatchingKeys(data, p);
      var remaining := matching;
      keys := [];
      while remaining != {}
        invariant remaining <= matching
        invariant forall k :: k in keys ==> k in matching && k !in remaining
        invariant forall k :: k in matching && k !in remaining ==> k in keys
        invariant Distinct(keys)
        decreases remaining
      {
        var k :| k in remaining;
        DistinctSnoc(keys, k);
        keys := keys + [k];
        remaining := remaining - {k};
      }
    }

    /**
     * LPUSH: the item becomes the head of the list, an absent key starts as the empty
     * list; a key of another kind is a WRONGTYPE error (ok false) and nothing changes.
     */
    method LPush(key: string, item: Json) returns (ok: bool)
      modifies this
      ensures ok <==> key !in old(data) || old(data)[key].List?
      ensures ok ==> data == old(data)[key := List([item] + ListAt(old(data), key))]
      ensures !ok ==> data == old(data)
    {
      if key in data && !data[key].List? {
        ok := false;
      } else {
        ok := true;
        data := data[key := List([item] + ListAt(data, key))];
      }
    }

    /** LTRIM: keeps the elements start..stop; a list trimmed to nothing is removed. */
    method LTrim(key: string, start: nat, stop: nat) returns (ok: bool)
      modifies this
      ensures ok <==> key !in old(data) || old(data)[key].List?
      ensures !ok || key !in old(data) ==> data == old(data)
      ensures ok && key in old(data) ==>
        var kept := TrimList(old(data)[key].items, start, stop);
        data == if kept == [] then old(data) - {key} else old(data)[key := List(kept)]
    {
      if key !in data {
        ok := true;
      } else if !data[key].List? {
        ok := false;
      } else {
        ok := true;
        var kept := TrimList(data[key].items, start, stop);
        data := if kept == [] then data - {key} else data[key := List(kept)];
      }
    }

    /** SADD of one member; a key of another kind is a WRONGTYPE error. */
    method SAdd(key: string, member: string) returns (ok: bool)
      modifies this
      ensures ok <==> key !in old(data) || old(data)[key].Members?
      ensures ok ==> data == old(data)[key := Members(SetAt(old(data), key) + {member})]
      ensures !ok ==> data == old(data)
    {
      if key in data && !data[key].Members? {
        ok := false;
      } else {
        ok := true;
        data := data[key := Members(SetAt(data, key) + {member})];
      }
    }
  }

  /** The list a key holds, the empty list when it is absent or holds something else. */
  function ListAt(m: map<string, Value>, key: string): seq<Json> {
    if key in m && m[key].List? then m[key].items else []
  }

  /** The set a key holds, the empty set when it is absent or holds something else. */
  function SetAt(m: map<string, Value>, key: string): set<string> {
    if key in m && m[key].Members? then m[key].elems else {}
  }
}
