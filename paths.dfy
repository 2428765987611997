/**
  Slash-separated settings keys: the join rule of `CompStoreObj::pathForKey`,
  and the scope of `QSettings::remove(key)`, which removes the key itself and
  every key below it.
*/
module Paths {

  import opened Values

  predicate EndsWithSlash(s: string)
  {
    |s| > 0 && s[|s| - 1] == '/'
  }

  /**
    `base` followed by `key`, with one '/' put between them when `base` is
    non-empty and does not already end in one; an empty `base` yields `key`.
  */
  function JoinPath(base: string, key: string): (p: string)
    ensures |p| == |base| + |key| + (if base == "" || EndsWithSlash(base) then 0 else 1)
    ensures p[..|base|] == base && p[|p| - |key|..] == key
    ensures base != "" ==> p[|p| - |key| - 1] == '/'
  {
    if base == "" || EndsWithSlash(base) then base + key else base + "/" + key
  }

  /**
    `pathForKey(key, group)`: a null group selects the owner's `settingsPath()`,
    any other group (even an empty one) is used verbatim.
  */
  function PathForKey(settingsPath: string, key: string, group: Option<string>): (p: string)
    ensures group.None? ==> p == JoinPath(settingsPath, key)
    ensures group.Some? ==> p == JoinPath(group.value, key)
  {
    JoinPath(if group.None? then settingsPath else group.value, key)
  }

  /** The key QSettings works on once trailing separators are dropped. */
  function StripTrailingSlashes(p: string): (b: string)
    ensures |b| <= |p| && p[..|b|] == b && !EndsWithSlash(b)
    ensures forall i :: |b| <= i < |p| ==> p[i] == '/'
  {
    if EndsWithSlash(p) then StripTrailingSlashes(p[..|p| - 1]) else p
  }

  /** `k` is removed by `QSettings::remove(p)`: it is the key `p` or lies below it (an empty `p` removes everything). */
  predicate UnderPath(k: string, p: string)
  {
    var b := StripTrailingSlashes(p);
    b == "" || k == b || b + "/" <= k
  }

  /** The store after `QSettings::remove(p)`. */
  function RemoveTree<V>(m: map<string, V>, p: string): (r: map<string, V>)
    ensures forall k :: k in r <==> k in m && !UnderPath(k, p)
    ensures forall k :: k in r ==> r[k] == m[k]
  {
    map k | k in m && !UnderPath(k, p) :: m[k]
  }

  /** `k` lies in the removal scope of one of `ps`. */
  predicate UnderAny(k: string, ps: seq<string>)
  {
    exists j :: 0 <= j < |ps| && UnderPath(k, ps[j])
  }

  /** The store after removing each of `ps`: what is left is every key outside all of their scopes. */
  function RemoveTrees<V>(m: map<string, V>, ps: seq<string>): (r: map<string, V>)
  {
    map k | k in m && !UnderAny(k, ps) :: m[k]
  }

  lemma UnderAnySnoc(ps: seq<string>)
    requires ps != []
    ensures forall k :: UnderAny(k, ps) <==> UnderAny(k, ps[..|ps| - 1]) || UnderPath(k, ps[|ps| - 1])
  {
    var init := ps[..|ps| - 1];
    forall k ensures UnderAny(k, ps) <==> UnderAny(k, init) || UnderPath(k, ps[|ps| - 1]) {
      if UnderAny(k, ps) {
        var j :| 0 <= j < |ps| && UnderPath(k, ps[j]);
        if j < |ps| - 1 {
          assert init[j] == ps[j];
        }
      }
      if UnderAny(k, init) {
        var j :| 0 <= j < |init| && UnderPath(k, init[j]);
        assert ps[j] == init[j];
      }
    }
  }

  /** Removing the scopes of `ps` one after the other, in order, is removing all of them at once. */
  lemma RemoveTreesSnoc<V>(m: map<string, V>, ps: seq<string>)
    requires ps != []
    ensures RemoveTree(RemoveTrees(m, ps[..|ps| - 1]), ps[|ps| - 1]) == RemoveTrees(m, ps)
  {
    UnderAnySnoc(ps);
  }

  /** Removing no scope at all leaves the store as it is. */
  lemma RemoveTreesNone<V>(m: map<string, V>)
    ensures RemoveTrees(m, []) == m
  {
  }

  /** A path always falls inside its own removal scope. */
  lemma UnderItself(p: string)
    ensures UnderPath(p, p)
  {
    var b := StripTrailingSlashes(p);
    if b != "" && p != b {
      assert p[..|b| + 1] == b + "/";
    }
  }

  lemma StripNoTrailingSlash(p: string)
    requires !EndsWithSlash(p)
    ensures StripTrailingSlashes(p) == p
  {
  }

  lemma StripOneSlash(x: string)
    requires !EndsWithSlash(x)
    ensures StripTrailingSlashes(x + "/") == x
  {
    assert (x + "/")[..|x|] == x;
  }

  lemma PrefixSlash(a: string, b: string)
    ensures a + "/" <= b ==> |a| < |b| && b[|a|] == '/'
  {
    if a + "/" <= b {
      assert b[|a|] == (a + "/")[|a|];
    }
  }

  /**
    Two different keys that hold no '/' and sit in the same directory have
    disjoint removal scopes: removing one never touches the other.
  */
  lemma SiblingsDisjoint(dir: string, k1: string, k2: string)
    requires dir == "" || EndsWithSlash(dir)
    requires k1 != "" && k2 != "" && '/' !in k1 && '/' !in k2 && k1 != k2
    ensures !UnderPath(JoinPath(dir, k1), JoinPath(dir, k2))
  {
    var p1, p2 := JoinPath(dir, k1), JoinPath(dir, k2);
    assert p1 == dir + k1 && p2 == dir + k2;
    assert p2[|p2| - 1] == k2[|k2| - 1];
    StripNoTrailingSlash(p2);
    assert p1[|dir|..] == k1 && p2[|dir|..] == k2;
    assert forall i :: |dir| <= i < |p1| ==> p1[i] == k1[i - |dir|];
    PrefixSlash(p2, p1);
    // each way of falling inside p2's scope is refuted by the facts above
    if p1 == p2 {
    } else if p2 + "/" <= p1 {
    }
  }

  /**
    Removal scopes of two sibling directories `pre + s` and `pre + t`, where
    the names `s` and `t` differ and hold no '/', share no key: this is why
    `profile1/` never reaches into `profile10/`.
  */
  lemma DisjointDirectories(pre: string, s: string, t: string, k: string)
    requires s != "" && t != "" && '/' !in s && '/' !in t && s != t
    ensures !(UnderPath(k, pre + s + "/") && UnderPath(k, pre + t + "/"))
  {
    var x, y := pre + s, pre + t;
    assert x[|x| - 1] == s[|s| - 1] && y[|y| - 1] == t[|t| - 1];
    StripOneSlash(x);
    StripOneSlash(y);
    assert x[|pre|..] == s && y[|pre|..] == t;
    assert forall i :: |pre| <= i < |x| ==> x[i] == s[i - |pre|];
    assert forall i :: |pre| <= i < |y| ==> y[i] == t[i - |pre|];
    if |x| == |y| {
    } else if |x| < |y| {
    } else {
    }
  }

  /** A key inside the scope of an entry of directory `dir` is inside the scope of `dir`. */
  lemma UnderNested(dir: string, key: string, k: string)
    requires EndsWithSlash(dir) && key != "" && '/' !in key
    requires UnderPath(k, JoinPath(dir, key))
    ensures UnderPath(k, dir)
  {
    var p := JoinPath(dir, key);
    assert p == dir + key;
    assert p[|p| - 1] == key[|key| - 1];
    StripNoTrailingSlash(p);
    assert k[..|dir|] == dir by {
      if k != p {
        assert k[..|p| + 1] == p + "/";
        assert k[..|dir|] == (p + "/")[..|dir|];
      }
    }
    var b := StripTrailingSlashes(dir);
    if b != "" {
      assert dir[..|b|] == b && dir[|b|] == '/';
      assert k[..|b| + 1] == dir[..|b| + 1] == b + "/";
    }
  }

  /** A key whose first character differs from that of `p` is outside the scope of `p`. */
  lemma DifferentStart(k: string, p: string)
    requires p != "" && !EndsWithSlash(p) && (k == "" || k[0] != p[0])
    ensures !UnderPath(k, p)
  {
    StripNoTrailingSlash(p);
    assert (p + "/")[0] == p[0];
  }

  /** Removing the same scope twice is removing it once. */
  lemma RemoveTreeIdempotent<V>(m: map<string, V>, p: string)
    ensures RemoveTree(RemoveTree(m, p), p) == RemoveTree(m, p)
  {
  }
}
