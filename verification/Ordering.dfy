/** The text order SQLite sorts identifiers by, and the listing of a finite set of keys in that order. */
module Ordering {

  /** A sort key: a timestamp column, then an identifier column. */
  type Key = (int, string)

  predicate TextLe(a: string, b: string) {
    if a == [] then true
    else if b == [] then false
    else if a[0] == b[0] then TextLe(a[1..], b[1..])
    else a[0] < b[0]
  }

  lemma TextLeTotal(a: string, b: string)
    ensures TextLe(a, b) || TextLe(b, a)
  {
  }

  lemma {:induction false} TextLeAntisymmetric(a: string, b: string)
    requires TextLe(a, b) && TextLe(b, a)
    ensures a == b
  {
    if a != [] && b != [] {
      TextLeAntisymmetric(a[1..], b[1..]);
      assert a == [a[0]] + a[1..] && b == [b[0]] + b[1..];
    }
  }

  lemma {:induction false} TextLeTransitive(a: string, b: string, c: string)
    requires TextLe(a, b) && TextLe(b, c)
    ensures TextLe(a, c)
  {
    if a != [] && b != [] && c != [] && a[0] == b[0] && b[0] == c[0] {
      TextLeTransitive(a[1..], b[1..], c[1..]);
    }
  }

  predicate KeyLe(a: Key, b: Key) {
    a.0 < b.0 || (a.0 == b.0 && TextLe(a.1, b.1))
  }

  lemma KeyLeTotal(a: Key, b: Key)
    ensures KeyLe(a, b) || KeyLe(b, a)
    ensures KeyLe(a, b) && KeyLe(b, a) ==> a == b
  {
    TextLeTotal(a.1, b.1);
    if KeyLe(a, b) && KeyLe(b, a) {
      TextLeAntisymmetric(a.1, b.1);
    }
  }

  lemma KeyLeTransitive(a: Key, b: Key, c: Key)
    requires KeyLe(a, b) && KeyLe(b, c)
    ensures KeyLe(a, c)
  {
    if a.0 == b.0 == c.0 {
      TextLeTransitive(a.1, b.1, c.1);
    }
  }

  ghost predicate IsLeast(k: Key, keys: set<Key>) {
    k in keys && forall x :: x in keys ==> KeyLe(k, x)
  }

  lemma {:induction false} LeastExists(keys: set<Key>) returns (k: Key)
    requires keys != {}
    ensures IsLeast(k, keys)
    decreases |keys|
  {
    k :| k in keys;
    var rest := keys - {k};
    KeyLeTotal(k, k);
    if rest != {} {
      var m := LeastExists(rest);
      KeyLeTotal(k, m);
      if KeyLe(k, m) {
        forall x | x in keys ensures KeyLe(k, x) {
          if x != k { KeyLeTransitive(k, m, x); }
        }
      } else {
        k := m;
      }
    }
  }

  ghost predicate Ascending(s: seq<Key>) {
    forall i, j :: 0 <= i < j < |s| ==> KeyLe(s[i], s[j]) && s[i] != s[j]
  }

  /** `s` lists exactly `keys`, in ascending order, each once. */
  ghost predicate Lists(s: seq<Key>, keys: set<Key>) {
    Ascending(s) && (forall k :: k in s <==> k in keys)
  }

  lemma EmptyListing(s: seq<Key>, keys: set<Key>)
    requires Lists(s, keys)
    ensures s == [] <==> keys == {}
  {
    if s != [] { assert s[0] in s; }
    if keys != {} { var k :| k in keys; assert k in s; }
  }

  /** An ordered listing is determined by the set it lists. */
  lemma {:induction false} ListingUnique(s: seq<Key>, t: seq<Key>, keys: set<Key>)
    requires Lists(s, keys) && Lists(t, keys)
    ensures s == t
    decreases |s|
  {
    if s == [] {
      EmptyListing(s, keys);
      EmptyListing(t, keys);
    } else {
      assert s[0] in keys;
      assert t != [];
      assert t[0] in keys;
      var i :| 0 <= i < |s| && s[i] == t[0];
      var j :| 0 <= j < |t| && t[j] == s[0];
      KeyLeTotal(s[0], t[0]);
      assert s[0] == t[0];
      var rest := keys - {s[0]};
      forall k ensures k in s[1..] <==> k in rest {
        if k in rest { var m :| 0 <= m < |s| && s[m] == k; assert s[1..][m - 1] == k; }
        if k in s[1..] { var m :| 0 <= m < |s[1..]| && s[1..][m] == k; assert s[m + 1] == k; }
      }
      forall k ensures k in t[1..] <==> k in rest {
        if k in rest { var m :| 0 <= m < |t| && t[m] == k; assert t[1..][m - 1] == k; }
        if k in t[1..] { var m :| 0 <= m < |t[1..]| && t[1..][m] == k; assert t[m + 1] == k; }
      }
      ListingUnique(s[1..], t[1..], rest);
      assert s == [s[0]] + s[1..] && t == [t[0]] + t[1..];
    }
  }

  /** The rows an ORDER BY returns. */
  method OrderBy(keys: set<Key>) returns (s: seq<Key>)
    ensures Lists(s, keys)
  {
    s := [];
    var todo := keys;
    while todo != {}
      invariant todo <= keys
      invariant Lists(s, keys - todo)
      invariant forall a, b :: a in s && b in todo ==> KeyLe(a, b)
      decreases |todo|
    {
      ghost var least := LeastExists(todo);
      assert exists k :: k in todo && IsLeast(k, todo);
      var k :| k in todo && forall x :: x in todo ==> KeyLe(k, x);
      ghost var before, was := todo, s;
      s := s + [k];
      todo := todo - {k};
      forall i, j | 0 <= i < j < |s| ensures KeyLe(s[i], s[j]) && s[i] != s[j] {
        if j == |was| { assert s[i] == was[i] && was[i] in was; }
      }
      forall x ensures x in s <==> x in keys - todo {
        if x in was { var m :| 0 <= m < |was| && was[m] == x; assert s[m] == x; }
        if x == k { assert s[|was|] == k; }
      }
    }
  }

  /** The listing of a set always exists, so it may be named. */
  lemma {:induction false} ListingExists(keys: set<Key>)
    ensures exists s :: Lists(s, keys)
    decreases |keys|
  {
    if keys == {} {
      assert Lists([], keys);
    } else {
      var k := LeastExists(keys);
      ListingExists(keys - {k});
      var rest :| Lists(rest, keys - {k});
      var s := [k] + rest;
      forall x ensures x in s <==> x in keys {
        if x in rest { var m :| 0 <= m < |rest| && rest[m] == x; assert s[m + 1] == x; }
        if x == k { assert s[0] == k; }
      }
      forall i, j | 0 <= i < j < |s| ensures KeyLe(s[i], s[j]) && s[i] != s[j] {
        assert s[j] == rest[j - 1] && s[j] in rest;
        if i > 0 { assert s[i] == rest[i - 1]; }
      }
      assert Lists(s, keys);
    }
  }

  ghost function Listing(keys: set<Key>): (s: seq<Key>)
    ensures Lists(s, keys)
  {
    ListingExists(keys);
    var s :| Lists(s, keys); s
  }
}
