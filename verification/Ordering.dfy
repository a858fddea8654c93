/** Strings in ascending order, by code point: the order of JSON keys and of identifiers in the store. */
module Ordering {
  /** Strictly before, character by character. */
  predicate Before(a: string, b: string) {
    b != "" && (a == "" || a[0] < b[0] || (a[0] == b[0] && Before(a[1..], b[1..])))
  }

  lemma {:induction false} BeforeTotal(a: string, b: string)
    ensures a == b || Before(a, b) || Before(b, a)
    ensures !(Before(a, b) && Before(b, a))
    ensures a == b ==> !Before(a, b)
  {
    if a != "" && b != "" && a[0] == b[0] {
      BeforeTotal(a[1..], b[1..]);
      if a[1..] == b[1..] {
        assert a == [a[0]] + a[1..] && b == [b[0]] + b[1..];
      }
    }
  }

  /** The order in the usual words: at the first place where they differ `a` has the smaller character, or ends. */
  lemma {:induction false} BeforeExactly(a: string, b: string)
    ensures Before(a, b) <==>
      exists n :: 0 <= n <= |a| && n < |b| && a[..n] == b[..n] && (n == |a| || a[n] < b[n])
  {
    if a != "" && b != "" && a[0] == b[0] {
      BeforeExactly(a[1..], b[1..]);
      if n :| 0 <= n <= |a[1..]| && n < |b[1..]| && a[1..][..n] == b[1..][..n] && (n == |a[1..]| || a[1..][n] < b[1..][n]) {
        assert a[..n + 1] == [a[0]] + a[1..][..n] && b[..n + 1] == [b[0]] + b[1..][..n];
      }
      if n :| 0 < n <= |a| && n < |b| && a[..n] == b[..n] && (n == |a| || a[n] < b[n]) {
        assert a[1..][..n - 1] == a[..n][1..] && b[1..][..n - 1] == b[..n][1..];
      }
    } else if a != "" && b != "" {
      assert a[..0] == b[..0];
      forall n | 0 < n <= |a| && n < |b| ensures a[..n] != b[..n] {
        assert a[..n][0] == a[0] && b[..n][0] == b[0];
      }
    } else if b != "" {
      assert a[..0] == b[..0];
    }
  }

  lemma {:induction false} BeforeTransitive(a: string, b: string, c: string)
    requires Before(a, b) && Before(b, c)
    ensures Before(a, c)
  {
    if a != "" && a[0] == b[0] && b[0] == c[0] {
      BeforeTransitive(a[1..], b[1..], c[1..]);
    }
  }

  predicate Ascending(keys: seq<string>) {
    forall i, j :: 0 <= i < j < |keys| ==> Before(keys[i], keys[j])
  }

  predicate Distinct(keys: seq<string>) {
    forall i, j :: 0 <= i < j < |keys| ==> keys[i] != keys[j]
  }

  lemma AscendingDistinct(keys: seq<string>)
    requires Ascending(keys)
    ensures Distinct(keys)
  {
    forall i, j | 0 <= i < j < |keys| ensures keys[i] != keys[j] {
      BeforeTotal(keys[i], keys[j]);
    }
  }

  ghost predicate Lists(keys: seq<string>, members: set<string>) {
    forall k :: k in keys <==> k in members
  }

  /** An ascending listing of a set is unique, whatever order the map gave its keys in. */
  lemma {:induction false} AscendingUnique(a: seq<string>, b: seq<string>, members: set<string>)
    requires Ascending(a) && Ascending(b) && Lists(a, members) && Lists(b, members)
    ensures a == b
    decreases |a|
  {
    EmptyListing(a, members);
    EmptyListing(b, members);
    if a != [] {
      assert a[0] in b;
      assert b[0] in a;
      BeforeTotal(a[0], b[0]);
      var i :| 0 <= i < |a| && a[i] == b[0];
      var j :| 0 <= j < |b| && b[j] == a[0];
      assert a[0] == b[0];
      assert members - {a[0]} == members - {b[0]};
      DropFirst(a, members);
      DropFirst(b, members);
      AscendingUnique(a[1..], b[1..], members - {a[0]});
      assert a == [a[0]] + a[1..] && b == [b[0]] + b[1..];
    }
  }

  lemma EmptyListing(a: seq<string>, members: set<string>)
    requires Lists(a, members)
    ensures a == [] <==> members == {}
  {
    if a != [] {
      assert a[0] in a;
    }
  }

  lemma DropFirst(a: seq<string>, members: set<string>)
    requires a != [] && Ascending(a) && Lists(a, members)
    ensures Ascending(a[1..]) && Lists(a[1..], members - {a[0]})
  {
    forall k | k in a[1..] ensures k in members - {a[0]} {
      var i :| 0 <= i < |a[1..]| && a[1..][i] == k;
      assert Before(a[0], a[i + 1]);
      BeforeTotal(a[0], a[i + 1]);
      assert a[i + 1] in a;
    }
    forall k | k in members - {a[0]} ensures k in a[1..] {
      var i :| 0 <= i < |a| && a[i] == k;
      assert a[1..][i - 1] == k;
    }
  }

  /** An ascending listing without one of its members. */
  lemma WithoutOne(keys: seq<string>, i: nat, members: set<string>)
    requires i < |keys| && Ascending(keys) && Lists(keys, members)
    ensures Ascending(keys[..i] + keys[i + 1..]) && Lists(keys[..i] + keys[i + 1..], members - {keys[i]})
  {
    AscendingDistinct(keys);
    var others := keys[..i] + keys[i + 1..];
    assert forall k :: 0 <= k < |others| ==> others[k] == if k < i then keys[k] else keys[k + 1];
    forall k ensures k in others <==> k in members && k != keys[i] {
      if k in others {
        var j :| 0 <= j < |others| && others[j] == k;
        assert (if j < i then keys[j] else keys[j + 1]) in keys;
      }
      if k in members && k != keys[i] {
        var j :| 0 <= j < |keys| && keys[j] == k;
        assert others[if j < i then j else j - 1] == k;
      }
    }
  }

  ghost predicate Least(least: string, members: set<string>) {
    least in members && forall k <- members :: k == least || Before(least, k)
  }

  lemma {:induction false} LeastExists(members: set<string>)
    requires members != {}
    ensures exists least :: Least(least, members)
    decreases members
  {
    var one :| one in members;
    var others := members - {one};
    if others == {} {
      assert forall k <- members :: k == one || k in others;
      assert Least(one, members);
    } else {
      LeastExists(others);
      var least :| Least(least, others);
      BeforeTotal(one, least);
      if Before(one, least) {
        LeastOfBoth(one, least, members);
      } else {
        assert Least(least, members);
      }
    }
  }

  lemma LeastOfBoth(one: string, least: string, members: set<string>)
    requires one in members && Least(least, members - {one}) && Before(one, least)
    ensures Least(one, members)
  {
    forall k <- members ensures k == one || Before(one, k) {
      if k != one && k != least {
        BeforeTransitive(one, least, k);
      }
    }
  }

  ghost function SortedKeys(members: set<string>): (keys: seq<string>)
    ensures Ascending(keys) && Lists(keys, members)
    decreases |members|
  {
    if members == {} then []
    else
      LeastExists(members);
      var least :| Least(least, members);
      var others := SortedKeys(members - {least});
      assert forall i :: 0 <= i < |others| ==> others[i] in others;
      [least] + others
  }

  lemma AscendingTail(keys: seq<string>)
    requires keys != [] && Ascending(keys)
    ensures Ascending(keys[1..])
  {
    forall i, j | 0 <= i < j < |keys[1..]| ensures Before(keys[1..][i], keys[1..][j]) {
      assert Before(keys[i + 1], keys[j + 1]);
    }
  }

  /** The members of a set, in whatever order it gives them. */
  method Gather(members: set<string>) returns (keys: seq<string>)
    ensures Lists(keys, members) && |keys| == |members|
  {
    keys := [];
    var left := members;
    while left != {}
      invariant left <= members
      invariant forall k :: k in keys <==> k in members - left
      invariant |keys| + |left| == |members|
    {
      var key :| key in left;
      keys := keys + [key];
      left := left - {key};
    }
  }

  /** The library's ascending sort, by insertion. */
  method SortStrings(keys: seq<string>, ghost members: set<string>) returns (sorted: seq<string>)
    requires Lists(keys, members) && |keys| == |members|
    ensures sorted == SortedKeys(members)
  {
    sorted := [];
    for i := 0 to |keys|
      invariant Ascending(sorted) && forall k :: k in sorted <==> k in keys[..i]
    {
      sorted := InsertKey(sorted, keys[i]);
      assert keys[..i + 1] == keys[..i] + [keys[i]];
    }
    assert keys[..|keys|] == keys;
    AscendingUnique(sorted, SortedKeys(members), members);
  }

  function InsertKey(sorted: seq<string>, key: string): (r: seq<string>)
    requires Ascending(sorted)
    ensures Ascending(r) && forall k :: k in r <==> k in sorted || k == key
  {
    if sorted == [] then [key]
    else if key == sorted[0] then sorted
    else if Before(key, sorted[0]) then
      InsertInFront(sorted, key);
      [key] + sorted
    else
      AscendingTail(sorted);
      BeforeTotal(key, sorted[0]);
      var others := InsertKey(sorted[1..], key);
      InsertBehind(sorted, key, others);
      [sorted[0]] + others
  }

  lemma InsertInFront(sorted: seq<string>, key: string)
    requires sorted != [] && Ascending(sorted) && Before(key, sorted[0])
    ensures Ascending([key] + sorted)
  {
    forall j | 0 < j < |sorted| ensures Before(key, sorted[j]) {
      BeforeTransitive(key, sorted[0], sorted[j]);
    }
  }

  lemma InsertBehind(sorted: seq<string>, key: string, others: seq<string>)
    requires sorted != [] && Ascending(sorted) && Before(sorted[0], key) && Ascending(others)
    requires forall k :: k in others <==> k in sorted[1..] || k == key
    ensures Ascending([sorted[0]] + others)
    ensures forall k :: k in [sorted[0]] + others <==> k in sorted || k == key
  {
    assert sorted == [sorted[0]] + sorted[1..];
    forall j | 0 <= j < |others| ensures Before(sorted[0], others[j]) {
      assert others[j] in others;
      if others[j] != key {
        var i :| 0 <= i < |sorted[1..]| && sorted[1..][i] == others[j];
        assert Before(sorted[0], sorted[i + 1]);
      }
    }
  }
}
