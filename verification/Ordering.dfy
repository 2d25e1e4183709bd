/** Sorting by a string key, with the code-point order of Python strings. */
module Ordering {
  import opened Common

  predicate Less(a: string, b: string)
  {
    |b| > 0 && (|a| == 0 || a[0] < b[0] || (a[0] == b[0] && Less(a[1..], b[1..])))
  }

  /** `a` comes first when it is a proper prefix of `b`, or smaller where they first differ. */
  lemma {:induction false} LessMeaning(a: string, b: string)
    ensures Less(a, b) <==>
      exists i :: 0 <= i <= |a| && i < |b| && a[..i] == b[..i] && (i == |a| || a[i] < b[i])
  {
    if |a| > 0 && |b| > 0 && a[0] == b[0] {
      LessMeaning(a[1..], b[1..]);
      if Less(a[1..], b[1..]) {
        var i :| 0 <= i <= |a[1..]| && i < |b[1..]| && a[1..][..i] == b[1..][..i]
                 && (i == |a[1..]| || a[1..][i] < b[1..][i]);
        assert a[..i + 1] == [a[0]] + a[1..][..i] && b[..i + 1] == [b[0]] + b[1..][..i];
        assert a[..i + 1] == b[..i + 1] && (i + 1 == |a| || a[i + 1] < b[i + 1]);
      }
      if exists i :: 0 <= i <= |a| && i < |b| && a[..i] == b[..i] && (i == |a| || a[i] < b[i]) {
        var i :| 0 <= i <= |a| && i < |b| && a[..i] == b[..i] && (i == |a| || a[i] < b[i]);
        assert i > 0;
        assert a[1..][..i - 1] == a[..i][1..] == b[..i][1..] == b[1..][..i - 1];
      }
    } else {
      assert a[..0] == b[..0];
      forall i | 0 < i <= |a| && i < |b| ensures a[..i] != b[..i] {
        assert a[..i][0] == a[0] && b[..i][0] == b[0];
      }
    }
  }

  lemma {:induction false} LessTotal(a: string, b: string)
    ensures a != b ==> Less(a, b) || Less(b, a)
  {
    if |a| > 0 && |b| > 0 && a[0] == b[0] {
      LessTotal(a[1..], b[1..]);
      if a[1..] == b[1..] { assert a == [a[0]] + a[1..] && b == [b[0]] + b[1..]; }
    }
  }

  lemma {:induction false} LessTransitive(a: string, b: string, c: string)
    requires Less(a, b) && Less(b, c)
    ensures Less(a, c)
  {
    if |a| > 0 && a[0] == b[0] && b[0] == c[0] { LessTransitive(a[1..], b[1..], c[1..]); }
  }

  lemma {:induction false} LessIrreflexive(a: string)
    ensures !Less(a, a)
  {
    if |a| > 0 { LessIrreflexive(a[1..]); }
  }

  predicate DistinctKeys<T>(s: seq<T>, key: T -> string)
  {
    forall i, j :: 0 <= i < j < |s| ==> key(s[i]) != key(s[j])
  }

  predicate SortedBy<T>(s: seq<T>, key: T -> string)
  {
    forall i, j :: 0 <= i < j < |s| ==> Less(key(s[i]), key(s[j]))
  }

  function Insert<T(!new)>(x: T, s: seq<T>, key: T -> string): (r: seq<T>)
    ensures |r| == |s| + 1 && (forall y :: y in r <==> y == x || y in s)
  {
    if |s| == 0 || Less(key(x), key(s[0])) then [x] + s else [s[0]] + Insert(x, s[1..], key)
  }

  /** Python's `sorted(s, key=key)` on elements with distinct keys. */
  function Sort<T(!new)>(s: seq<T>, key: T -> string): (r: seq<T>)
    ensures |r| == |s| && (forall x :: x in r <==> x in s)
  {
    if |s| == 0 then [] else Insert(s[0], Sort(s[1..], key), key)
  }

  lemma {:induction false} InsertSorted<T(!new)>(x: T, s: seq<T>, key: T -> string)
    requires SortedBy(s, key) && forall y :: y in s ==> key(y) != key(x)
    ensures SortedBy(Insert(x, s, key), key)
  {
    if |s| > 0 {
      if Less(key(x), key(s[0])) {
        forall i | 0 < i < |s| ensures Less(key(x), key(s[i])) {
          LessTransitive(key(x), key(s[0]), key(s[i]));
        }
      } else {
        LessTotal(key(x), key(s[0]));
        InsertSorted(x, s[1..], key);
        var tail := Insert(x, s[1..], key);
        forall i | 0 <= i < |tail| ensures Less(key(s[0]), key(tail[i])) {
          assert tail[i] in tail;
          if tail[i] != x {
            var k :| 0 <= k < |s[1..]| && s[1..][k] == tail[i];
            assert s[k + 1] == tail[i];
          }
        }
      }
    }
  }

  lemma {:induction false} SortSorts<T(!new)>(s: seq<T>, key: T -> string)
    requires DistinctKeys(s, key)
    ensures SortedBy(Sort(s, key), key)
  {
    if |s| > 0 {
      SortSorts(s[1..], key);
      InsertSorted(s[0], Sort(s[1..], key), key);
    }
  }

  lemma SortedHead<T(!new)>(a: seq<T>, b: seq<T>, key: T -> string)
    requires SortedBy(a, key) && SortedBy(b, key) && |a| > 0 && |b| > 0
    requires forall x :: x in a <==> x in b
    ensures a[0] == b[0]
  {
    assert a[0] in a && b[0] in b;
    var i :| 0 <= i < |b| && b[i] == a[0];
    var j :| 0 <= j < |a| && a[j] == b[0];
    if i > 0 && j > 0 {
      LessTransitive(key(a[0]), key(a[j]), key(b[i]));
      LessIrreflexive(key(a[0]));
    }
  }

  lemma SortedTailMembers<T(!new)>(a: seq<T>, key: T -> string)
    requires SortedBy(a, key) && |a| > 0
    ensures forall x :: x in a[1..] <==> x in a && x != a[0]
  {
    LessIrreflexive(key(a[0]));
    forall x | x in a[1..] ensures x in a && x != a[0] {
      var i :| 0 <= i < |a[1..]| && a[1..][i] == x;
      assert a[i + 1] == x;
    }
  }

  /** A sorted listing is determined by its elements. */
  lemma {:induction false} SortedUnique<T(!new)>(a: seq<T>, b: seq<T>, key: T -> string)
    requires SortedBy(a, key) && SortedBy(b, key)
    requires forall x :: x in a <==> x in b
    ensures a == b
  {
    assert |b| > 0 ==> b[0] in b;
    if |a| > 0 {
      assert a[0] in a;
      SortedHead(a, b, key);
      SortedTailMembers(a, key);
      SortedTailMembers(b, key);
      SortedUnique(a[1..], b[1..], key);
      assert a == [a[0]] + a[1..] && b == [b[0]] + b[1..];
    }
  }

  // ---------- Filtering ----------

  function Keep<T(!new)>(s: seq<T>, p: T -> bool): (r: seq<T>)
    ensures |r| <= |s| && forall x :: x in r <==> x in s && p(x)
  {
    if |s| == 0 then [] else (if p(s[0]) then [s[0]] else []) + Keep(s[1..], p)
  }

  lemma {:induction false} KeepDistinct<T(!new)>(s: seq<T>, key: T -> string, p: T -> bool)
    requires DistinctKeys(s, key)
    ensures DistinctKeys(Keep(s, p), key)
  {
    if |s| > 0 {
      var rest := Keep(s[1..], p);
      KeepDistinct(s[1..], key, p);
      forall i | 0 <= i < |rest| ensures key(rest[i]) != key(s[0]) {
        assert rest[i] in rest;
        var k :| 0 <= k < |s[1..]| && s[1..][k] == rest[i];
        assert s[k + 1] == rest[i];
      }
    }
  }

  lemma {:induction false} KeepSorted<T(!new)>(s: seq<T>, key: T -> string, p: T -> bool)
    requires SortedBy(s, key)
    ensures SortedBy(Keep(s, p), key)
  {
    if |s| > 0 {
      var rest := Keep(s[1..], p);
      KeepSorted(s[1..], key, p);
      forall i | 0 <= i < |rest| ensures Less(key(s[0]), key(rest[i])) {
        assert rest[i] in rest;
        var k :| 0 <= k < |s[1..]| && s[1..][k] == rest[i];
        assert Less(key(s[0]), key(s[k + 1]));
      }
    }
  }

  lemma {:induction false} KeepAppend<T(!new)>(a: seq<T>, b: seq<T>, p: T -> bool)
    ensures Keep(a + b, p) == Keep(a, p) + Keep(b, p)
  {
    if |a| == 0 {
      assert a + b == b;
    } else {
      assert (a + b)[1..] == a[1..] + b;
      KeepAppend(a[1..], b, p);
      Assoc(if p(a[0]) then [a[0]] else [], Keep(a[1..], p), Keep(b, p));
    }
  }

  lemma SortedDistinct<T(!new)>(s: seq<T>, key: T -> string)
    requires SortedBy(s, key)
    ensures DistinctKeys(s, key)
  {
    forall i, j | 0 <= i < j < |s| ensures key(s[i]) != key(s[j]) {
      LessIrreflexive(key(s[i]));
    }
  }
}
