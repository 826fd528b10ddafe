/** Lexicographic order on strings, and lists of distinct strings in that order. */
module SortedStrings {

  predicate Before(a: string, b: string) {
    b != "" && (a == "" || a[0] < b[0] || (a[0] == b[0] && Before(a[1..], b[1..])))
  }

  /** At the first place where the two differ, `a` has ended or has the smaller character. */
  ghost predicate DiffersBelow(a: string, b: string) {
    exists k: nat :: k <= |a| && k < |b| && a[..k] == b[..k] && (k == |a| || a[k] < b[k])
  }

  lemma {:induction false} BeforeExactlyWhen(a: string, b: string)
    ensures Before(a, b) <==> DiffersBelow(a, b)
    decreases |a|
  {
    if b != "" && a != "" && a[0] == b[0] {
      BeforeExactlyWhen(a[1..], b[1..]);
      if DiffersBelow(a[1..], b[1..]) {
        var k: nat :| k < |b| && k <= |a[1..]| && k < |b[1..]| && a[1..][..k] == b[1..][..k]
                      && (k == |a[1..]| || a[1..][k] < b[1..][k]);
        assert a[..k + 1] == [a[0]] + a[1..][..k] && b[..k + 1] == [b[0]] + b[1..][..k];
      }
      if DiffersBelow(a, b) {
        var k: nat :| k <= |a| && k < |b| && a[..k] == b[..k] && (k == |a| || a[k] < b[k]);
        assert k > 0 && a[1..][..k - 1] == a[..k][1..] && b[1..][..k - 1] == b[..k][1..];
      }
    } else if b != "" && (a == "" || a[0] < b[0]) {
      assert a[..0] == b[..0];
    } else if a != "" && b != "" {
      HeadsAgree(a, b);
    }
  }

  lemma HeadsAgree(a: string, b: string)
    requires a != "" && b != ""
    ensures forall k: nat :: 0 < k <= |a| && k <= |b| && a[..k] == b[..k] ==> a[0] == b[0]
  {
    forall k: nat | 0 < k <= |a| && k <= |b| && a[..k] == b[..k] ensures a[0] == b[0] {
      assert a[..k][0] == b[..k][0];
    }
  }

  lemma {:induction false} BeforeIsTotal(a: string, b: string)
    ensures a == b <==> !Before(a, b) && !Before(b, a)
    ensures !(Before(a, b) && Before(b, a))
    decreases |a|
  {
    if a != "" && b != "" {
      BeforeIsTotal(a[1..], b[1..]);
      assert a == [a[0]] + a[1..] && b == [b[0]] + b[1..];
    }
  }

  lemma {:induction false} BeforeIsTransitive(a: string, b: string, c: string)
    requires Before(a, b) && Before(b, c)
    ensures Before(a, c)
    decreases |a|
  {
    if a != "" && a[0] == b[0] == c[0] {
      BeforeIsTransitive(a[1..], b[1..], c[1..]);
    }
  }

  predicate StrictlySorted(l: seq<string>) {
    forall i, j :: 0 <= i < j < |l| ==> Before(l[i], l[j])
  }

  /** The place a stable sort gives a further element. */
  function Insert(x: string, l: seq<string>): seq<string> {
    if l == [] || Before(x, l[0]) then [x] + l else [l[0]] + Insert(x, l[1..])
  }

  function Sort(l: seq<string>): seq<string> {
    if l == [] then [] else Insert(l[|l| - 1], Sort(l[..|l| - 1]))
  }

  /** `l` lists the set `keys` in order, each key once. */
  ghost predicate Lists(l: seq<string>, keys: set<string>) {
    StrictlySorted(l) && forall k :: k in l <==> k in keys
  }

  lemma {:induction false} InsertLists(x: string, l: seq<string>, keys: set<string>)
    requires Lists(l, keys) && x !in keys
    ensures Lists(Insert(x, l), keys + {x})
    decreases |l|
  {
    if l == [] {
    } else {
      var head, tail := l[0], l[1..];
      assert l == [head] + tail;
      BeforeIsTotal(x, head);
      assert head in keys;
      if Before(x, head) {
        forall j | 0 <= j < |l| ensures Before(x, l[j]) {
          if j > 0 {
            BeforeIsTransitive(x, head, l[j]);
          }
        }
      } else {
        TailLists(l, keys);
        InsertLists(x, tail, keys - {head});
        var r := Insert(x, tail);
        forall j | 0 <= j < |r| ensures Before(head, r[j]) {
          assert r[j] in r;
          if r[j] != x {
            assert r[j] in tail;
          }
        }
        assert keys - {head} + {x} + {head} == keys + {x};
      }
    }
  }

  lemma AppendLists(l: seq<string>, x: string, keys: set<string>)
    requires Lists(l, keys) && forall k <- l :: Before(k, x)
    ensures Lists(l + [x], keys + {x})
  {
    assert forall i :: 0 <= i < |l| ==> l[i] in l;
  }

  lemma BeforeTheLast(l: seq<string>, k: string)
    requires StrictlySorted(l) && l != [] && k in l[..|l| - 1]
    ensures Before(k, l[|l| - 1])
  {
    var i :| 0 <= i < |l| - 1 && l[..|l| - 1][i] == k;
    assert l[i] == k;
  }

  lemma TailLists(l: seq<string>, keys: set<string>)
    requires Lists(l, keys) && l != []
    ensures Lists(l[1..], keys - {l[0]})
  {
    BeforeIsTotal(l[0], l[0]);
    assert l == [l[0]] + l[1..];
    assert forall j :: 0 < j < |l| ==> Before(l[0], l[j]) && l[j] != l[0];
  }

  /** A set has one sorted listing. */
  lemma {:induction false} ListingIsUnique(a: seq<string>, b: seq<string>, keys: set<string>)
    requires Lists(a, keys) && Lists(b, keys)
    ensures a == b
    decreases |a|
  {
    assert a != [] ==> a[0] in keys;
    assert b != [] ==> b[0] in keys;
    if a != [] && b != [] {
      assert a[0] in b && b[0] in a;
      BeforeIsTotal(a[0], b[0]);
      assert a[0] == b[0];
      TailLists(a, keys);
      TailLists(b, keys);
      ListingIsUnique(a[1..], b[1..], keys - {a[0]});
    }
  }

  /** The keys of an ordered map, in order. */
  ghost function SortedKeys(keys: set<string>): (l: seq<string>)
    ensures Lists(l, keys)
  {
    if keys == {} then []
    else
      var k :| k in keys;
      InsertLists(k, SortedKeys(keys - {k}), keys - {k});
      assert keys - {k} + {k} == keys;
      Insert(k, SortedKeys(keys - {k}))
  }

  lemma {:induction false} SortKeepsSorted(l: seq<string>)
    requires StrictlySorted(l)
    ensures Sort(l) == l
    decreases |l|
  {
    if l != [] {
      var init, last := l[..|l| - 1], l[|l| - 1];
      SortKeepsSorted(init);
      InsertLast(last, init);
      assert l == init + [last];
    }
  }

  lemma {:induction false} InsertLast(x: string, l: seq<string>)
    requires forall k <- l :: Before(k, x)
    ensures Insert(x, l) == l + [x]
    decreases |l|
  {
    if l != [] {
      BeforeIsTotal(x, l[0]);
      assert l[0] in l;
      InsertLast(x, l[1..]);
    }
  }

  function Without(l: seq<string>, x: string): seq<string> {
    if l == [] then [] else (if l[0] == x then [] else [l[0]]) + Without(l[1..], x)
  }

  lemma {:induction false} WithoutLists(l: seq<string>, x: string, keys: set<string>)
    requires Lists(l, keys)
    ensures Lists(Without(l, x), keys - {x})
    ensures |Without(l, x)| == |l| <==> x !in l
    ensures |Without(l, x)| <= |l|
    decreases |l|
  {
    if l != [] {
      var head, tail := l[0], l[1..];
      assert l == [head] + tail;
      assert head in keys;
      TailLists(l, keys);
      WithoutLists(tail, x, keys - {head});
      var r := Without(tail, x);
      assert Without(l, x) == (if head == x then [] else [head]) + r;
      forall j | 0 <= j < |r| ensures Before(head, r[j]) {
        assert r[j] in r;
        assert r[j] in tail;
      }
      if head == x {
        assert keys - {head} - {x} == keys - {x};
        assert [] + r == r;
      } else {
        assert keys - {head} - {x} + {head} == keys - {x};
      }
    }
  }
}
