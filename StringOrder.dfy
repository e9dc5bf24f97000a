/**
 * The order in which a map keyed by strings is walked: character-by-character
 * lexicographic comparison, a proper prefix coming first. "The first entry of
 * the walk that satisfies a test" is therefore the least such key.
 */
module StringOrder {
  import opened Orders

  /** `a` sorts strictly before `b`. */
  predicate LexLess(a: string, b: string)
  {
    if |a| == 0 then |b| > 0
    else if |b| == 0 then false
    else if a[0] != b[0] then a[0] < b[0]
    else LexLess(a[1..], b[1..])
  }

  lemma {:induction false} LexLessIrreflexive(a: string)
    ensures !LexLess(a, a)
  {
    if |a| > 0 { LexLessIrreflexive(a[1..]); }
  }

  lemma {:induction false} LexLessTransitive(a: string, b: string, c: string)
    requires LexLess(a, b) && LexLess(b, c)
    ensures LexLess(a, c)
  {
    if |a| > 0 && |b| > 0 && |c| > 0 && a[0] == b[0] && b[0] == c[0] {
      LexLessTransitive(a[1..], b[1..], c[1..]);
    }
  }

  lemma {:induction false} LexLessTotal(a: string, b: string)
    requires a != b
    ensures LexLess(a, b) || LexLess(b, a)
  {
    if |a| > 0 && |b| > 0 && a[0] == b[0] {
      assert a == [a[0]] + a[1..] && b == [b[0]] + b[1..];
      LexLessTotal(a[1..], b[1..]);
    }
  }

  /** `k` is a member of `keys` and no member sorts before it. */
  ghost predicate IsLeast(k: string, keys: set<string>)
  {
    k in keys && forall j :: j in keys ==> !LexLess(j, k)
  }

  lemma {:induction false} LeastExists(keys: set<string>)
    requires keys != {}
    ensures exists k :: IsLeast(k, keys)
    decreases |keys|
  {
    var x :| x in keys;
    LexLessIrreflexive(x);
    if keys != {x} {
      var rest := keys - {x};
      LeastExists(rest);
      var m :| IsLeast(m, rest);
      if LexLess(x, m) {
        forall j | j in keys ensures !LexLess(j, x) {
          if j != x && LexLess(j, x) { LexLessTransitive(j, x, m); }
        }
        assert IsLeast(x, keys);
      } else {
        assert IsLeast(m, keys);
      }
    } else {
      assert IsLeast(x, keys);
    }
  }

  lemma LeastUnique(a: string, b: string, keys: set<string>)
    requires IsLeast(a, keys) && IsLeast(b, keys)
    ensures a == b
  {
    if a != b { LexLessTotal(a, b); }
  }

  /** The least key of a set, the first one an ascending walk meets; None for the empty set. */
  ghost function LeastKey(keys: set<string>): (r: Option<string>)
    ensures r.None? <==> keys == {}
    ensures r.Some? ==> IsLeast(r.value, keys)
  {
    if keys == {} then None
    else
      LeastExists(keys);
      var k :| IsLeast(k, keys);
      Some(k)
  }

  lemma LeastKeyIs(k: string, keys: set<string>)
    requires IsLeast(k, keys)
    ensures LeastKey(keys) == Some(k)
  {
    LeastUnique(k, LeastKey(keys).value, keys);
  }
}
