/**
 * The three list operations the reducers apply to an array of records, each keyed on the
 * records' `_id` property compared with JavaScript's `===`:
 *   - `findIndex(r => r._id === key)`,
 *   - "write `x` at that index when one was found" (ReplaceFirst, defined independently),
 *   - `filter(r => r._id !== key)` (Without).
 */
module Lists {
  import opened JsValues

  /** True when some record of `s` has `_id === key`. */
  predicate HasKey(s: seq<Record>, key: Option<Id>)
  {
    exists i :: 0 <= i < |s| && s[i]._id == key
  }

  /** `s.findIndex(r => r._id === key)`: the first matching index, or -1 when none matches. */
  function FindIndex(s: seq<Record>, key: Option<Id>): (r: int)
    ensures -1 <= r < |s|
    ensures r == -1 <==> !HasKey(s, key)
    ensures 0 <= r ==> s[r]._id == key && forall i :: 0 <= i < r ==> s[i]._id != key
  {
    if s == [] then -1
    else if s[0]._id == key then 0
    else
      var r := FindIndex(s[1..], key);
      assert forall i :: 0 < i < |s| ==> s[i] == s[1..][i - 1];
      if r == -1 then -1 else r + 1
  }

  /** The list with its first record whose `_id` is `key` replaced by `x`; unchanged when none is. */
  function ReplaceFirst(s: seq<Record>, key: Option<Id>, x: Record): (r: seq<Record>)
    ensures |r| == |s|
  {
    if s == [] then []
    else if s[0]._id == key then [x] + s[1..]
    else [s[0]] + ReplaceFirst(s[1..], key, x)
  }

  /** The records of `s` whose `_id` is not `key`, in their original order. */
  function Without(s: seq<Record>, key: Option<Id>): seq<Record>
  {
    if s == [] then []
    else if s[0]._id == key then Without(s[1..], key)
    else [s[0]] + Without(s[1..], key)
  }

  // ---------------------------------------------------------------- ReplaceFirst

  /** Replacing at the first match is an indexed write at FindIndex; with no match nothing changes. */
  lemma {:induction false} ReplaceFirstIsIndexedWrite(s: seq<Record>, key: Option<Id>, x: Record)
    ensures var i := FindIndex(s, key);
            ReplaceFirst(s, key, x) == if i == -1 then s else s[i := x]
  {
    if s != [] && s[0]._id != key {
      ReplaceFirstIsIndexedWrite(s[1..], key, x);
      var i := FindIndex(s[1..], key);
      if i != -1 {
        assert [s[0]] + s[1..][i := x] == s[i + 1 := x];
      } else {
        assert [s[0]] + s[1..] == s;
      }
    }
  }

  /** The first match holds `x`, and every other index is unchanged. */
  lemma {:induction false} ReplaceFirstFrame(s: seq<Record>, key: Option<Id>, x: Record)
    ensures HasKey(s, key) ==> ReplaceFirst(s, key, x)[FindIndex(s, key)] == x
    ensures forall j :: 0 <= j < |s| && j != FindIndex(s, key) ==> ReplaceFirst(s, key, x)[j] == s[j]
  {
    ReplaceFirstIsIndexedWrite(s, key, x);
  }

  /** When no record has `_id === key`, replacing leaves the list as it was. */
  lemma {:induction false} ReplaceFirstNoMatch(s: seq<Record>, key: Option<Id>, x: Record)
    requires !HasKey(s, key)
    ensures ReplaceFirst(s, key, x) == s
  {
    ReplaceFirstIsIndexedWrite(s, key, x);
  }

  /** Replacing a record by one with the same `_id`, twice, is the same as once with the second record. */
  lemma {:induction false} ReplaceFirstTwice(s: seq<Record>, key: Option<Id>, x: Record, y: Record)
    requires x._id == key
    ensures ReplaceFirst(ReplaceFirst(s, key, x), key, y) == ReplaceFirst(s, key, y)
  {
    if s != [] && s[0]._id != key {
      ReplaceFirstTwice(s[1..], key, x, y);
      assert ([s[0]] + ReplaceFirst(s[1..], key, x))[1..] == ReplaceFirst(s[1..], key, x);
    } else if s != [] {
      assert ([x] + s[1..])[1..] == s[1..];
    }
  }

  // ---------------------------------------------------------------- Without

  /** A record survives the filter exactly when it was in the list and its `_id` is not `key`. */
  lemma {:induction false} WithoutMembership(s: seq<Record>, key: Option<Id>, r: Record)
    ensures r in Without(s, key) <==> r in s && r._id != key
  {
    if s != [] {
      WithoutMembership(s[1..], key, r);
      assert s == [s[0]] + s[1..];
    }
  }

  /** After the filter no record has `_id === key`. */
  lemma {:induction false} WithoutRemovesKey(s: seq<Record>, key: Option<Id>)
    ensures !HasKey(Without(s, key), key)
  {
    var t := Without(s, key);
    forall i | 0 <= i < |t| ensures t[i]._id != key {
      WithoutMembership(s, key, t[i]);
    }
  }

  /** The filter never grows the list, and it keeps the length exactly when no record matched. */
  lemma {:induction false} WithoutLength(s: seq<Record>, key: Option<Id>)
    ensures |Without(s, key)| <= |s|
    ensures |Without(s, key)| == |s| <==> !HasKey(s, key)
  {
    if s != [] {
      WithoutLength(s[1..], key);
      if HasKey(s[1..], key) {
        var i :| 0 <= i < |s[1..]| && s[1..][i]._id == key;
        assert s[i + 1]._id == key;
      }
      if !HasKey(s[1..], key) && s[0]._id != key {
        forall i | 0 <= i < |s| ensures s[i]._id != key {
          if i > 0 { assert s[i] == s[1..][i - 1]; }
        }
      }
    }
  }

  /** When no record matches, the filter returns the list unchanged. */
  lemma {:induction false} WithoutNoMatch(s: seq<Record>, key: Option<Id>)
    requires !HasKey(s, key)
    ensures Without(s, key) == s
  {
    if s != [] {
      assert s[0]._id != key;
      assert !HasKey(s[1..], key) by {
        forall i | 0 <= i < |s[1..]| ensures s[1..][i]._id != key {
          assert s[1..][i] == s[i + 1];
        }
      }
      WithoutNoMatch(s[1..], key);
      assert [s[0]] + s[1..] == s;
    }
  }

  /** The filter works element by element, so it keeps the original order: it distributes over `+`. */
  lemma {:induction false} WithoutConcat(a: seq<Record>, b: seq<Record>, key: Option<Id>)
    ensures Without(a + b, key) == Without(a, key) + Without(b, key)
  {
    if a == [] {
      assert a + b == b;
    } else {
      assert (a + b)[0] == a[0] && (a + b)[1..] == a[1..] + b;
      WithoutConcat(a[1..], b, key);
    }
  }

  /** Filtering twice by the same key is the same as filtering once. */
  lemma {:induction false} WithoutIdempotent(s: seq<Record>, key: Option<Id>)
    ensures Without(Without(s, key), key) == Without(s, key)
  {
    WithoutRemovesKey(s, key);
    WithoutNoMatch(Without(s, key), key);
  }

  /** Every record the filter keeps was in the list at least as many times. */
  lemma {:induction false} WithoutSubMultiset(s: seq<Record>, key: Option<Id>)
    ensures multiset(Without(s, key)) <= multiset(s)
  {
    if s != [] {
      WithoutSubMultiset(s[1..], key);
      assert s == [s[0]] + s[1..];
    }
  }
}
