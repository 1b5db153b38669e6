/**
 * The few JavaScript string and array built-ins the chat logic relies on:
 * `toLowerCase`, `includes` and `slice` with one (possibly negative) argument.
 */
module Text {

  function Min(a: int, b: int): int
  {
    if a <= b then a else b
  }

  /** Lower-cases one character; only the ASCII letters 'A'..'Z' change. */
  function LowerChar(c: char): char
  {
    if 'A' <= c <= 'Z' then (c as int + 32) as char else c
  }

  predicate IsUpper(c: char)
  {
    'A' <= c <= 'Z'
  }

  /** `s.toLowerCase()`, restricted to the ASCII case mapping. */
  function ToLower(s: string): (r: string)
    ensures |r| == |s|
    ensures forall i :: 0 <= i < |r| ==> !IsUpper(r[i])
    ensures forall i :: 0 <= i < |r| ==> (r[i] == s[i] || (IsUpper(s[i]) && r[i] as int == s[i] as int + 32))
  {
    seq(|s|, i requires 0 <= i < |s| => LowerChar(s[i]))
  }

  /** Lower-casing twice is lower-casing once. */
  lemma ToLowerIdempotent(s: string)
    ensures ToLower(ToLower(s)) == ToLower(s)
  {
    var once := ToLower(s);
    forall i | 0 <= i < |s|
      ensures ToLower(once)[i] == once[i]
    {
      assert !IsUpper(once[i]);
    }
  }

  /** `k` occurs in `s` starting at index `i`. */
  ghost predicate OccursAt(s: string, k: string, i: nat)
  {
    i + |k| <= |s| && s[i..i + |k|] == k
  }

  /** `s.includes(k)`: tries every start position from the left. */
  function Includes(s: string, k: string): (b: bool)
    ensures |k| == 0 ==> b
    ensures b ==> |k| <= |s|
    decreases |s|
  {
    if |k| <= |s| && s[..|k|] == k then true
    else if |s| == 0 then false
    else Includes(s[1..], k)
  }

  /** `Includes` is exactly "k is a contiguous substring of s" (so the empty string is in every string). */
  lemma {:induction false} IncludesIsSubstring(s: string, k: string)
    ensures Includes(s, k) <==> exists i: nat :: OccursAt(s, k, i)
    decreases |s|
  {
    if |k| <= |s| && s[..|k|] == k {
      assert OccursAt(s, k, 0);
    } else if |s| == 0 {
    } else {
      IncludesIsSubstring(s[1..], k);
      forall i: nat | OccursAt(s[1..], k, i)
        ensures OccursAt(s, k, i + 1)
      {
        assert s[1..][i..i + |k|] == s[i + 1..i + 1 + |k|];
      }
      forall i: nat | OccursAt(s, k, i)
        ensures i >= 1 && OccursAt(s[1..], k, i - 1)
      {
        assert s[1..][i - 1..i - 1 + |k|] == s[i..i + |k|];
      }
    }
  }

  /** Anything that contains `k` contains every prefix of `k`. */
  lemma IncludesPrefix(s: string, k: string, p: string)
    requires p <= k
    requires Includes(s, k)
    ensures Includes(s, p)
  {
    IncludesIsSubstring(s, k);
    var i: nat :| OccursAt(s, k, i);
    assert s[i..i + |p|] == s[i..i + |k|][..|p|];
    assert OccursAt(s, p, i);
    IncludesIsSubstring(s, p);
  }

  /** Lower-casing a concatenation lower-cases each part. */
  lemma ToLowerAppend(a: string, b: string)
    ensures ToLower(a + b) == ToLower(a) + ToLower(b)
  {
    var l := ToLower(a + b);
    var r := ToLower(a) + ToLower(b);
    forall i | 0 <= i < |l|
      ensures l[i] == r[i]
    {
      if i < |a| {
        assert (a + b)[i] == a[i];
      } else {
        assert (a + b)[i] == b[i - |a|];
      }
    }
  }

  /** Text around a string never hides a substring of it. */
  lemma IncludesInContext(pre: string, s: string, post: string, k: string)
    requires Includes(s, k)
    ensures Includes(pre + s + post, k)
  {
    IncludesIsSubstring(s, k);
    var i: nat :| OccursAt(s, k, i);
    var whole := pre + s + post;
    assert whole[|pre| + i..|pre| + i + |k|] == s[i..i + |k|];
    assert OccursAt(whole, k, |pre| + i);
    IncludesIsSubstring(whole, k);
  }

  /**
   * `s.slice(start)`: a negative start counts back from the end and is clamped at 0;
   * a non-negative start is clamped at the length.
   */
  function SliceFrom<T>(s: seq<T>, start: int): (r: seq<T>)
    ensures |r| <= |s| && r == s[|s| - |r|..]
    ensures start < 0 ==> |r| == Min(-start, |s|)
    ensures start >= 0 ==> |r| == |s| - Min(start, |s|)
  {
    var from := if start < 0 then (if |s| + start < 0 then 0 else |s| + start)
                else (if start > |s| then |s| else start);
    s[from..]
  }

  /** `s.slice(-n)` is the last `min(n, |s|)` elements of `s`, in order. */
  lemma SliceLast<T>(s: seq<T>, n: int)
    requires n > 0
    ensures |SliceFrom(s, -n)| == Min(n, |s|)
    ensures s == s[..|s| - Min(n, |s|)] + SliceFrom(s, -n)
  {
  }

}
