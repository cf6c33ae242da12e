/**
 * The JavaScript string built-ins the stock-lookup helpers rely on:
 * `lastIndexOf` for one character, `includes` for a substring, and the
 * concatenation that a template literal performs.
 */
module Text {

  /** `t` occurs in `s` starting at index `i`. */
  ghost predicate OccursAt(s: string, t: string, i: int) {
    0 <= i && i + |t| <= |s| && s[i..i + |t|] == t
  }

  /** `s` begins with `t`. */
  predicate StartsWith(s: string, t: string) {
    |t| <= |s| && s[..|t|] == t
  }

  /** `s` ends with `t`. */
  predicate EndsWith(s: string, t: string) {
    |t| <= |s| && s[|s| - |t|..] == t
  }

  /** `s.lastIndexOf(c)`: the index of the last `c` in `s`, or -1 when `s` has none. */
  function LastIndexOf(s: string, c: char): (i: int)
    ensures -1 <= i < |s|
    ensures i == -1 <==> c !in s
    ensures 0 <= i ==> s[i] == c && c !in s[i + 1..]
  {
    if |s| == 0 then -1
    else if s[|s| - 1] == c then |s| - 1
    else
      var j := LastIndexOf(s[..|s| - 1], c);
      assert s[..|s| - 1] + [s[|s| - 1]] == s;
      if 0 <= j then
        assert s[j + 1..] == s[..|s| - 1][j + 1..] + [s[|s| - 1]];
        j
      else j
  }

  /** `s.includes(t)`: `t` occurs somewhere in `s` as a contiguous substring. */
  function Includes(s: string, t: string): (r: bool)
    ensures r <==> exists i :: OccursAt(s, t, i)
    ensures r ==> |t| <= |s|
    decreases |s|
  {
    if |s| < |t| then
      assert forall i :: !OccursAt(s, t, i);
      false
    else if s[..|t|] == t then
      assert OccursAt(s, t, 0);
      true
    else
      var rest := Includes(s[1..], t);
      assert forall i :: OccursAt(s[1..], t, i) <==> OccursAt(s, t, i + 1) by {
        forall i ensures OccursAt(s[1..], t, i) <==> OccursAt(s, t, i + 1) {
          if 0 <= i && i + |t| <= |s| - 1 {
            assert s[1..][i..i + |t|] == s[i + 1..i + 1 + |t|];
          }
        }
      }
      assert rest ==> exists i :: OccursAt(s, t, i) by {
        if rest {
          var i :| OccursAt(s[1..], t, i);
          assert OccursAt(s, t, i + 1);
        }
      }
      assert (exists i :: OccursAt(s, t, i)) ==> rest by {
        if exists i :: OccursAt(s, t, i) {
          var i :| OccursAt(s, t, i);
          assert i != 0;
          assert OccursAt(s[1..], t, i - 1);
        }
      }
      rest
  }

  /** A substring of a substring is a substring of the whole. */
  lemma {:induction false} IncludesInSlice(s: string, lo: int, hi: int, t: string)
    requires 0 <= lo <= hi <= |s|
    requires Includes(s[lo..hi], t)
    ensures Includes(s, t)
  {
    var i :| OccursAt(s[lo..hi], t, i);
    assert 0 <= i && i + |t| <= hi - lo;
    var inner, outer := s[lo..hi][i..i + |t|], s[lo + i..lo + i + |t|];
    assert forall j :: 0 <= j < |t| ==> inner[j] == outer[j];
    assert inner == outer;
    assert OccursAt(s, t, lo + i);
  }

  /** Being a substring is transitive. */
  lemma {:induction false} IncludesTransitive(s: string, t: string, u: string)
    requires Includes(s, t) && Includes(t, u)
    ensures Includes(s, u)
  {
    var i :| OccursAt(s, t, i);
    assert s[i..i + |t|] == t;
    IncludesInSlice(s, i, i + |t|, u);
  }

  /** The concatenation of a list of pieces, as a template literal builds it. */
  function Concat(parts: seq<string>): (r: string)
    ensures parts == [] ==> r == ""
    ensures |parts| > 0 ==> |parts[0]| <= |r|
  {
    if parts == [] then "" else parts[0] + Concat(parts[1..])
  }

  /** Every piece of a concatenation occurs, verbatim, in the result. */
  lemma {:induction false} ConcatIncludesPart(parts: seq<string>, k: nat)
    requires k < |parts|
    ensures Includes(Concat(parts), parts[k])
  {
    var whole := Concat(parts);
    if k == 0 {
      assert whole[..|parts[0]|] == parts[0];
      assert OccursAt(whole, parts[0], 0);
    } else {
      ConcatIncludesPart(parts[1..], k - 1);
      assert whole[|parts[0]|..|whole|] == Concat(parts[1..]);
      IncludesInSlice(whole, |parts[0]|, |whole|, parts[k]);
    }
  }

  /** The first piece of a concatenation is a prefix of the result. */
  lemma ConcatStartsWithFirst(parts: seq<string>)
    requires |parts| > 0
    ensures StartsWith(Concat(parts), parts[0])
  {
  }

  /** The last piece of a concatenation is a suffix of the result. */
  lemma {:induction false} ConcatEndsWithLast(parts: seq<string>)
    requires |parts| > 0
    ensures EndsWith(Concat(parts), parts[|parts| - 1])
  {
    if |parts| > 1 {
      ConcatEndsWithLast(parts[1..]);
      assert parts[1..][|parts| - 2] == parts[|parts| - 1];
    }
  }
}
