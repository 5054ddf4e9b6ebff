/** The few Python string operations the classifiers and formatters rely
    on: `str.lower` on ASCII text, substring `in`, and `str.endswith`. */
module PyStr {

  /** Whether `c` is an ASCII capital letter. */
  predicate IsUpperAscii(c: char)
  {
    'A' <= c <= 'Z'
  }

  /** `str.lower` on ASCII letters; other characters are kept. */
  function Lower(s: string): (r: string)
    ensures |r| == |s|
    ensures forall i :: 0 <= i < |s| ==> r[i] == if IsUpperAscii(s[i]) then (s[i] as int + 32) as char else s[i]
  {
    if s == [] then []
    else [if IsUpperAscii(s[0]) then (s[0] as int + 32) as char else s[0]] + Lower(s[1..])
  }

  /** Lower-casing leaves no ASCII capital and is idempotent. */
  lemma LowerIdempotent(s: string)
    ensures forall i :: 0 <= i < |s| ==> !IsUpperAscii(Lower(s)[i])
    ensures Lower(Lower(s)) == Lower(s)
  {
  }

  /** `t` occurs in `s` starting at position `i`. */
  predicate OccursAt(s: string, t: string, i: int)
  {
    0 <= i && i + |t| <= |s| && s[i..i + |t|] == t
  }

  /** `t in s` for strings: `t` occurs in `s` at some position. */
  predicate Contains(s: string, t: string)
  {
    exists i :: 0 <= i <= |s| && OccursAt(s, t, i)
  }

  /** Text put around `t` still contains it. */
  lemma ContainsMiddle(pre: string, t: string, post: string)
    ensures Contains(pre + t + post, t)
  {
    assert (pre + t + post)[|pre|..|pre| + |t|] == t;
    assert OccursAt(pre + t + post, t, |pre|);
  }

  /** Lower-casing keeps an occurrence of text that has no capitals. */
  lemma LowerKeepsOccurrence(s: string, t: string, i: int)
    requires OccursAt(s, t, i) && forall k :: 0 <= k < |t| ==> !IsUpperAscii(t[k])
    ensures OccursAt(Lower(s), t, i)
  {
    forall k | 0 <= k < |t| ensures Lower(s)[i + k] == t[k] {
      assert s[i + k] == s[i..i + |t|][k];
    }
  }

  /** `any(t in s for t in terms)` */
  predicate ContainsAny(s: string, terms: seq<string>)
  {
    exists t :: t in terms && Contains(s, t)
  }

  /** `s.endswith(t)` */
  predicate EndsWith(s: string, t: string)
  {
    |t| <= |s| && s[|s| - |t|..] == t
  }
}
