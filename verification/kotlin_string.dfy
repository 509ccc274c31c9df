/**
 The one piece of Kotlin's string library the classifier relies on:
 `CharSequence.contains(other)`, true when `other` occurs as a contiguous
 run of characters somewhere in the receiver.
 */
module KotlinString {

  /** `pattern` occurs in `s` starting at index `i`. */
  predicate OccursAt(s: string, pattern: string, i: nat)
  {
    i + |pattern| <= |s| && s[i..i + |pattern|] == pattern
  }

  /** Dropping the first character moves every occurrence one place to the left. */
  lemma OccursAfterFirst(s: string, pattern: string, i: nat)
    requires |s| > 0
    ensures OccursAt(s[1..], pattern, i) <==> OccursAt(s, pattern, i + 1)
  {
    if i + 1 + |pattern| <= |s| {
      assert s[1..][i..i + |pattern|] == s[i + 1..i + 1 + |pattern|];
    }
  }

  /** Substring search, scanning the start positions of `s` from left to right. */
  function Contains(s: string, pattern: string): (r: bool)
    ensures r <==> exists i: nat :: OccursAt(s, pattern, i)
    decreases |s|
  {
    if |s| < |pattern| then
      false
    else if s[..|pattern|] == pattern then
      assert OccursAt(s, pattern, 0);
      true
    else
      assert !OccursAt(s, pattern, 0);
      assert forall i: nat :: OccursAt(s[1..], pattern, i) <==> OccursAt(s, pattern, i + 1) by {
        forall i: nat {
          OccursAfterFirst(s, pattern, i);
        }
      }
      assert forall i: nat :: OccursAt(s, pattern, i) ==> OccursAt(s[1..], pattern, i - 1) by {
        forall i: nat | OccursAt(s, pattern, i)
          ensures OccursAt(s[1..], pattern, i - 1)
        {
          OccursAfterFirst(s, pattern, i - 1);
        }
      }
      Contains(s[1..], pattern)
  }
}
