/**
 * The "resolved" flag of a support ticket: its status name, lower-cased,
 * is exactly "done".
 */
module Status {

  /** `str.lower()` on one character, for the ASCII letters. */
  function LowerChar(c: char): (l: char)
    ensures 'A' <= c <= 'Z' ==> l as int == c as int + 32
    ensures !('A' <= c <= 'Z') ==> l == c
  {
    if 'A' <= c <= 'Z' then (c as int - 'A' as int + 'a' as int) as char else c
  }

  /** `str.lower()`, character by character. */
  function Lower(s: string): (l: string)
    ensures |l| == |s|
    ensures forall i :: 0 <= i < |s| ==> l[i] == LowerChar(s[i])
  {
    seq(|s|, i requires 0 <= i < |s| => LowerChar(s[i]))
  }

  const DoneToken: string := "done"

  /** `status.name.lower() == "done"`. */
  predicate IsResolved(status: string) {
    Lower(status) == DoneToken
  }

  /**
   * The comparison is case-insensitive and admits nothing else: a status is
   * resolved exactly when it is four letters spelling "done" in any mix of
   * cases (no trimming, no other terminal status).
   */
  lemma ResolvedIff(status: string)
    ensures IsResolved(status) <==>
      |status| == 4 &&
      status[0] in "dD" && status[1] in "oO" && status[2] in "nN" && status[3] in "eE"
  {
  }

  /** Statuses that differ only in the case of their letters agree on the flag. */
  lemma ResolvedIgnoresCase(a: string, b: string)
    requires |a| == |b|
    requires forall i :: 0 <= i < |a| ==> LowerChar(a[i]) == LowerChar(b[i])
    ensures IsResolved(a) == IsResolved(b)
  {
  }

  /** A few statuses the tracker uses, and a near miss. */
  lemma StatusExamples()
    ensures IsResolved("Done") && IsResolved("DONE") && IsResolved("done")
    ensures !IsResolved("Closed") && !IsResolved("In Progress") && !IsResolved("Done ")
  {
  }
}
