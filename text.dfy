/// Substring search over the text the sketch receives from the time tracker,
/// as done by Arduino's `String::indexOf`.
module Text {

  /** `sub` occurs in `s` starting at position `k`. */
  predicate OccursAt(s: string, sub: string, k: nat) {
    k + |sub| <= |s| && s[k..k + |sub|] == sub
  }

  /** `sub` is a substring of `s`. */
  predicate Contains(s: string, sub: string) {
    exists k: nat | k <= |s| :: OccursAt(s, sub, k)
  }

  /** The search `strstr` does from position `from`: the first position at
      or after `from` where `sub` occurs in `s`, or -1 when there is none. */
  function IndexOfFrom(s: string, sub: string, from: nat): (k: int)
    ensures k == -1 <==> forall j: nat :: from <= j ==> !OccursAt(s, sub, j)
    ensures k != -1 ==> from <= k && OccursAt(s, sub, k)
    ensures k != -1 ==> forall j: nat :: from <= j < k ==> !OccursAt(s, sub, j)
    decreases |s| - from
  {
    if |s| < from + |sub| then -1
    else if s[from..from + |sub|] == sub then assert OccursAt(s, sub, from); from
    else IndexOfFrom(s, sub, from + 1)
  }

  /** `s.indexOf(sub)`: the first position of `sub` in `s`, or -1 when `sub`
      does not occur in `s`. Like Arduino's `String::indexOf`, which returns -1
      before searching when the start position is not inside `s`, it finds
      nothing in an empty `s`, not even an empty `sub`. */
  function IndexOf(s: string, sub: string): (k: int)
    ensures k == -1 <==> !Contains(s, sub) || |s| == 0
    ensures k != -1 ==> 0 <= k && OccursAt(s, sub, k)
    ensures k != -1 ==> forall j: nat :: j < k ==> !OccursAt(s, sub, j)
  {
    if |s| == 0 then -1 else IndexOfFrom(s, sub, 0)
  }

  /** Nothing of positive length is a substring of the empty text. */
  lemma NothingInEmpty(sub: string)
    requires |sub| > 0
    ensures !Contains("", sub)
  {
  }
}
