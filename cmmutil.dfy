/** The string helpers the core relies on: CmmUtil.nvl and java.lang.String.contains. */
module CmmUtil {
  import opened Wrappers

  /** CmmUtil.nvl: a null string becomes the empty string, any other string is kept. */
  function Nvl(s: Option<string>): (r: string)
    ensures s.None? ==> r == ""
    ensures s.Some? ==> r == s.value
  {
    s.GetOr("")
  }

  /** `sub` occurs in `s` starting at index `i`. */
  predicate OccursAt(s: string, sub: string, i: int) {
    0 <= i && i + |sub| <= |s| && s[i..i + |sub|] == sub
  }

  /** String.contains: `sub` occurs somewhere in `s`. */
  predicate Contains(s: string, sub: string) {
    exists i | 0 <= i <= |s| - |sub| :: OccursAt(s, sub, i)
  }

  /** `sub` does not occur at `i` when some character of the window differs from `sub`'s. */
  lemma MismatchAt(s: string, sub: string, i: int, k: int)
    requires 0 <= i && 0 <= k < |sub| && i + k < |s| && s[i + k] != sub[k]
    ensures !OccursAt(s, sub, i)
  {
  }

  /** A string in which one of `sub`'s characters occurs nowhere does not contain `sub`. */
  lemma AbsentCharNotContained(s: string, sub: string, m: int)
    requires 0 <= m < |sub| && forall i | 0 <= i < |s| :: s[i] != sub[m]
    ensures !Contains(s, sub)
  {
    forall i | 0 <= i <= |s| - |sub| ensures !OccursAt(s, sub, i) {
      MismatchAt(s, sub, i, m);
    }
  }

  /**
   * A string whose every '/' is followed by a character of `follow` does not
   * contain a `sub` that starts with '/' and a character outside `follow`.
   */
  lemma SlashNotFollowedBy(s: string, follow: string, sub: string)
    requires forall i | 0 <= i < |s| - 1 && s[i] == '/' :: s[i + 1] in follow
    requires |sub| >= 2 && sub[0] == '/' && sub[1] !in follow
    ensures !Contains(s, sub)
  {
    forall i | 0 <= i <= |s| - |sub| ensures !OccursAt(s, sub, i) {
      if s[i] == '/' {
        MismatchAt(s, sub, i, 1);
      } else {
        MismatchAt(s, sub, i, 0);
      }
    }
  }
}
