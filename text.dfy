/** Suffix test on strings, as Java's String.endsWith performs it. */
module Text {

  /** True when the last |suffix| characters of s are exactly suffix: no case folding
      and no normalisation. */
  predicate EndsWith(s: string, suffix: string)
  {
    |suffix| <= |s| && s[|s| - |suffix|..] == suffix
  }

  /** A string ends with a suffix exactly when it is some stem followed by that suffix. */
  lemma EndsWithIffAppended(s: string, suffix: string)
    ensures EndsWith(s + suffix, suffix)
    ensures EndsWith(s, suffix) ==> |suffix| <= |s| && s == s[..|s| - |suffix|] + suffix
  {
  }
}
