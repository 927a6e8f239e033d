/** The constants the core reads: the priority levels, the upload size limit and the email pattern. */
module Constants {
  import opened Text

  /** `PRIORITY_LEVELS` */
  const PriorityLevels: seq<string> := ["high", "medium", "low"]

  /** `MAX_FILE_SIZE`: 10 MiB. */
  const MaxFileSize: nat := 10 * 1024 * 1024

  /** A character of the class `[^\s@]`. */
  predicate EmailChar(c: char) {
    !IsWhitespace(c) && c != '@'
  }

  /**
   * `s` splits as `[^\s@]+ @ [^\s@]+ \. [^\s@]+` with the '@' at `at` and the '.' at `dot`.
   * The '.' belongs to `[^\s@]`, so every character but the '@' is in that class.
   */
  ghost predicate EmailSplit(s: string, at: int, dot: int) {
    && 0 < at && at + 1 < dot && dot + 1 < |s|
    && s[at] == '@' && s[dot] == '.'
    && forall k :: 0 <= k < |s| && k != at ==> EmailChar(s[k])
  }

  /** The language of `EMAIL_REGEX`, `/^[^\s@]+@[^\s@]+\.[^\s@]+$/`. */
  ghost predicate MatchesEmailRegex(s: string) {
    exists at, dot :: EmailSplit(s, at, dot)
  }
}
