/** Log-level selection at start-up: the validator `setLogLevel` and the
    `logLevels` table the level filter is built from. */
module LogLevel {
  import opened Wrappers

  /** The go-kit `level.Option`s the table refers to. */
  datatype FilterOption = AllowDebug | AllowInfo | AllowWarn | AllowError

  /** `logLevels`, looked up with the raw flag value. */
  const LogLevels: map<string, FilterOption> :=
    map["debug" := AllowDebug, "info" := AllowInfo, "warn" := AllowWarn, "error" := AllowWarn]

  const UnknownLevelPrefix := "unkown log level: "

  /** `unicode.ToLower` restricted to ASCII. */
  function LowerChar(c: char): char
  {
    if 'A' <= c <= 'Z' then (c as int + 32) as char else c
  }

  predicate IsLower(s: string)
  {
    forall i :: 0 <= i < |s| ==> 'A' > s[i] || s[i] > 'Z'
  }

  /** `strings.ToLower` restricted to ASCII. */
  function ToLower(s: string): (r: string)
    ensures |r| == |s| && IsLower(r)
    ensures forall i :: 0 <= i < |s| ==> r[i] == LowerChar(s[i])
  {
    seq(|s|, i requires 0 <= i < |s| => LowerChar(s[i]))
  }

  /** `setLogLevel`: `None` is a nil error, `Some(msg)` the returned error. */
  function SetLogLevel(lvl: string): (err: Option<string>)
    ensures err.None? <==> lvl == "" || ToLower(lvl) in LogLevels
    ensures err.Some? ==> err.value == UnknownLevelPrefix + lvl
  {
    var lower := ToLower(lvl);
    if lower == "" then None
    else if lower == "debug" then None
    else if lower == "info" then None
    else if lower == "warn" then None
    else if lower == "error" then None
    else Some(UnknownLevelPrefix + lvl)
  }

  /** Lowercasing leaves a string without upper-case letters as it is. */
  lemma {:induction false} ToLowerOfLower(s: string)
    requires IsLower(s)
    ensures ToLower(s) == s
  {
    forall i | 0 <= i < |s| ensures ToLower(s)[i] == s[i] {
      assert 'A' > s[i] || s[i] > 'Z';
    }
  }

  /** The table has exactly the four level names as keys, and "error"
      selects the same option as "warn". */
  lemma LogLevelsTable()
    ensures LogLevels.Keys == {"debug", "info", "warn", "error"}
    ensures LogLevels["error"] == LogLevels["warn"] == AllowWarn
    ensures LogLevels.Values == {AllowDebug, AllowInfo, AllowWarn}
  {
    assert LogLevels["debug"] == AllowDebug;
    assert LogLevels["info"] == AllowInfo;
  }

  /** The validator ignores letter case: two spellings that lowercase alike
      are both accepted or both rejected. */
  lemma SetLogLevelIgnoresCase(a: string, b: string)
    requires ToLower(a) == ToLower(b)
    ensures SetLogLevel(a).None? <==> SetLogLevel(b).None?
  {
    if a == "" || b == "" {
      assert |ToLower(a)| == |a| && |ToLower(b)| == |b|;
    }
  }

  /** The table lookup is case-sensitive: a non-empty value the validator
      accepts is a key of the table exactly when it is written in lower case. */
  lemma TableLookupIsExactCase(lvl: string)
    requires lvl != "" && SetLogLevel(lvl).None?
    ensures lvl in LogLevels <==> lvl == ToLower(lvl)
  {
    if lvl in LogLevels {
      LogLevelsTable();
      assert IsLower(lvl) by {
        assert lvl == "debug" || lvl == "info" || lvl == "warn" || lvl == "error";
      }
      ToLowerOfLower(lvl);
    }
  }

  /** "DEBUG" passes the validator but is not a key of the table. */
  lemma UpperCaseAcceptedButNotInTable()
    ensures SetLogLevel("DEBUG") == None
    ensures "DEBUG" !in LogLevels
  {
    assert ToLower("DEBUG") == "debug";
  }
}
