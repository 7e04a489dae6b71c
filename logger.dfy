/** Selection of the root log level (server/app/config/logger.py). */
module Logger {

  /** The numeric levels of Python's logging module that the level names map to. */
  const LoggingDebug: int := 10
  const LoggingInfo: int := 20
  const LoggingWarning: int := 30
  const LoggingError: int := 40

  /** The names accepted for a level and the numeric level each selects. */
  const LevelMap: map<string, int> :=
    map["DEBUG" := LoggingDebug, "INFO" := LoggingInfo, "WARN" := LoggingWarning, "ERROR" := LoggingError]

  /** The level used when none is given (`LogLevels.debug`). */
  const DefaultLevel: string := "DEBUG"

  /** The level used for any name outside `LevelMap` (`LogLevels.error`). */
  const FallbackLevel: string := "ERROR"

  function UpperChar(c: char): char {
    if 'a' <= c <= 'z' then (c as int - 32) as char else c
  }

  /** Upper-casing of a string, restricted to ASCII letters. */
  function Upper(s: string): (r: string)
    ensures |r| == |s|
    ensures forall i :: 0 <= i < |s| ==> r[i] == UpperChar(s[i])
  {
    if s == [] then [] else [UpperChar(s[0])] + Upper(s[1..])
  }

  lemma UpperIdempotent(s: string)
    ensures Upper(Upper(s)) == Upper(s)
  {
  }

  /** The level name `configure_logging` settles on for the argument `level`. */
  function NormalizeLevel(level: string): (r: string)
    ensures r in LevelMap
    ensures Upper(level) in LevelMap ==> r == Upper(level)
    ensures Upper(level) !in LevelMap ==> r == FallbackLevel
  {
    var upper := Upper(level);
    if upper !in LevelMap then FallbackLevel else upper
  }

  /** The numeric level handed to `logging.basicConfig`. */
  function ConfiguredLevel(level: string): (n: int)
    ensures n in LevelMap.Values
  {
    LevelMap[NormalizeLevel(level)]
  }

  /** A string without lower-case ASCII letters is its own upper-case form. */
  lemma UpperFixesUpperCase(s: string)
    requires forall i :: 0 <= i < |s| ==> !('a' <= s[i] <= 'z')
    ensures Upper(s) == s
  {
  }

  /** Selection is case-insensitive: spellings that differ only in letter case select the same level. */
  lemma SelectionIgnoresCase(a: string, b: string)
    requires Upper(a) == Upper(b)
    ensures NormalizeLevel(a) == NormalizeLevel(b)
  {
  }

  /** Upper-casing the argument first changes nothing. */
  lemma SelectionOfUpperCase(s: string)
    ensures NormalizeLevel(Upper(s)) == NormalizeLevel(s)
  {
    UpperIdempotent(s);
  }

  /** Each of the four known names selects itself. */
  lemma KnownLevelsSelectThemselves(name: string)
    requires name in LevelMap
    ensures NormalizeLevel(name) == name
  {
    UpperFixesUpperCase(name);
  }

  /** Normalising an already normalised level changes nothing. */
  lemma NormalizeIdempotent(s: string)
    ensures NormalizeLevel(NormalizeLevel(s)) == NormalizeLevel(s)
  {
    KnownLevelsSelectThemselves(NormalizeLevel(s));
  }

  /** "info" and "INFO" select the same level, INFO. */
  lemma LowerCaseNameAccepted()
    ensures NormalizeLevel("info") == NormalizeLevel("INFO") == "INFO"
  {
    assert Upper("info") == "INFO" by {
      assert Upper("info")[..] == [UpperChar('i'), UpperChar('n'), UpperChar('f'), UpperChar('o')];
    }
    KnownLevelsSelectThemselves("INFO");
  }

  /** Python's own name "WARNING" is not in the map and falls back to ERROR. */
  lemma WarningFallsBack()
    ensures NormalizeLevel("WARNING") == FallbackLevel
  {
    UpperFixesUpperCase("WARNING");
    assert "WARNING" != "WARN";
  }

  /** With no argument the level is DEBUG. */
  lemma DefaultIsDebug()
    ensures NormalizeLevel(DefaultLevel) == "DEBUG" && ConfiguredLevel(DefaultLevel) == LoggingDebug
  {
    KnownLevelsSelectThemselves(DefaultLevel);
  }

  /** Distinct names select distinct numeric levels, strictly increasing from DEBUG to ERROR. */
  lemma LevelMapOrdered()
    ensures forall a, b :: a in LevelMap && b in LevelMap && a != b ==> LevelMap[a] != LevelMap[b]
    ensures LevelMap["DEBUG"] < LevelMap["INFO"] < LevelMap["WARN"] < LevelMap["ERROR"]
  {
  }
}
