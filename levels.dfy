/**
 * Log levels: a signed 32-bit ordinal with five named values, the threshold test
 * `Enabled`, the fixed name tables, and the text form used in configuration files.
 */
module Levels {
  import opened Wrappers

  /** A log level is a Go `int32`; any value of that range is a Level, named or not. */
  newtype Level = x: int | -0x8000_0000 <= x < 0x8000_0000

  const DebugLevel: Level := -1
  const InfoLevel: Level := 0
  const WarnLevel: Level := 1
  const ErrorLevel: Level := 2
  /** Not a severity to log at: a threshold that disables everything. */
  const OffLevel: Level := 3

  const LevelName: map<Level, string> := map[
    DebugLevel := "DEBUG",
    InfoLevel := "INFO",
    WarnLevel := "WARN",
    ErrorLevel := "ERROR",
    OffLevel := "OFF"
  ]

  const LevelValue: map<string, Level> := map[
    "DEBUG" := DebugLevel,
    "INFO" := InfoLevel,
    "WARN" := WarnLevel,
    "ERROR" := ErrorLevel,
    "OFF" := OffLevel
  ]

  /** The named levels are -1 .. 3 in ascending severity, and no other value has a name. */
  lemma NamedLevelsOrdered()
    ensures DebugLevel == -1 && InfoLevel == 0 && WarnLevel == 1 && ErrorLevel == 2 && OffLevel == 3
    ensures DebugLevel < InfoLevel < WarnLevel < ErrorLevel < OffLevel
    ensures forall l :: l in LevelName <==> DebugLevel <= l <= OffLevel
  {
  }

  /** The two tables are inverse bijections between the named levels and their names. */
  lemma NameTablesInverse()
    ensures forall l :: l in LevelName ==> LevelName[l] in LevelValue && LevelValue[LevelName[l]] == l
    ensures forall s :: s in LevelValue ==> LevelValue[s] in LevelName && LevelName[LevelValue[s]] == s
  {
  }

  /** The name of a level; a value without a name renders as "OFF". */
  function String(l: Level): (r: string)
    ensures l == DebugLevel ==> r == "DEBUG"
    ensures l == InfoLevel ==> r == "INFO"
    ensures l == WarnLevel ==> r == "WARN"
    ensures l == ErrorLevel ==> r == "ERROR"
    ensures l == OffLevel ==> r == "OFF"
    ensures (l < DebugLevel || OffLevel < l) ==> r == "OFF"
    ensures r in LevelValue && LevelValue[r] == if l in LevelName then l else OffLevel
  {
    if l in LevelName then LevelName[l] else "OFF"
  }

  /**
   * Whether a logger whose threshold is `l` logs a message at level `proba`:
   * exactly the levels from the threshold up to, but excluding, OffLevel.
   */
  function Enabled(l: Level, proba: Level): (r: bool)
    ensures r <==> proba < OffLevel && l <= proba
  {
    if proba >= OffLevel then false else l <= proba
  }

  /** If a threshold enables `p`, it enables every more severe level short of Off. */
  lemma EnabledMonotone(l: Level, p: Level, q: Level)
    requires Enabled(l, p) && p <= q < OffLevel
    ensures Enabled(l, q)
  {
  }

  /** Lowering the threshold never disables a level. */
  lemma LowerThresholdEnablesMore(l: Level, m: Level, p: Level)
    requires l <= m && Enabled(m, p)
    ensures Enabled(l, p)
  {
  }

  /** No threshold enables OffLevel or any value above it; the Off threshold enables nothing. */
  lemma OffNeverEnabled(l: Level, p: Level)
    ensures OffLevel <= p ==> !Enabled(l, p)
    ensures !Enabled(OffLevel, p)
  {
  }

  /** A threshold short of Off enables its own level. */
  lemma ThresholdEnablesItself(l: Level)
    requires l < OffLevel
    ensures Enabled(l, l)
  {
  }

  /** The Warn threshold: Warn and Error pass, Debug, Info and Off do not. */
  lemma WarnThresholdExamples()
    ensures Enabled(WarnLevel, WarnLevel) && Enabled(WarnLevel, ErrorLevel)
    ensures !Enabled(WarnLevel, OffLevel) && !Enabled(WarnLevel, InfoLevel) && !Enabled(WarnLevel, DebugLevel)
  {
  }

  // ---------------------------------------------------------------------------
  // Text form

  /** The characters removed from both ends of a configured level name. */
  predicate IsQuote(c: char) {
    c == '"' || c == '\''
  }

  predicate AllQuotes(s: string) {
    forall i :: 0 <= i < |s| ==> IsQuote(s[i])
  }

  /** Removes every leading quote character. */
  function TrimLeftQuotes(s: string): string
    decreases |s|
  {
    if s != [] && IsQuote(s[0]) then TrimLeftQuotes(s[1..]) else s
  }

  /** Removes every trailing quote character. */
  function TrimRightQuotes(s: string): string
    decreases |s|
  {
    if s != [] && IsQuote(s[|s| - 1]) then TrimRightQuotes(s[..|s| - 1]) else s
  }

  /** Trimming with the cut set of the two quote characters, from the left and then from the right. */
  function TrimQuotes(s: string): string {
    TrimRightQuotes(TrimLeftQuotes(s))
  }

  /** ASCII upper-casing of one character. */
  function UpperAscii(c: char): char {
    if 'a' <= c <= 'z' then (c as int - 32) as char else c
  }

  /** ASCII upper-casing of a text, character by character. */
  function ToUpper(s: string): (r: string)
    ensures |r| == |s|
  {
    if s == [] then [] else [UpperAscii(s[0])] + ToUpper(s[1..])
  }

  lemma {:induction false} ToUpperAt(s: string, i: nat)
    requires i < |s|
    ensures ToUpper(s)[i] == UpperAscii(s[i])
    decreases |s|
  {
    if i > 0 {
      ToUpperAt(s[1..], i - 1);
    }
  }

  lemma {:induction false} ToUpperConcat(a: string, b: string)
    ensures ToUpper(a + b) == ToUpper(a) + ToUpper(b)
    decreases |a|
  {
    if a == [] {
      assert a + b == b;
    } else {
      assert (a + b)[1..] == a[1..] + b;
      ToUpperConcat(a[1..], b);
    }
  }

  /** Trimming from the left removes a run of quotes and stops at the first other character. */
  lemma {:induction false} TrimLeftSplit(s: string) returns (pre: string)
    ensures s == pre + TrimLeftQuotes(s) && AllQuotes(pre)
    ensures TrimLeftQuotes(s) == [] || !IsQuote(TrimLeftQuotes(s)[0])
    decreases |s|
  {
    if s != [] && IsQuote(s[0]) {
      var rest := TrimLeftSplit(s[1..]);
      pre := [s[0]] + rest;
      assert s == [s[0]] + s[1..];
    } else {
      pre := [];
    }
  }

  /** Trimming from the right removes a run of quotes and stops at the last other character. */
  lemma {:induction false} TrimRightSplit(s: string) returns (post: string)
    ensures s == TrimRightQuotes(s) + post && AllQuotes(post)
    ensures TrimRightQuotes(s) == [] || !IsQuote(TrimRightQuotes(s)[|TrimRightQuotes(s)| - 1])
    decreases |s|
  {
    if s != [] && IsQuote(s[|s| - 1]) {
      var rest := TrimRightSplit(s[..|s| - 1]);
      post := rest + [s[|s| - 1]];
      assert s == s[..|s| - 1] + [s[|s| - 1]];
    } else {
      post := [];
    }
  }

  lemma {:induction false} TrimLeftOfPadded(pre: string, rest: string)
    requires AllQuotes(pre)
    requires rest == [] || !IsQuote(rest[0])
    ensures TrimLeftQuotes(pre + rest) == rest
    decreases |pre|
  {
    if pre == [] {
      assert pre + rest == rest;
    } else {
      assert (pre + rest)[1..] == pre[1..] + rest;
      TrimLeftOfPadded(pre[1..], rest);
    }
  }

  lemma {:induction false} TrimRightOfPadded(rest: string, post: string)
    requires AllQuotes(post)
    requires rest == [] || !IsQuote(rest[|rest| - 1])
    ensures TrimRightQuotes(rest + post) == rest
    decreases |post|
  {
    if post == [] {
      assert rest + post == rest;
    } else {
      var n := |rest + post|;
      assert (rest + post)[..n - 1] == rest + post[..|post| - 1];
      TrimRightOfPadded(rest, post[..|post| - 1]);
    }
  }

  lemma {:induction false} TrimLeftOfQuotes(s: string)
    requires AllQuotes(s)
    ensures TrimLeftQuotes(s) == []
    decreases |s|
  {
    if s != [] {
      assert IsQuote(s[0]);
      assert AllQuotes(s[1..]) by {
        forall i | 0 <= i < |s| - 1 ensures IsQuote(s[1..][i]) { assert s[1..][i] == s[i + 1]; }
      }
      TrimLeftOfQuotes(s[1..]);
    }
  }

  /**
   * Trimming removes exactly the quote runs around a core that neither starts nor
   * ends with a quote; a text made only of quotes trims to the empty string.
   */
  lemma TrimOfPadded(pre: string, core: string, post: string)
    requires AllQuotes(pre) && AllQuotes(post)
    requires core == [] || (!IsQuote(core[0]) && !IsQuote(core[|core| - 1]))
    ensures TrimQuotes(pre + core + post) == core
  {
    if core == [] {
      var s := pre + core + post;
      assert AllQuotes(s) by {
        forall i | 0 <= i < |s| ensures IsQuote(s[i]) {
          if i < |pre| { assert s[i] == pre[i]; } else { assert s[i] == post[i - |pre|]; }
        }
      }
      TrimLeftOfQuotes(s);
    } else {
      assert pre + core + post == pre + (core + post);
      TrimLeftOfPadded(pre, core + post);
      TrimRightOfPadded(core, post);
    }
  }

  /** Every text is its trimmed core wrapped in two runs of quote characters. */
  lemma TrimSplit(s: string) returns (pre: string, post: string)
    ensures s == pre + TrimQuotes(s) + post
    ensures AllQuotes(pre) && AllQuotes(post)
    ensures TrimQuotes(s) == [] || (!IsQuote(TrimQuotes(s)[0]) && !IsQuote(TrimQuotes(s)[|TrimQuotes(s)| - 1]))
  {
    var left := TrimLeftQuotes(s);
    pre := TrimLeftSplit(s);
    post := TrimRightSplit(left);
    var t := TrimQuotes(s);
    if t != [] {
      assert t[0] == left[0];
    }
  }

  lemma UpperKeepsQuoteness(c: char)
    ensures IsQuote(UpperAscii(c)) <==> IsQuote(c)
  {
  }

  lemma UpperOfQuotes(s: string)
    requires AllQuotes(s)
    ensures ToUpper(s) == s
    ensures AllQuotes(ToUpper(s))
  {
    forall i | 0 <= i < |s| ensures ToUpper(s)[i] == s[i] {
      ToUpperAt(s, i);
    }
  }

  /** Upper-casing and trimming commute, so the order in the parser is immaterial. */
  lemma TrimQuotesToUpperCommute(s: string)
    ensures TrimQuotes(ToUpper(s)) == ToUpper(TrimQuotes(s))
  {
    var pre, post := TrimSplit(s);
    var t := TrimQuotes(s);
    ToUpperConcat(pre, t);
    ToUpperConcat(pre + t, post);
    UpperOfQuotes(pre);
    UpperOfQuotes(post);
    var up := ToUpper(t);
    if t != [] {
      ToUpperAt(t, 0);
      ToUpperAt(t, |t| - 1);
      UpperKeepsQuoteness(t[0]);
      UpperKeepsQuoteness(t[|t| - 1]);
    }
    TrimOfPadded(ToUpper(pre), up, ToUpper(post));
  }

  /** The error `UnmarshalYAML` reports, carrying the text as it was given. */
  datatype LevelError = UnknownLevel(text: string)

  /** The message of the error: a fixed prefix followed by the rejected text verbatim. */
  function ErrorMessage(e: LevelError): (m: string)
    ensures |m| > |e.text| && m[|m| - |e.text|..] == e.text
  {
    "logging: unknown log level: " + e.text
  }

  /** Distinct rejected texts give distinct messages, so the message identifies the input. */
  lemma ErrorMessageInjective(a: LevelError, b: LevelError)
    ensures ErrorMessage(a) == ErrorMessage(b) ==> a == b
  {
    if ErrorMessage(a) == ErrorMessage(b) {
      var m := ErrorMessage(a);
      assert |a.text| == |b.text|;
      assert a.text == m[|m| - |a.text|..];
      assert b.text == m[|m| - |b.text|..];
    }
  }

  /** The table key a configured text is looked up by. */
  function Canonical(text: string): string {
    ToUpper(TrimQuotes(text))
  }

  /**
   * Parses a configured level: strip quotes from both ends, upper-case, look the
   * name up; anything else is an unknown level, reported with the original text.
   */
  function ParseLevel(text: string): (r: Result<Level, LevelError>)
    ensures r.Success? <==> Canonical(text) in LevelValue
    ensures r.Success? ==> r.value in LevelName && String(r.value) == Canonical(text)
    ensures r.Failure? ==> r.error == UnknownLevel(text)
  {
    var v := ToUpper(TrimQuotes(text));
    if v in LevelValue then Success(LevelValue[v]) else Failure(UnknownLevel(text))
  }

  lemma NameIsUpperUnquoted(l: Level)
    requires l in LevelName
    ensures String(l) != [] && ToUpper(String(l)) == String(l)
    ensures !IsQuote(String(l)[0]) && !IsQuote(String(l)[|String(l)| - 1])
  {
    if l == DebugLevel {
      assert String(l) == "DEBUG";
      assert ToUpper("DEBUG") == "DEBUG";
    } else if l == InfoLevel {
      assert String(l) == "INFO";
      assert ToUpper("INFO") == "INFO";
    } else if l == WarnLevel {
      assert String(l) == "WARN";
      assert ToUpper("WARN") == "WARN";
    } else if l == ErrorLevel {
      assert String(l) == "ERROR";
      assert ToUpper("ERROR") == "ERROR";
    } else {
      assert String(l) == "OFF";
      assert ToUpper("OFF") == "OFF";
    }
  }

  /**
   * A level name in any letter case, wrapped in any runs of quote characters,
   * parses to that level.
   */
  lemma ParseAcceptsPaddedName(l: Level, pre: string, core: string, post: string)
    requires l in LevelName
    requires AllQuotes(pre) && AllQuotes(post)
    requires ToUpper(core) == String(l)
    ensures ParseLevel(pre + core + post) == Success(l)
  {
    NameIsUpperUnquoted(l);
    var name := String(l);
    assert core != [];
    ToUpperAt(core, 0);
    ToUpperAt(core, |core| - 1);
    assert UpperAscii(core[0]) == name[0];
    assert UpperAscii(core[|core| - 1]) == name[|name| - 1];
    TrimOfPadded(pre, core, post);
    NameTablesInverse();
  }

  /** Parsing depends on the letters only up to case. */
  lemma ParseIgnoresCase(s: string, t: string)
    requires ToUpper(s) == ToUpper(t)
    ensures ParseLevel(s).Success? <==> ParseLevel(t).Success?
    ensures ParseLevel(s).Success? ==> ParseLevel(s).value == ParseLevel(t).value
  {
    TrimQuotesToUpperCommute(s);
    TrimQuotesToUpperCommute(t);
    assert Canonical(s) == Canonical(t);
  }

  /** Text that is empty once its quotes are trimmed is rejected. */
  lemma ParseRejectsOnlyQuotes(s: string)
    requires AllQuotes(s)
    ensures ParseLevel(s) == Failure(UnknownLevel(s))
  {
    assert s == s + [] + [];
    TrimOfPadded(s, [], []);
  }

  lemma ParseExampleInfo()
    ensures ParseLevel("INFO") == Success(InfoLevel)
  {
    assert ToUpper("INFO") == "INFO";
    ParseAcceptsPaddedName(InfoLevel, "", "INFO", "");
    assert "" + "INFO" + "" == "INFO";
  }

  lemma ParseExampleDebug()
    ensures ParseLevel("debug") == Success(DebugLevel)
  {
    assert ToUpper("debug") == "DEBUG";
    ParseAcceptsPaddedName(DebugLevel, "", "debug", "");
    assert "" + "debug" + "" == "debug";
  }

  lemma ParseExampleWarn()
    ensures ParseLevel("Warn") == Success(WarnLevel)
  {
    assert ToUpper("Warn") == "WARN";
    ParseAcceptsPaddedName(WarnLevel, "", "Warn", "");
    assert "" + "Warn" + "" == "Warn";
  }

  lemma ParseExampleError()
    ensures ParseLevel("'ERROR'") == Success(ErrorLevel)
  {
    assert ToUpper("ERROR") == "ERROR";
    ParseAcceptsPaddedName(ErrorLevel, "'", "ERROR", "'");
    assert "'" + "ERROR" + "'" == "'ERROR'";
  }

  lemma ParseExampleOff()
    ensures ParseLevel("\"OFF\"") == Success(OffLevel)
  {
    assert ToUpper("OFF") == "OFF";
    ParseAcceptsPaddedName(OffLevel, "\"", "OFF", "\"");
    assert "\"" + "OFF" + "\"" == "\"OFF\"";
  }

  /** The accepting cases of the configuration tests. */
  lemma ParseAcceptExamples()
    ensures ParseLevel("INFO") == Success(InfoLevel)
    ensures ParseLevel("debug") == Success(DebugLevel)
    ensures ParseLevel("Warn") == Success(WarnLevel)
    ensures ParseLevel("'ERROR'") == Success(ErrorLevel)
    ensures ParseLevel("\"OFF\"") == Success(OffLevel)
  {
    ParseExampleInfo();
    ParseExampleDebug();
    ParseExampleWarn();
    ParseExampleError();
    ParseExampleOff();
  }

  /** A text without quotes at its ends is looked up upper-cased as it stands. */
  lemma ParseUnquoted(s: string)
    requires s != [] && !IsQuote(s[0]) && !IsQuote(s[|s| - 1])
    ensures Canonical(s) == ToUpper(s)
  {
    assert [] + s + [] == s;
    TrimOfPadded([], s, []);
  }

  lemma ParseRejectsZero()
    ensures ParseLevel("0").Failure?
  {
    ParseUnquoted("0");
    assert ToUpper("0") == "0";
  }

  lemma ParseRejectsVv()
    ensures ParseLevel("vv").Failure?
  {
    ParseUnquoted("vv");
    assert ToUpper("vv") == "VV";
  }

  lemma ParseRejectsAbc()
    ensures ParseLevel("abc").Failure?
  {
    ParseUnquoted("abc");
    assert ToUpper("abc") == "ABC";
  }

  /** The rejecting cases of the configuration tests, the quote-only texts among them. */
  lemma ParseRejectExamples()
    ensures ParseLevel("0").Failure? && ParseLevel("vv").Failure? && ParseLevel("abc").Failure?
    ensures ParseLevel("").Failure? && ParseLevel("''").Failure? && ParseLevel("\"\"").Failure?
  {
    ParseRejectsZero();
    ParseRejectsVv();
    ParseRejectsAbc();
    ParseRejectsOnlyQuotes("");
    ParseRejectsOnlyQuotes("''");
    ParseRejectsOnlyQuotes("\"\"");
  }

  /** Serialising a level for configuration: its name, and never an error. */
  function MarshalYAML(l: Level): (r: Result<string, LevelError>)
    ensures r.Success? && r.value in LevelValue && LevelValue[r.value] == (if l in LevelName then l else OffLevel)
    ensures ParseLevel(r.value) == Success(if l in LevelName then l else OffLevel)
  {
    var named := if l in LevelName then l else OffLevel;
    NameIsUpperUnquoted(named);
    ParseAcceptsPaddedName(named, [], String(l), []);
    assert [] + String(l) + [] == String(l);
    Success(String(l))
  }

  /** Round trip: a named level serialises to text that parses back to itself. */
  lemma MarshalRoundTrip(l: Level)
    requires l in LevelName
    ensures ParseLevel(MarshalYAML(l).value) == Success(l)
  {
  }

  /** A variable of type Level that configuration decoding writes through a pointer. */
  class LevelCell {
    var level: Level

    constructor (initial: Level)
      ensures level == initial
    {
      level := initial;
    }

    /** Decodes a scalar configuration value; the level is written only on success. */
    method UnmarshalYAML(text: string) returns (err: Option<LevelError>)
      modifies this
      ensures ParseLevel(text).Success? ==> err == None && level == ParseLevel(text).value
      ensures ParseLevel(text).Failure? ==> err == Some(UnknownLevel(text)) && level == old(level)
    {
      var parsed := ParseLevel(text);
      if parsed.Success? {
        level := parsed.value;
        err := None;
      } else {
        err := Some(parsed.error);
      }
    }
  }
}
