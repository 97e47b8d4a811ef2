/**
 * Display formatters: durations, short names, log lines and ratios.
 */
module Formatters {
  import opened Wrappers
  import opened Text

  // ---------------------------------------------------------------------
  // format_duration

  /** One printed component: a value and its unit letter. */
  datatype Unit = Unit(value: int, suffix: char)

  function Weight(suffix: char): int
  {
    if suffix == 'h' then 3600 else if suffix == 'm' then 60 else 1
  }

  function Total(us: seq<Unit>): int
  {
    if us == [] then 0 else Total(us[..|us| - 1]) + us[|us| - 1].value * Weight(us[|us| - 1].suffix)
  }

  /** The components format_duration prints: s; m s; or h m s. */
  function DurationUnits(seconds: int): (us: seq<Unit>)
    ensures 1 <= |us| <= 3 && us[|us| - 1].suffix == 's'
    ensures Total(us) == seconds
    ensures forall i :: 0 < i < |us| ==> 0 <= us[i].value < 60
    ensures seconds >= 60 ==> forall i :: 0 <= i < |us| ==> us[i].value >= 0
  {
    if seconds < 60 then
      [Unit(seconds, 's')]
    else if seconds < 3600 then
      var us := [Unit(seconds / 60, 'm'), Unit(seconds % 60, 's')];
      assert us[..1] == [Unit(seconds / 60, 'm')];
      assert us[..1][..0] == [];
      assert Weight('m') == 60 && Weight('s') == 1;
      assert Total(us[..1]) == (seconds / 60) * 60;
      assert Total(us) == Total(us[..1]) + (seconds % 60);
      us
    else
      var r := seconds % 3600;
      var us := [Unit(seconds / 3600, 'h'), Unit(r / 60, 'm'), Unit(r % 60, 's')];
      assert us[..2][..1] == [Unit(seconds / 3600, 'h')];
      assert us[..2] == [Unit(seconds / 3600, 'h'), Unit(r / 60, 'm')];
      assert us[..2][..1][..0] == [];
      assert Weight('h') == 3600 && Weight('m') == 60 && Weight('s') == 1;
      assert Total(us[..2][..1]) == (seconds / 3600) * 3600;
      assert Total(us[..2]) == (seconds / 3600) * 3600 + (r / 60) * 60;
      assert Total(us) == Total(us[..2]) + r % 60;
      us
  }

  function Show(us: seq<Unit>): (texts: seq<string>)
    ensures |texts| == |us|
    ensures forall i :: 0 <= i < |us| ==> texts[i] == IntToString(us[i].value) + [us[i].suffix]
  {
    if us == [] then [] else [IntToString(us[0].value) + [us[0].suffix]] + Show(us[1..])
  }

  /** format_duration: the components separated by single spaces. */
  function FormatDuration(seconds: int): string
  {
    Join(" ", Show(DurationUnits(seconds)))
  }

  /** The docstring's example. */
  lemma FormatDurationExample()
    ensures FormatDuration(3661) == "1h 1m 1s"
  {
    var us := [Unit(1, 'h'), Unit(1, 'm'), Unit(1, 's')];
    assert DurationUnits(3661) == us;
    ShowOfOnes(us);
    JoinOfOnes();
  }

  lemma ShowOfOnes(us: seq<Unit>)
    requires us == [Unit(1, 'h'), Unit(1, 'm'), Unit(1, 's')]
    ensures Show(us) == ["1h", "1m", "1s"]
  {
    var one := IntToString(1);
    assert one == "1" by { assert DigitChar(1) == '1'; }
    assert Show(us) == [one + "h", one + "m", one + "s"];
    assert one + "h" == "1h" && one + "m" == "1m" && one + "s" == "1s";
  }

  lemma JoinOfOnes()
    ensures Join(" ", ["1h", "1m", "1s"]) == "1h 1m 1s"
  {
    var t := ["1h", "1m", "1s"];
    assert t[1..] == ["1m", "1s"] && t[1..][1..] == ["1s"];
  }

  // ---------------------------------------------------------------------
  // short_name

  datatype FormatError = IndexError

  /**
   * short_name: unchanged when empty or without a space; a single word
   * once stripped comes back alone; otherwise the first word, a space, the
   * upper-cased initial of the second word and ".".
   * A name of spaces only passes the guard and then indexes an empty list.
   */
  function ShortName(fullName: string): (r: Result<string, FormatError>)
    ensures fullName == "" || ' ' !in fullName ==> r == Success(fullName)
    ensures r.Failure? <==> ' ' in fullName && Words(Strip(fullName)) == []
    ensures ' ' in fullName && |Words(Strip(fullName))| == 1 ==> r == Success(Words(Strip(fullName))[0])
    ensures r.Success? && ' ' in fullName && |Words(Strip(fullName))| >= 2 ==>
      var parts := Words(Strip(fullName));
      r.value == parts[0] + " " + [UpperChar(parts[1][0])] + "."
  {
    if fullName == "" || ' ' !in fullName then Success(fullName)
    else
      var parts := Words(Strip(fullName));
      if |parts| == 0 then Failure(IndexError)
      else if |parts| == 1 then Success(parts[0])
      else Success(parts[0] + " " + [UpperChar(parts[1][0])] + ".")
  }

  /** A single run of non-space characters is one word. */
  lemma WordsOfOneWord(w: string)
    requires w != "" && forall i :: 0 <= i < |w| ==> !IsSpace(w[i])
    ensures Words(w) == [w]
  {
    assert TrimStart(w) == w;
    assert WordLength(w) == |w|;
    assert w[..|w|] == w && w[|w|..] == "";
  }

  /** A leading word ends at the first space. */
  lemma WordLengthOfLeadingWord(first: string, rest: string)
    requires forall i :: 0 <= i < |first| ==> !IsSpace(first[i])
    requires rest != "" && IsSpace(rest[0])
    ensures WordLength(first + rest) == |first|
  {
    var s := first + rest;
    var n := WordLength(s);
    assert forall i :: 0 <= i < |first| ==> s[i] == first[i];
    assert s[|first|] == rest[0];
    if n < |first| {
      assert false;
    }
    if n > |first| {
      assert false;
    }
  }

  /** A word after one space is that word. */
  lemma WordsOfSpacedWord(w: string)
    requires w != "" && forall i :: 0 <= i < |w| ==> !IsSpace(w[i])
    ensures Words(" " + w) == [w]
  {
    assert TrimStart(" " + w) == w by {
      assert (" " + w)[1..] == w;
      assert TrimStart(w) == w;
    }
    WordsOfOneWord(w);
  }

  /** Text that starts and ends with a non-space is its own strip(). */
  lemma StripOfInnerText(s: string)
    requires s != "" && !IsSpace(s[0]) && !IsSpace(s[|s| - 1])
    ensures TrimStart(s) == s && Strip(s) == s
  {
    assert TrimStart(s) == s;
    assert TrimEnd(s) == s;
  }

  /** Words of a string with no leading space: its leading word, then the words of the rest. */
  lemma WordsUnfold(s: string)
    requires s != "" && !IsSpace(s[0])
    ensures Words(s) == [s[..WordLength(s)]] + Words(s[WordLength(s)..])
  {
    assert TrimStart(s) == s;
  }

  /** Two words separated by one space split into those two words. */
  lemma WordsOfTwoWords(first: string, second: string)
    requires first != "" && forall i :: 0 <= i < |first| ==> !IsSpace(first[i])
    requires second != "" && forall i :: 0 <= i < |second| ==> !IsSpace(second[i])
    ensures Words(first + " " + second) == [first, second]
  {
    var rest := " " + second;
    var s := first + rest;
    assert s == first + " " + second;
    var n := WordLength(s);
    assert n == |first| by {
      WordLengthOfLeadingWord(first, rest);
    }
    assert Words(s) == [s[..n]] + Words(s[n..]) by {
      assert s[0] == first[0];
      WordsUnfold(s);
    }
    assert s[..n] == first && s[n..] == rest;
    assert Words(rest) == [second] by {
      WordsOfSpacedWord(second);
    }
  }

  /** A first and a second word give the first word and the second's upper-cased initial ('Feruz Dilov' gives 'Feruz D.'). */
  lemma ShortNameOfTwoWords(first: string, second: string)
    requires first != "" && forall i :: 0 <= i < |first| ==> !IsSpace(first[i])
    requires second != "" && forall i :: 0 <= i < |second| ==> !IsSpace(second[i])
    ensures ShortName(first + " " + second) == Success(first + " " + [UpperChar(second[0])] + ".")
  {
    var s := first + " " + second;
    assert s[|first|] == ' ';
    assert s[0] == first[0] && s[|s| - 1] == second[|second| - 1];
    StripOfInnerText(s);
    WordsOfTwoWords(first, second);
  }

  /** One word padded with spaces comes back stripped. */
  lemma ShortNameOfPaddedWord(w: string)
    requires w != "" && forall i :: 0 <= i < |w| ==> !IsSpace(w[i])
    ensures ShortName(" " + w + " ") == Success(w)
  {
    var p := " " + w + " ";
    assert p[0] == ' ';
    assert TrimStart(p) == w + " " by {
      assert p[1..] == w + " ";
      assert TrimStart(w + " ") == w + " ";
    }
    assert TrimEnd(w + " ") == w by {
      assert (w + " ")[..|w|] == w;
      assert TrimEnd(w) == w;
    }
    WordsOfOneWord(w);
  }

  /** A name of spaces only raises IndexError. */
  lemma ShortNameOfSpaces()
    ensures ShortName("  ") == Failure(IndexError)
  {
    var q := "  ";
    assert TrimStart(q) == "" by { assert q[1..] == " "; assert q[1..][1..] == ""; }
    assert Strip(q) == "";
  }

  // ---------------------------------------------------------------------
  // format_event

  /** format_event: "[" + upper(event_type) + "] " + actor, then " → value" when a value is given. */
  function FormatEvent(eventType: string, actor: string, value: Option<string>): (r: string)
    ensures var head := "[" + Upper(eventType) + "] " + actor;
      |r| >= |head| && r[..|head|] == head
      && (value.None? ==> r == head)
      && (value.Some? ==> r[|head|..] == " → " + value.value)
  {
    "[" + Upper(eventType) + "] " + actor + (if value.Some? then " → " + value.value else "")
  }

  lemma FormatEventExample()
    ensures FormatEvent("payment", "User#5", Some("15 000 UZT")) == "[PAYMENT] User#5 → 15 000 UZT"
  {
    UpperOfPayment();
  }

  lemma UpperOfPayment()
    ensures Upper("payment") == "PAYMENT"
  {
  }

  // ---------------------------------------------------------------------
  // format_ratio

  /** The percentage format_ratio prints, before format_percent rounds and renders it. */
  datatype Percent = ZeroPercent | Percent(value: real)

  function FormatRatio(part: real, total: real): (r: Percent)
    ensures total == 0.0 <==> r == ZeroPercent
    ensures r.Percent? ==> r.value * total == part * 100.0
  {
    if total == 0.0 then ZeroPercent else Percent(part / total * 100.0)
  }

  lemma FormatRatioExample()
    ensures FormatRatio(25.0, 100.0) == Percent(25.0)
  {
  }
}
