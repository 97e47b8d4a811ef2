/**
 * format_timedelta: a human-readable interval such as "2h 15m", "1d 3h" or "45s".
 */
module TimeUtils {
  import opened Text
  import opened Durations

  /** divmod by 86400, 3600 and 60 of a whole number of seconds (floor division, as in Python). */
  datatype Clock = Clock(days: int, hours: int, minutes: int, seconds: int)

  function ClockOf(total: int): (c: Clock)
    ensures 0 <= c.hours < 24 && 0 <= c.minutes < 60 && 0 <= c.seconds < 60
    ensures c.days * 86400 + c.hours * 3600 + c.minutes * 60 + c.seconds == total
  {
    var rest := total % 86400;
    Clock(total / 86400, rest / 3600, rest % 3600 / 60, rest % 60)
  }

  /** The components printed, in the order d, h, m, s; zeros omitted, seconds when nothing else is. */
  function Units(c: Clock): (parts: seq<string>)
    ensures parts != []
  {
    var d := if c.days != 0 then [IntToString(c.days) + "d"] else [];
    var h := if c.hours != 0 then [IntToString(c.hours) + "h"] else [];
    var m := if c.minutes != 0 then [IntToString(c.minutes) + "m"] else [];
    var front := d + h + m;
    front + (if c.seconds != 0 || front == [] then [IntToString(c.seconds) + "s"] else [])
  }

  /** The decomposition is the only one with those bounds. */
  lemma ClockIsUnique(total: int, c: Clock)
    requires 0 <= c.hours < 24 && 0 <= c.minutes < 60 && 0 <= c.seconds < 60
    requires c.days * 86400 + c.hours * 3600 + c.minutes * 60 + c.seconds == total
    ensures c == ClockOf(total)
  {
    var r := c.hours * 3600 + c.minutes * 60 + c.seconds;
    assert 0 <= r < 86400;
    assert total == c.days * 86400 + r;
    assert total / 86400 == c.days && total % 86400 == r;
    assert r / 3600 == c.hours && r % 3600 == c.minutes * 60 + c.seconds;
    assert (c.minutes * 60 + c.seconds) / 60 == c.minutes;
  }

  /** Examples from the docstring's shapes: a whole day and more, and whole hours. */
  lemma UnitsExamples()
    ensures Units(ClockOf(90061)) == ["1d", "1h", "1m", "1s"]
    ensures Units(ClockOf(3600)) == ["1h"]
    ensures Units(ClockOf(45)) == ["45s"]
  {
    assert ClockOf(90061) == Clock(1, 1, 1, 1);
    assert ClockOf(3600) == Clock(0, 1, 0, 0);
    assert ClockOf(45) == Clock(0, 0, 0, 45);
    assert IntToString(1) == "1" by { assert DigitChar(1) == '1'; }
    assert IntToString(45) == "45" by {
      assert DigitChar(4) == '4' && DigitChar(5) == '5';
      assert NatToString(45) == NatToString(4) + [DigitChar(5)];
    }
    var one := IntToString(1);
    assert one + "d" == "1d" && one + "h" == "1h" && one + "m" == "1m" && one + "s" == "1s";
    assert IntToString(45) + "s" == "45s";
    assert Units(Clock(1, 1, 1, 1)) == [one + "d"] + [one + "h"] + [one + "m"] + [one + "s"];
    assert Units(Clock(0, 1, 0, 0)) == [one + "h"];
    assert Units(Clock(0, 0, 0, 45)) == [IntToString(45) + "s"];
  }

  /** The divisions format_timedelta makes one after the other give ClockOf. */
  lemma ClockBySteps(total: int)
    ensures ClockOf(total) == Clock(total / 86400, total % 86400 / 3600, total % 86400 % 3600 / 60, total % 86400 % 3600 % 60)
  {
    var r := total % 86400;
    var q := r / 3600;
    assert r == (q * 60) * 60 + r % 3600;
  }

  /**
   * format_timedelta: "0s" for a zero delta; otherwise the whole seconds
   * split into units and joined by single spaces.
   */
  method FormatTimedelta(delta: TimeDelta) returns (s: string)
    ensures delta.micros == 0 ==> s == "0s"
    ensures delta.micros != 0 ==> s == Join(" ", Units(ClockOf(WholeSeconds(delta))))
  {
    if delta.micros == 0 {
      return "0s";
    }
    var seconds := WholeSeconds(delta);
    ClockBySteps(seconds);
    var days := seconds / 86400;
    seconds := seconds % 86400;
    var hours := seconds / 3600;
    seconds := seconds % 3600;
    var minutes := seconds / 60;
    seconds := seconds % 60;
    var c := Clock(days, hours, minutes, seconds);
    assert c == ClockOf(WholeSeconds(delta));
    var parts: seq<string> := [];
    if days != 0 {
      parts := parts + [IntToString(days) + "d"];
    }
    assert parts == (if c.days != 0 then [IntToString(c.days) + "d"] else []);
    ghost var d := parts;
    if hours != 0 {
      parts := parts + [IntToString(hours) + "h"];
    }
    assert parts == d + (if c.hours != 0 then [IntToString(c.hours) + "h"] else []);
    ghost var dh := parts;
    if minutes != 0 {
      parts := parts + [IntToString(minutes) + "m"];
    }
    assert parts == dh + (if c.minutes != 0 then [IntToString(c.minutes) + "m"] else []);
    if seconds != 0 || parts == [] {
      parts := parts + [IntToString(seconds) + "s"];
    }
    assert parts == Units(c);
    s := Join(" ", parts);
  }
}
