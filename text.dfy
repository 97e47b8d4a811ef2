/**
 * The pieces of Python's str semantics the backend relies on: the
 * whitespace set of str.strip()/str.split()/int(), ":".join and
 * str.split(":"), str(int) and int(str), ASCII case mapping and the
 * code-point ordering used by sorted().
 */
module Text {
  import opened Wrappers

  /** Python's str.isspace() set: what strip(), split() and int() skip. */
  predicate IsSpace(c: char)
  {
    c == ' ' || ('\t' <= c <= '\r') || ('\U{1C}' <= c <= '\U{1F}')
    || c == '\U{85}' || c == '\U{A0}' || c == '\U{1680}'
    || ('\U{2000}' <= c <= '\U{200A}') || c == '\U{2028}' || c == '\U{2029}'
    || c == '\U{202F}' || c == '\U{205F}' || c == '\U{3000}'
  }

  predicate IsDigit(c: char)
  {
    '0' <= c <= '9'
  }

  function DigitChar(d: int): (c: char)
    requires 0 <= d < 10
    ensures IsDigit(c) && c as int - '0' as int == d
  {
    ('0' as int + d) as char
  }

  function DigitValue(c: char): int
    requires IsDigit(c)
  {
    c as int - '0' as int
  }

  // ---------------------------------------------------------------------
  // strip / split / join

  /** str.lstrip(): the longest suffix that does not start with whitespace. */
  function TrimStart(s: string): (r: string)
    ensures |r| <= |s| && r == s[|s| - |r|..]
    ensures r == [] || !IsSpace(r[0])
    ensures forall i :: 0 <= i < |s| - |r| ==> IsSpace(s[i])
  {
    if s != [] && IsSpace(s[0]) then TrimStart(s[1..]) else s
  }

  /** str.rstrip(): the longest prefix that does not end with whitespace. */
  function TrimEnd(s: string): (r: string)
    ensures |r| <= |s| && r == s[..|r|]
    ensures r == [] || !IsSpace(r[|r| - 1])
    ensures forall i :: |r| <= i < |s| ==> IsSpace(s[i])
  {
    if s != [] && IsSpace(s[|s| - 1]) then TrimEnd(s[..|s| - 1]) else s
  }

  /** str.strip() */
  function Strip(s: string): string
  {
    TrimEnd(TrimStart(s))
  }

  /** Text that starts and ends with a non-space is its own strip(), and one space on each side is stripped off. */
  lemma StripOfPadded(w: string)
    requires w != [] && !IsSpace(w[0]) && !IsSpace(w[|w| - 1])
    ensures Strip(w) == w
    ensures Strip(" " + w + " ") == w
  {
    assert TrimStart(w) == w;
    assert TrimEnd(w) == w;
    var p := " " + w + " ";
    assert p[1..] == w + " ";
    assert TrimStart(w + " ") == w + " " by {
      assert (w + " ")[0] == w[0];
    }
    assert TrimStart(p) == w + " ";
    assert (w + " ")[..|w|] == w;
    assert TrimEnd(w + " ") == w;
  }

  /** Length of the leading run of non-whitespace characters. */
  function WordLength(s: string): (n: nat)
    ensures n <= |s|
    ensures forall i :: 0 <= i < n ==> !IsSpace(s[i])
    ensures n == |s| || IsSpace(s[n])
  {
    if s == [] || IsSpace(s[0]) then 0 else 1 + WordLength(s[1..])
  }

  /** str.split() with no separator: the maximal runs of non-whitespace. */
  function Words(s: string): (r: seq<string>)
    ensures forall j :: 0 <= j < |r| ==> r[j] != []
    decreases |s|
  {
    if s == [] then []
    else if IsSpace(s[0]) then Words(s[1..])
    else
      var n := WordLength(s);
      [s[..n]] + Words(s[n..])
  }

  /** No word holds whitespace. */
  lemma {:induction false} WordsHaveNoSpace(s: string)
    ensures forall j, i :: 0 <= j < |Words(s)| && 0 <= i < |Words(s)[j]| ==> !IsSpace(Words(s)[j][i])
    decreases |s|
  {
    if s != [] {
      if IsSpace(s[0]) {
        WordsHaveNoSpace(s[1..]);
      } else {
        var n := WordLength(s);
        WordsHaveNoSpace(s[n..]);
        var ws := Words(s[n..]);
        assert Words(s) == [s[..n]] + ws;
        forall j, i | 0 <= j < |Words(s)| && 0 <= i < |Words(s)[j]|
          ensures !IsSpace(Words(s)[j][i])
        {
          if j > 0 {
            assert Words(s)[j] == ws[j - 1];
          }
        }
      }
    }
  }

  function Concat(xs: seq<string>): string
  {
    if xs == [] then [] else xs[0] + Concat(xs[1..])
  }

  function RemoveSpaces(s: string): (r: string)
    ensures forall i :: 0 <= i < |r| ==> !IsSpace(r[i])
  {
    if s == [] then []
    else if IsSpace(s[0]) then RemoveSpaces(s[1..])
    else [s[0]] + RemoveSpaces(s[1..])
  }

  /** RemoveSpaces keeps a leading word whole and continues after it. */
  lemma {:induction false} RemoveSpacesOfLeadingWord(t: string)
    ensures RemoveSpaces(t) == t[..WordLength(t)] + RemoveSpaces(t[WordLength(t)..])
  {
    if t != [] && !IsSpace(t[0]) {
      var n := WordLength(t);
      RemoveSpacesOfLeadingWord(t[1..]);
      assert t[1..][..n - 1] == t[1..n];
      assert t[1..][n - 1..] == t[n..];
      assert t[..n] == [t[0]] + t[1..n];
    } else {
      assert t[..0] == [] && t[0..] == t;
    }
  }

  /** str.split() loses exactly the whitespace: its words concatenate to s without it. */
  lemma {:induction false} WordsKeepAllText(s: string)
    ensures Concat(Words(s)) == RemoveSpaces(s)
    decreases |s|
  {
    if s != [] {
      if IsSpace(s[0]) {
        WordsKeepAllText(s[1..]);
      } else {
        var n := WordLength(s);
        RemoveSpacesOfLeadingWord(s);
        WordsKeepAllText(s[n..]);
        var ws := [s[..n]] + Words(s[n..]);
        assert ws[1..] == Words(s[n..]);
      }
    }
  }

  /** sep.join(parts) */
  function Join(sep: string, parts: seq<string>): string
  {
    if |parts| == 0 then ""
    else if |parts| == 1 then parts[0]
    else parts[0] + sep + Join(sep, parts[1..])
  }

  /** sep.join(parts) ends with the last part. */
  lemma {:induction false} JoinEndsWithLast(sep: string, parts: seq<string>)
    requires parts != []
    ensures |Join(sep, parts)| >= |parts[|parts| - 1]|
    ensures Join(sep, parts)[|Join(sep, parts)| - |parts[|parts| - 1]|..] == parts[|parts| - 1]
  {
    if |parts| > 1 {
      JoinEndsWithLast(sep, parts[1..]);
      var rest := Join(sep, parts[1..]);
      var head := parts[0] + sep;
      assert Join(sep, parts) == head + rest;
      assert (head + rest)[|head + rest| - |parts[|parts| - 1]|..] == rest[|rest| - |parts[|parts| - 1]|..];
    }
  }

  /** Index of the first occurrence of c in s. */
  function IndexOf(s: string, c: char): (i: nat)
    requires c in s
    ensures i < |s| && s[i] == c && c !in s[..i]
  {
    if s[0] == c then 0
    else
      var j := IndexOf(s[1..], c);
      assert s[..j + 1] == [s[0]] + s[1..][..j];
      j + 1
  }

  /** s.split(c, 1) when c occurs in s: the text before the first c and the text after it. */
  function SplitOnce(s: string, c: char): (p: (string, string))
    requires c in s
    ensures s == p.0 + [c] + p.1 && c !in p.0
  {
    var i := IndexOf(s, c);
    assert s == s[..i] + [c] + s[i + 1..];
    (s[..i], s[i + 1..])
  }

  /** str.split(c) for a one-character separator. */
  function Split(s: string, c: char): (parts: seq<string>)
    ensures |parts| >= 1
    ensures forall p :: p in parts ==> c !in p
    decreases |s|
  {
    if c in s then
      var i := IndexOf(s, c);
      [s[..i]] + Split(s[i + 1..], c)
    else [s]
  }

  /** Splitting a + [c] + rest, when a has no c, gives a and then the parts of rest. */
  lemma SplitAfter(a: string, c: char, rest: string)
    requires c !in a
    ensures Split(a + [c] + rest, c) == [a] + Split(rest, c)
  {
    var s := a + [c] + rest;
    assert s[|a|] == c;
    assert s[..|a|] == a;
    assert s[|a| + 1..] == rest;
    var i := IndexOf(s, c);
    assert forall k :: 0 <= k < |a| ==> s[k] == a[k];
    assert i == |a|;
  }

  /** Splitting undoes joining when no part contains the separator. */
  lemma {:induction false} SplitOfJoin(parts: seq<string>, c: char)
    requires |parts| >= 1
    requires forall p :: p in parts ==> c !in p
    ensures Split(Join([c], parts), c) == parts
    decreases |parts|
  {
    if |parts| > 1 {
      var rest := Join([c], parts[1..]);
      assert c !in parts[0];
      assert Join([c], parts) == parts[0] + [c] + rest;
      SplitAfter(parts[0], c, rest);
      assert forall p :: p in parts[1..] ==> p in parts;
      SplitOfJoin(parts[1..], c);
      assert parts == [parts[0]] + parts[1..];
    } else {
      assert Join([c], parts) == parts[0];
      assert c !in parts[0];
    }
  }

  /** Joining undoes splitting. */
  lemma {:induction false} JoinOfSplit(s: string, c: char)
    ensures Join([c], Split(s, c)) == s
    decreases |s|
  {
    if c in s {
      var i := IndexOf(s, c);
      JoinOfSplit(s[i + 1..], c);
      var parts := Split(s, c);
      assert parts[1..] == Split(s[i + 1..], c);
      assert s == s[..i] + [c] + s[i + 1..];
    }
  }

  // ---------------------------------------------------------------------
  // str(int) and int(str)

  /** str(n) for n >= 0: decimal digits, no leading zeros. */
  function NatToString(n: nat): (s: string)
    ensures |s| >= 1 && forall i :: 0 <= i < |s| ==> IsDigit(s[i])
    ensures |s| > 1 ==> s[0] != '0'
  {
    if n < 10 then [DigitChar(n)]
    else NatToString(n / 10) + [DigitChar(n % 10)]
  }

  /** str(i) for an int. */
  function IntToString(i: int): (s: string)
    ensures |s| >= 1 && IsDigit(s[|s| - 1])
    ensures s[0] == '-' || IsDigit(s[0])
    ensures forall k :: 0 <= k < |s| ==> IsDigit(s[k]) || (k == 0 && s[k] == '-')
  {
    if i < 0 then "-" + NatToString(-i) else NatToString(i)
  }

  /** The value of a string of decimal digits. */
  function DigitsValue(s: string): nat
    requires forall i :: 0 <= i < |s| ==> IsDigit(s[i])
  {
    if s == [] then 0 else 10 * DigitsValue(s[..|s| - 1]) + DigitValue(s[|s| - 1])
  }

  /**
   * The body int() accepts after the sign: digits, with single underscores
   * allowed between digits.
   */
  predicate DigitGroups(b: string)
  {
    |b| > 0 && IsDigit(b[0]) && IsDigit(b[|b| - 1])
    && (forall i :: 0 <= i < |b| ==> IsDigit(b[i]) || b[i] == '_')
    && (forall i :: 0 <= i < |b| - 1 ==> !(b[i] == '_' && b[i + 1] == '_'))
  }

  function DropUnderscores(b: string): (r: string)
    requires forall i :: 0 <= i < |b| ==> IsDigit(b[i]) || b[i] == '_'
    ensures forall i :: 0 <= i < |r| ==> IsDigit(r[i])
  {
    if b == [] then []
    else if b[0] == '_' then DropUnderscores(b[1..])
    else [b[0]] + DropUnderscores(b[1..])
  }

  function ParseUnsigned(b: string): Option<nat>
  {
    if DigitGroups(b) then Some(DigitsValue(DropUnderscores(b))) else None
  }

  /**
   * int(s) on a str: surrounding whitespace is ignored, one optional sign,
   * then decimal digit groups; anything else raises ValueError (None).
   */
  function ParseInt(s: string): Option<int>
  {
    var t := Strip(s);
    if |t| > 0 && (t[0] == '-' || t[0] == '+') then
      match ParseUnsigned(t[1..])
      case Some(n) => Some(if t[0] == '-' then -(n as int) else n as int)
      case None => None
    else
      match ParseUnsigned(t)
      case Some(n) => Some(n)
      case None => None
  }

  /** int() refuses the empty string and text that starts with neither a sign nor a digit. */
  lemma ParseIntRefuses(s: string)
    requires s != [] ==> !IsSpace(s[0]) && !IsSpace(s[|s| - 1]) && !IsDigit(s[0]) && s[0] != '-' && s[0] != '+'
    ensures ParseInt(s) == None
  {
    if s == [] {
      assert Strip(s) == [];
    } else {
      StripOfPadded(s);
    }
  }

  lemma DropUnderscoresOfDigits(s: string)
    requires forall i :: 0 <= i < |s| ==> IsDigit(s[i])
    ensures DropUnderscores(s) == s
  {
    if s != [] {
      DropUnderscoresOfDigits(s[1..]);
      assert s == [s[0]] + s[1..];
    }
  }

  lemma {:induction false} DigitsValueOfNatToString(n: nat)
    ensures DigitsValue(NatToString(n)) == n
  {
    var s := NatToString(n);
    if n >= 10 {
      DigitsValueOfNatToString(n / 10);
      assert s[..|s| - 1] == NatToString(n / 10);
    }
  }

  lemma StripOfDigitText(s: string)
    requires |s| >= 1 && !IsSpace(s[0]) && !IsSpace(s[|s| - 1])
    ensures Strip(s) == s
  {
  }

  /** int(str(i)) == i. */
  lemma {:induction false} ParseIntOfIntToString(i: int)
    ensures ParseInt(IntToString(i)) == Some(i)
  {
    var s := IntToString(i);
    StripOfDigitText(s);
    var n: nat := if i < 0 then -i else i;
    var body := NatToString(n);
    assert DigitGroups(body);
    DropUnderscoresOfDigits(body);
    DigitsValueOfNatToString(n);
    if i < 0 {
      assert s[1..] == body;
    } else {
      assert s == body;
    }
  }

  // ---------------------------------------------------------------------
  // ASCII case mapping

  function UpperChar(c: char): char
  {
    if 'a' <= c <= 'z' then (c as int - 32) as char else c
  }

  function LowerChar(c: char): char
  {
    if 'A' <= c <= 'Z' then (c as int + 32) as char else c
  }

  /** str.upper() restricted to ASCII letters. */
  function Upper(s: string): string
  {
    seq(|s|, i requires 0 <= i < |s| => UpperChar(s[i]))
  }

  /** str.lower() restricted to ASCII letters. */
  function Lower(s: string): string
  {
    seq(|s|, i requires 0 <= i < |s| => LowerChar(s[i]))
  }
}
