/**
 * The field validators: length guards, and the anchored regular
 * expressions of re.match for usernames, passwords and Uzbek phone
 * numbers, spelled out as small matchers; numeric and identifier checks.
 *
 * Python's "$" at the end of a pattern matches at the very end of the text
 * or just before one final "\n", so each matcher ends with EndAnchor and
 * each characterisation speaks of Anchored(s), the text less that newline.
 */
module Validators {
  import opened Text
  import opened PyValues

  // ---------------------------------------------------------------------
  // The regular-expression fragments

  /** Where "$" matches: the end, or just before a final newline. */
  predicate EndAnchor(s: string, i: nat)
  {
    i == |s| || (i == |s| - 1 && s[i] == '\n')
  }

  /** The text that "$" leaves for the pattern: one trailing newline dropped. */
  function Anchored(s: string): (b: string)
    ensures |b| <= |s| && b == s[..|b|]
    ensures |s| - 1 <= |b|
  {
    if s != "" && s[|s| - 1] == '\n' then s[..|s| - 1] else s
  }

  /** The k characters from i all belong to the class. */
  predicate RunOf(s: string, i: nat, k: nat, cls: char -> bool)
  {
    i + k <= |s| && forall j :: i <= j < i + k ==> cls(s[j])
  }

  /** cls{lo,hi}$ from position i, greedy with backtracking as re.match does it. */
  function MatchRepeat(s: string, i: nat, cls: char -> bool, lo: nat, hi: nat): bool
    requires i <= |s|
    decreases |s| - i
  {
    (hi > 0 && i < |s| && cls(s[i]) && MatchRepeat(s, i + 1, cls, if lo > 0 then lo - 1 else 0, hi - 1))
    || (lo == 0 && EndAnchor(s, i))
  }

  /** The matcher succeeds exactly when some admissible run ends where "$" matches. */
  lemma {:induction false} MatchRepeatMeans(s: string, i: nat, cls: char -> bool, lo: nat, hi: nat)
    requires i <= |s|
    ensures MatchRepeat(s, i, cls, lo, hi) <==>
            exists k :: lo <= k <= hi && RunOf(s, i, k, cls) && EndAnchor(s, i + k)
    decreases |s| - i
  {
    var lo' := if lo > 0 then lo - 1 else 0;
    if hi > 0 && i < |s| && cls(s[i]) {
      MatchRepeatMeans(s, i + 1, cls, lo', hi - 1);
    }
    if MatchRepeat(s, i, cls, lo, hi) {
      if hi > 0 && i < |s| && cls(s[i]) && MatchRepeat(s, i + 1, cls, lo', hi - 1) {
        var k' :| lo' <= k' <= hi - 1 && RunOf(s, i + 1, k', cls) && EndAnchor(s, i + 1 + k');
        assert RunOf(s, i, k' + 1, cls);
      } else {
        assert RunOf(s, i, 0, cls);
      }
    }
    if exists k :: lo <= k <= hi && RunOf(s, i, k, cls) && EndAnchor(s, i + k) {
      var k :| lo <= k <= hi && RunOf(s, i, k, cls) && EndAnchor(s, i + k);
      if k > 0 {
        assert RunOf(s, i + 1, k - 1, cls);
      }
    }
  }

  /**
   * For a class without "\n", cls{lo,hi}$ from i matches exactly when the
   * anchored text, from i to its end, is a run of lo to hi class characters.
   */
  lemma MatchRepeatToEnd(s: string, i: nat, cls: char -> bool, lo: nat, hi: nat)
    requires i <= |Anchored(s)| && !cls('\n')
    ensures MatchRepeat(s, i, cls, lo, hi) <==>
            lo <= |Anchored(s)| - i <= hi && RunOf(Anchored(s), i, |Anchored(s)| - i, cls)
  {
    var b := Anchored(s);
    var n := |b| - i;
    MatchRepeatMeans(s, i, cls, lo, hi);
    if MatchRepeat(s, i, cls, lo, hi) {
      var k :| lo <= k <= hi && RunOf(s, i, k, cls) && EndAnchor(s, i + k);
      if i + k == |s| && k > 0 {
        assert cls(s[|s| - 1]);
      }
      assert i + k == |b|;
      assert RunOf(b, i, n, cls);
    }
    if lo <= n <= hi && RunOf(b, i, n, cls) {
      assert RunOf(s, i, n, cls);
      assert EndAnchor(s, i + n);
    }
  }

  /** (?=.*cls): some character of the first line, from i on, is in the class. */
  function Seek(s: string, i: nat, cls: char -> bool): bool
    requires i <= |s|
    decreases |s| - i
  {
    i < |s| && (cls(s[i]) || (s[i] != '\n' && Seek(s, i + 1, cls)))
  }

  /** Some character of s is in the class. */
  predicate Has(s: string, cls: char -> bool)
  {
    exists j :: 0 <= j < |s| && cls(s[j])
  }

  /** On a text that is one line, the lookahead finds any class character. */
  lemma {:induction false} SeekInLine(s: string, i: nat, cls: char -> bool)
    requires i <= |s| && !cls('\n')
    requires forall k :: i <= k < |s| - 1 ==> s[k] != '\n'
    ensures Seek(s, i, cls) <==> exists j :: i <= j < |s| && cls(s[j])
    decreases |s| - i
  {
    if i < |s| {
      SeekInLine(s, i + 1, cls);
      if !cls(s[i]) && i == |s| - 1 {
        assert !Seek(s, i + 1, cls);
      }
    }
  }

  // ---------------------------------------------------------------------
  // validate_email

  /**
   * validate_email: empty text and text over 255 characters are refused
   * before the pattern is consulted; the e-mail pattern itself is a
   * parameter.
   */
  function ValidateEmail(email: string, matches: string -> bool): bool
  {
    if email == "" || |email| > 255 then false else matches(email)
  }

  /** The length guard: whatever the pattern says, too long or empty is refused, and within the limit the pattern decides. */
  lemma ValidateEmailGuard(email: string, matches: string -> bool)
    ensures email == "" || |email| > 255 ==> !ValidateEmail(email, matches)
    ensures 0 < |email| <= 255 ==> (ValidateEmail(email, matches) <==> matches(email))
  {
  }

  // ---------------------------------------------------------------------
  // validate_url

  /** [A-Za-z0-9.-], the host part. */
  predicate IsHostChar(c: char)
  {
    IsAsciiLetter(c) || IsDigit(c) || c == '.' || c == '-'
  }

  /**
   * \w of a str pattern: ASCII letters, digits and "_", and beyond ASCII
   * the characters Unicode calls letters or digits, given as nonAscii.
   */
  predicate IsWordChar(c: char, nonAscii: char -> bool)
  {
    IsAsciiLetter(c) || IsDigit(c) || c == '_' || (c >= '\U{80}' && nonAscii(c))
  }

  /** [\/\w .-], the path part; the final \/? adds no character this class lacks. */
  predicate IsPathChar(c: char, nonAscii: char -> bool)
  {
    c == '/' || c == ' ' || c == '.' || c == '-' || IsWordChar(c, nonAscii)
  }

  /**
   * ([A-Za-z0-9.-]+)\.([A-Za-z]{2,})([\/\w .-]*)*\/? spanning all of b,
   * read with the dot before the top-level domain at i and the path from j.
   */
  predicate SiteAt(b: string, i: nat, j: nat, nonAscii: char -> bool)
  {
    0 < i && i + 3 <= j <= |b| && b[i] == '.'
    && RunOf(b, 0, i, IsHostChar) && RunOf(b, i + 1, j - i - 1, IsAsciiLetter)
    && RunOf(b, j, |b| - j, c => IsPathChar(c, nonAscii))
  }

  /** b is host, dot, top-level domain and path under some reading. */
  ghost predicate IsSite(b: string, nonAscii: char -> bool)
  {
    exists i: nat, j: nat :: SiteAt(b, i, j, nonAscii)
  }

  /**
   * validate_url: bool(re.match(...)) of the URL pattern. The scheme
   * "http://" or "https://" is optional; no class holds "\n", so "$"
   * leaves the pattern exactly the anchored text.
   */
  ghost predicate ValidateUrl(url: string, nonAscii: char -> bool)
  {
    var b := Anchored(url);
    IsSite(b, nonAscii)
    || (|b| >= 7 && b[..7] == "http://" && IsSite(b[7..], nonAscii))
    || (|b| >= 8 && b[..8] == "https://" && IsSite(b[8..], nonAscii))
  }

  /** No class of the site pattern holds ":". */
  lemma SiteHasNoColon(b: string, nonAscii: char -> bool)
    requires IsSite(b, nonAscii)
    ensures forall k :: 0 <= k < |b| ==> b[k] != ':'
  {
    var i: nat, j: nat :| SiteAt(b, i, j, nonAscii);
    forall k | 0 <= k < |b|
      ensures b[k] != ':'
    {
      if k < i {
        assert IsHostChar(b[k]);
      } else if k == i {
      } else if k < j {
        assert IsAsciiLetter(b[k]);
      } else {
        assert IsPathChar(b[k], nonAscii);
      }
    }
  }

  /**
   * Only the scheme may hold a colon: an accepted URL names no port and no
   * scheme other than http or https.
   */
  lemma ValidateUrlColons(url: string, nonAscii: char -> bool)
    ensures ValidateUrl(url, nonAscii) ==>
      forall k :: 0 <= k < |url| && url[k] == ':' ==>
        (k == 4 && url[..7] == "http://") || (k == 5 && url[..8] == "https://")
  {
    var b := Anchored(url);
    if ValidateUrl(url, nonAscii) {
      forall k | 0 <= k < |url| && url[k] == ':'
        ensures (k == 4 && url[..7] == "http://") || (k == 5 && url[..8] == "https://")
      {
        assert k < |b| && b[k] == ':';
        if IsSite(b, nonAscii) {
          SiteHasNoColon(b, nonAscii);
        } else if |b| >= 7 && b[..7] == "http://" && IsSite(b[7..], nonAscii) {
          SiteHasNoColon(b[7..], nonAscii);
          assert url[..7] == b[..7];
          assert b[k] == "http://"[k];
        } else {
          SiteHasNoColon(b[8..], nonAscii);
          assert url[..8] == b[..8];
          assert b[k] == "https://"[k];
        }
      }
    }
  }

  /** A site holds a dot followed by two letters, past its first character. */
  lemma SiteHasTld(b: string, nonAscii: char -> bool)
    requires IsSite(b, nonAscii)
    ensures exists k :: 0 < k && k + 2 < |b| && b[k] == '.' && IsAsciiLetter(b[k + 1]) && IsAsciiLetter(b[k + 2])
  {
    var i: nat, j: nat :| SiteAt(b, i, j, nonAscii);
    assert IsAsciiLetter(b[i + 1]) && IsAsciiLetter(b[i + 2]);
  }

  /** An accepted URL has a dot followed by two letters: a bare host name such as "localhost" is refused. */
  lemma ValidateUrlNeedsTld(url: string, nonAscii: char -> bool)
    ensures ValidateUrl(url, nonAscii) ==>
      exists k :: 0 < k && k + 2 < |url| && url[k] == '.' && IsAsciiLetter(url[k + 1]) && IsAsciiLetter(url[k + 2])
  {
    var b := Anchored(url);
    if ValidateUrl(url, nonAscii) {
      var p := if IsSite(b, nonAscii) then 0 else if |b| >= 7 && b[..7] == "http://" && IsSite(b[7..], nonAscii) then 7 else 8;
      SiteHasTld(b[p..], nonAscii);
      var k :| 0 < k && k + 2 < |b[p..]| && b[p..][k] == '.' && IsAsciiLetter(b[p..][k + 1]) && IsAsciiLetter(b[p..][k + 2]);
      assert url[p + k] == '.' && IsAsciiLetter(url[p + k + 1]) && IsAsciiLetter(url[p + k + 2]);
    }
  }

  /** A plain https address, and a path with a space and no scheme, are accepted. */
  lemma ValidateUrlAccepts(nonAscii: char -> bool)
    ensures ValidateUrl("https://example.com", nonAscii)
    ensures ValidateUrl("example.com/a b", nonAscii)
  {
    var u := "https://example.com";
    assert Anchored(u) == u && u[..8] == "https://";
    assert SiteAt(u[8..], 7, 11, nonAscii);
    var v := "example.com/a b";
    assert Anchored(v) == v;
    assert SiteAt(v, 7, 11, nonAscii);
  }

  /** A port, an ftp scheme and a bare host name are refused. */
  lemma ValidateUrlRefuses(nonAscii: char -> bool)
    ensures !ValidateUrl("http://localhost:8000", nonAscii)
    ensures !ValidateUrl("ftp://example.com", nonAscii)
    ensures !ValidateUrl("localhost", nonAscii)
  {
    var p := "http://localhost:8000";
    ValidateUrlColons(p, nonAscii);
    assert p[16] == ':';
    var f := "ftp://example.com";
    ValidateUrlColons(f, nonAscii);
    assert f[3] == ':';
    ValidateUrlNeedsTld("localhost", nonAscii);
  }

  // ---------------------------------------------------------------------
  // validate_username

  predicate IsAsciiLetter(c: char)
  {
    'A' <= c <= 'Z' || 'a' <= c <= 'z'
  }

  /** [A-Za-z0-9_.-] */
  predicate IsUsernameChar(c: char)
  {
    IsAsciiLetter(c) || IsDigit(c) || c == '_' || c == '.' || c == '-'
  }

  /**
   * validate_username: ^[A-Za-z0-9_.-]{3,30}$ under re.match. It holds
   * exactly when the text, less one trailing newline, has 3 to 30
   * characters, all letters, digits, "_", "." or "-".
   */
  function ValidateUsername(username: string): (ok: bool)
    ensures ok <==> var b := Anchored(username);
      3 <= |b| <= 30 && forall j :: 0 <= j < |b| ==> IsUsernameChar(b[j])
  {
    MatchRepeatToEnd(username, 0, IsUsernameChar, 3, 30);
    if username == "" then false else MatchRepeat(username, 0, IsUsernameChar, 3, 30)
  }

  /** What the docstring describes: 3 to 30 allowed characters and nothing else. */
  function ValidateUsernameStrict(username: string): (ok: bool)
    ensures ok ==> forall j :: 0 <= j < |username| ==> username[j] != '\n'
    ensures ok <==> ValidateUsername(username) && (username == "" || username[|username| - 1] != '\n')
  {
    3 <= |username| <= 30 && forall j :: 0 <= j < |username| ==> IsUsernameChar(username[j])
  }

  /** As written, a newline after a valid name is let through; the strict version refuses it. */
  lemma UsernameTrailingNewline()
    ensures ValidateUsername("abc\n")
    ensures !ValidateUsernameStrict("abc\n")
  {
    assert Anchored("abc\n") == "abc";
    assert !IsUsernameChar("abc\n"[3]);
  }

  // ---------------------------------------------------------------------
  // validate_password

  predicate IsAsciiUpper(c: char)
  {
    'A' <= c <= 'Z'
  }

  predicate IsAsciiLower(c: char)
  {
    'a' <= c <= 'z'
  }

  /** [!@#$%^&*()_+\-=\[\]{};':",.<>\/?] */
  predicate IsSpecial(c: char)
  {
    c in "!@#$%^&*()_+-=[]{};':\",.<>/?"
  }

  /** . in a pattern: anything but a newline. */
  predicate NotNewline(c: char)
  {
    c != '\n'
  }

  /**
   * validate_password: four lookaheads (an upper-case letter, a lower-case
   * letter, a digit, a listed special character), then 8 to 64 characters
   * other than newline up to "$".
   */
  function ValidatePassword(password: string): (ok: bool)
    ensures ok <==> var b := Anchored(password);
      8 <= |b| <= 64 && (forall j :: 0 <= j < |b| ==> b[j] != '\n')
      && Has(b, IsAsciiUpper) && Has(b, IsAsciiLower) && Has(b, IsDigit) && Has(b, IsSpecial)
  {
    PasswordMeans(password);
    if password == "" then false
    else
      Seek(password, 0, IsAsciiUpper) && Seek(password, 0, IsAsciiLower)
      && Seek(password, 0, IsDigit) && Seek(password, 0, IsSpecial)
      && MatchRepeat(password, 0, NotNewline, 8, 64)
  }

  /** The password pattern's matchers in terms of the anchored text. */
  lemma PasswordMeans(s: string)
    ensures var b := Anchored(s);
      MatchRepeat(s, 0, NotNewline, 8, 64) <==> 8 <= |b| <= 64 && forall j :: 0 <= j < |b| ==> b[j] != '\n'
    ensures var b := Anchored(s);
      (forall j :: 0 <= j < |b| ==> b[j] != '\n') ==>
        (Seek(s, 0, IsAsciiUpper) <==> Has(b, IsAsciiUpper))
        && (Seek(s, 0, IsAsciiLower) <==> Has(b, IsAsciiLower))
        && (Seek(s, 0, IsDigit) <==> Has(b, IsDigit))
        && (Seek(s, 0, IsSpecial) <==> Has(b, IsSpecial))
  {
    MatchRepeatToEnd(s, 0, NotNewline, 8, 64);
    PasswordClassesMean(s);
  }

  lemma PasswordClassesMean(s: string)
    ensures var b := Anchored(s);
      (forall j :: 0 <= j < |b| ==> b[j] != '\n') ==>
        (Seek(s, 0, IsAsciiUpper) <==> Has(b, IsAsciiUpper))
        && (Seek(s, 0, IsAsciiLower) <==> Has(b, IsAsciiLower))
        && (Seek(s, 0, IsDigit) <==> Has(b, IsDigit))
        && (Seek(s, 0, IsSpecial) <==> Has(b, IsSpecial))
  {
    var b := Anchored(s);
    if forall j :: 0 <= j < |b| ==> b[j] != '\n' {
      SeekAnchored(s, IsAsciiUpper);
      SeekAnchored(s, IsAsciiLower);
      SeekAnchored(s, IsDigit);
      SeekAnchored(s, IsSpecial);
    }
  }

  lemma SeekAnchored(s: string, cls: char -> bool)
    requires !cls('\n')
    requires forall j :: 0 <= j < |Anchored(s)| ==> Anchored(s)[j] != '\n'
    ensures Seek(s, 0, cls) <==> Has(Anchored(s), cls)
  {
    var b := Anchored(s);
    assert forall k :: 0 <= k < |s| - 1 ==> s[k] == b[k];
    SeekInLine(s, 0, cls);
    if Seek(s, 0, cls) {
      var j :| 0 <= j < |s| && cls(s[j]);
      assert j < |b|;
      assert b[j] == s[j];
    }
    if Has(b, cls) {
      var j :| 0 <= j < |b| && cls(b[j]);
      assert s[j] == b[j];
    }
  }

  /** A password with an upper-case letter, a lower-case letter, a digit and a special character passes. */
  lemma PasswordAccepted()
    ensures ValidatePassword("Passw0rd!")
  {
    PasswordOfNine("Passw0rd!");
  }

  lemma PasswordOfNine(p: string)
    requires p == "Passw0rd!"
    ensures ValidatePassword(p)
  {
    assert Anchored(p) == p;
    assert forall j :: 0 <= j < |p| ==> p[j] != '\n';
    assert IsAsciiUpper(p[0]) && IsAsciiLower(p[1]) && IsDigit(p[5]) && IsSpecial(p[8]);
  }

  /** Without a digit it does not. */
  lemma PasswordWithoutDigit()
    ensures !ValidatePassword("Password!")
  {
    var q := "Password!";
    assert Anchored(q) == q;
    assert !Has(q, IsDigit) by {
      assert forall j :: 0 <= j < |q| ==> !IsDigit(q[j]);
    }
  }

  // ---------------------------------------------------------------------
  // validate_amount

  /** The argument of validate_amount: None, something float() converts, or something it refuses. */
  datatype AmountArg = NoAmount | Number(x: real) | NotConvertible

  /** validate_amount: 0 < float(amount) <= 1 000 000 000; None and conversion errors give False. */
  function ValidateAmount(amount: AmountArg): bool
  {
    match amount
    case NoAmount => false
    case NotConvertible => false
    case Number(x) => 0.0 < x <= 1_000_000_000.0
  }

  /** The accepted range, both ends: zero and above a billion are refused, a billion itself is not. */
  lemma ValidateAmountRange(x: real)
    ensures ValidateAmount(Number(x)) <==> 0.0 < x && x <= 1_000_000_000.0
    ensures !ValidateAmount(Number(0.0)) && ValidateAmount(Number(1_000_000_000.0))
    ensures !ValidateAmount(NoAmount) && !ValidateAmount(NotConvertible)
  {
  }

  // ---------------------------------------------------------------------
  // validate_phone

  /**
   * validate_phone: ^\+998\d{9}$ under re.match. It holds exactly when the
   * text, less one trailing newline, is "+998" and nine digits.
   */
  function ValidatePhone(phone: string): (ok: bool)
    ensures ok <==> var b := Anchored(phone);
      |b| == 13 && b[..4] == "+998" && forall j :: 4 <= j < 13 ==> IsDigit(b[j])
  {
    PhoneMeans(phone);
    if phone == "" then false
    else |phone| >= 4 && phone[..4] == "+998" && MatchRepeat(phone, 4, IsDigit, 9, 9)
  }

  lemma PhoneMeans(phone: string)
    ensures var b := Anchored(phone);
      (|phone| >= 4 && phone[..4] == "+998" && MatchRepeat(phone, 4, IsDigit, 9, 9))
      <==> (|b| == 13 && b[..4] == "+998" && forall j :: 4 <= j < 13 ==> IsDigit(b[j]))
  {
    var b := Anchored(phone);
    if |phone| >= 4 && phone[..4] == "+998" {
      assert phone[3] == '8';
      assert |b| >= 4 && b[..4] == phone[..4];
      MatchRepeatToEnd(phone, 4, IsDigit, 9, 9);
    }
    if |b| == 13 && b[..4] == "+998" {
      assert phone[..4] == b[..4];
      MatchRepeatToEnd(phone, 4, IsDigit, 9, 9);
    }
  }

  /** What the docstring describes: exactly "+998" and nine digits, nothing after. */
  function ValidatePhoneStrict(phone: string): (ok: bool)
    ensures ok ==> |phone| == 13 && forall j :: 0 <= j < |phone| ==> phone[j] != '\n'
    ensures ok <==> ValidatePhone(phone) && (phone == "" || phone[|phone| - 1] != '\n')
  {
    |phone| == 13 && phone[..4] == "+998" && forall j :: 4 <= j < 13 ==> IsDigit(phone[j])
  }

  /** As written, a newline after the number is let through; the strict version refuses it. */
  lemma PhoneTrailingNewline()
    ensures ValidatePhone("+998901234567\n")
    ensures !ValidatePhoneStrict("+998901234567\n")
  {
    var p := "+998901234567\n";
    assert Anchored(p) == "+998901234567";
    assert "+998901234567"[..4] == "+998";
  }

  // ---------------------------------------------------------------------
  // validate_id and is_non_empty

  /** validate_id: isinstance(value, int) and value > 0, where a bool is an int. */
  function ValidateId(value: PyValue): bool
  {
    match value
    case PyInt(i) => i > 0
    case PyBool(b) => b
    case _ => false
  }

  /** A valid id converts to a positive int; True passes as 1, and text never does. */
  lemma ValidateIdMeans(value: PyValue)
    ensures ValidateId(value) ==> ToInt(value).Success? && ToInt(value).value > 0
    ensures ValidateId(value) <==> (value.PyInt? || value.PyBool?) && ToInt(value).value > 0
    ensures ValidateId(PyBool(true)) && !ValidateId(PyText("5")) && !ValidateId(PyNone)
  {
  }

  /** is_non_empty: bool(value and str(value).strip()). */
  function IsNonEmpty(value: PyValue): bool
  {
    Truthy(value) && Strip(Str(value)) != ""
  }

  /** str.strip() leaves nothing exactly when every character is whitespace. */
  lemma StripIsEmpty(s: string)
    ensures Strip(s) == "" <==> forall j :: 0 <= j < |s| ==> IsSpace(s[j])
  {
    var r := TrimStart(s);
    assert r != "" ==> r[0] == s[|s| - |r|];
  }

  /** None, "" and whitespace-only text are empty; any other character makes text non-empty. */
  lemma IsNonEmptyMeans(s: string)
    ensures IsNonEmpty(PyText(s)) <==> exists j :: 0 <= j < |s| && !IsSpace(s[j])
    ensures !IsNonEmpty(PyNone)
  {
    StripIsEmpty(s);
  }
}
