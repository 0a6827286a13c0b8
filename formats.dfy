/** The text helpers of the WhatsApp webhook route: trimming, the two
    fixed-shape format checks and the lower-casing of the confirmation answer. */
module Formats {
  import opened Optional

  // ---------------------------------------------------------------------------
  // Trimming
  // ---------------------------------------------------------------------------

  /** The characters `String.prototype.trim` removes: the ECMAScript WhiteSpace
      characters (TAB, VT, FF, SPACE, NBSP, ZWNBSP and the Zs category) and the
      LineTerminator characters (LF, CR, LS, PS). */
  predicate IsSpace(c: char) {
    c == '\t' || c == '\n' || c == '\U{B}' || c == '\U{C}' || c == '\r' || c == ' '
    || c == '\U{A0}' || c == '\U{1680}' || ('\U{2000}' <= c <= '\U{200A}')
    || c == '\U{2028}' || c == '\U{2029}' || c == '\U{202F}' || c == '\U{205F}'
    || c == '\U{3000}' || c == '\U{FEFF}'
  }

  /** `s` without its leading white space. */
  function TrimStart(s: string): string {
    if s != [] && IsSpace(s[0]) then TrimStart(s[1..]) else s
  }

  /** `s` without its trailing white space. */
  function TrimEnd(s: string): string {
    if s != [] && IsSpace(s[|s| - 1]) then TrimEnd(s[..|s| - 1]) else s
  }

  /** `TrimStart(s)` is a suffix of `s`, everything cut off is white space,
      and it does not itself start with white space. */
  lemma {:induction false} TrimStartSpec(s: string)
    ensures var r := TrimStart(s);
      |r| <= |s| && r == s[|s| - |r|..]
      && (forall i :: 0 <= i < |s| - |r| ==> IsSpace(s[i]))
      && (r == [] || !IsSpace(r[0]))
  {
    if s != [] && IsSpace(s[0]) {
      TrimStartSpec(s[1..]);
      var r := TrimStart(s);
      forall i | 0 <= i < |s| - |r| ensures IsSpace(s[i]) {
        if i > 0 { assert s[i] == s[1..][i - 1]; }
      }
    }
  }

  /** `TrimEnd(s)` is a prefix of `s`, everything cut off is white space, and
      it does not itself end with white space. */
  lemma {:induction false} TrimEndSpec(s: string)
    ensures var r := TrimEnd(s);
      |r| <= |s| && r == s[..|r|]
      && (forall i :: |r| <= i < |s| ==> IsSpace(s[i]))
      && (r == [] || !IsSpace(r[|r| - 1]))
  {
    if s != [] && IsSpace(s[|s| - 1]) {
      TrimEndSpec(s[..|s| - 1]);
      var r := TrimEnd(s);
      forall i | |r| <= i < |s| ensures IsSpace(s[i]) {
        if i < |s| - 1 { assert s[i] == s[..|s| - 1][i]; }
      }
    }
  }

  /** `String.prototype.trim`. */
  function Trim(s: string): string {
    TrimEnd(TrimStart(s))
  }

  /** `Trim(s)` is the infix of `s` that neither starts nor ends with white
      space and has only white space around it. */
  lemma TrimSpec(s: string)
    ensures var r := Trim(s); var i := |s| - |TrimStart(s)|;
      0 <= i <= |s| && i + |r| <= |s| && r == s[i..i + |r|]
      && (forall k :: 0 <= k < i ==> IsSpace(s[k]))
      && (forall k :: i + |r| <= k < |s| ==> IsSpace(s[k]))
      && (r == [] || (!IsSpace(r[0]) && !IsSpace(r[|r| - 1])))
  {
    var t := TrimStart(s);
    var r := TrimEnd(t);
    var i := |s| - |t|;
    TrimStartSpec(s);
    TrimEndSpec(t);
    assert r == s[i..i + |r|] by {
      assert r == t[..|r|] && t == s[i..];
    }
    forall k | i + |r| <= k < |s| ensures IsSpace(s[k]) {
      assert s[k] == t[k - i];
    }
  }

  /** A string that neither starts nor ends with white space is unchanged by
      `TrimStart` and `TrimEnd`. */
  lemma TrimmedFixpoint(s: string)
    requires s == [] || (!IsSpace(s[0]) && !IsSpace(s[|s| - 1]))
    ensures Trim(s) == s
  {
    assert TrimStart(s) == s;
  }

  /** Trimming twice is trimming once. */
  lemma TrimIdempotent(s: string)
    ensures Trim(Trim(s)) == Trim(s)
  {
    TrimSpec(s);
    TrimmedFixpoint(Trim(s));
  }

  /** `normalize(text?)`: an absent text counts as the empty string, which is
      then trimmed. */
  function Normalize(text: Option<string>): string {
    Trim(text.GetOr(""))
  }

  /** What `normalize` yields is the empty string for an absent text, and is
      already trimmed. */
  lemma NormalizeTrimmed(text: Option<string>)
    ensures text == None ==> Normalize(text) == ""
    ensures Trim(Normalize(text)) == Normalize(text)
  {
    TrimIdempotent(text.GetOr(""));
  }

  // ---------------------------------------------------------------------------
  // Fixed-shape patterns: `^\d{4}-\d{2}-\d{2}$` and `^\d{2}:\d{2}$`
  // ---------------------------------------------------------------------------

  /** `\d` without the `u` flag: an ASCII decimal digit. */
  predicate IsDigit(c: char) {
    '0' <= c <= '9'
  }

  /** One position of an anchored, fixed-length pattern. */
  datatype Atom = Digit | Lit(c: char)

  predicate AtomMatches(a: Atom, c: char) {
    match a
    case Digit => IsDigit(c)
    case Lit(l) => c == l
  }

  /** An anchored pattern without repetition matches `s` by consuming one
      character per atom, from the left, and nothing may be left over. */
  predicate Matches(p: seq<Atom>, s: string) {
    if p == [] then s == []
    else s != [] && AtomMatches(p[0], s[0]) && Matches(p[1..], s[1..])
  }

  /** The matcher accepts exactly the strings of the pattern's length whose
      every character matches the atom at its position. */
  lemma {:induction false} MatchesIff(p: seq<Atom>, s: string)
    ensures Matches(p, s) <==> |s| == |p| && forall i :: 0 <= i < |s| ==> AtomMatches(p[i], s[i])
  {
    if p != [] && s != [] {
      MatchesIff(p[1..], s[1..]);
      if |s| == |p| && forall i :: 0 <= i < |s| ==> AtomMatches(p[i], s[i]) {
        forall i | 0 <= i < |s| - 1 ensures AtomMatches(p[1..][i], s[1..][i]) {
          assert AtomMatches(p[i + 1], s[i + 1]);
        }
      }
    }
  }

  /** `\d{4}-\d{2}-\d{2}` written out position by position. */
  const DatePattern: seq<Atom> := [Digit, Digit, Digit, Digit, Lit('-'), Digit, Digit, Lit('-'), Digit, Digit]

  /** `\d{2}:\d{2}` written out position by position. */
  const TimePattern: seq<Atom> := [Digit, Digit, Lit(':'), Digit, Digit]

  predicate IsDateStr(s: string) {
    Matches(DatePattern, s)
  }

  predicate IsTimeStr(s: string) {
    Matches(TimePattern, s)
  }

  /** A date string has length 10, '-' at indices 4 and 7 and a digit at every
      other index; nothing else (month or day ranges) is checked. */
  lemma IsDateStrIff(s: string)
    ensures IsDateStr(s) <==>
      |s| == 10 && s[4] == '-' && s[7] == '-'
      && forall i :: 0 <= i < 10 && i != 4 && i != 7 ==> IsDigit(s[i])
  {
    MatchesIff(DatePattern, s);
    if |s| == 10 && s[4] == '-' && s[7] == '-' && forall i :: 0 <= i < 10 && i != 4 && i != 7 ==> IsDigit(s[i]) {
      forall i | 0 <= i < |s| ensures AtomMatches(DatePattern[i], s[i]) {
        if i != 4 && i != 7 { assert DatePattern[i] == Digit; }
      }
    }
  }

  /** A time string has length 5, ':' at index 2 and a digit at every other
      index; hours and minutes are not range-checked. */
  lemma IsTimeStrIff(s: string)
    ensures IsTimeStr(s) <==>
      |s| == 5 && s[2] == ':' && forall i :: 0 <= i < 5 && i != 2 ==> IsDigit(s[i])
  {
    MatchesIff(TimePattern, s);
    if |s| == 5 && s[2] == ':' && forall i :: 0 <= i < 5 && i != 2 ==> IsDigit(s[i]) {
      forall i | 0 <= i < |s| ensures AtomMatches(TimePattern[i], s[i]) {
        if i != 2 { assert TimePattern[i] == Digit; }
      }
    }
  }

  /** The date check does not look at ranges: an impossible month and day
      pass. */
  lemma DateNoRangeCheck()
    ensures IsDateStr("2025-13-99")
  {
    var s := "2025-13-99";
    assert forall i :: 0 <= i < 10 && i != 4 && i != 7 ==> IsDigit(s[i]);
    IsDateStrIff(s);
  }

  /** The time check does not look at ranges either, but it needs two digits
      for the hour. */
  lemma TimeNoRangeCheck()
    ensures IsTimeStr("99:99")
    ensures !IsTimeStr("9:30")
  {
    IsTimeStrIff("99:99");
    IsTimeStrIff("9:30");
  }

  // ---------------------------------------------------------------------------
  // Lower-casing of the confirmation answer
  // ---------------------------------------------------------------------------

  /** ASCII approximation of `toLowerCase` on one character. */
  function LowerChar(c: char): char {
    if 'A' <= c <= 'Z' then (c as int + 32) as char else c
  }

  function ToLower(s: string): string {
    seq(|s|, i requires 0 <= i < |s| => LowerChar(s[i]))
  }

  /** Lower-casing keeps the length, maps each ASCII capital to the small
      letter 32 code points above it and leaves every other character alone;
      the result holds no ASCII capital. */
  lemma ToLowerSpec(s: string)
    ensures |ToLower(s)| == |s|
    ensures forall i :: 0 <= i < |s| ==>
      if 'A' <= s[i] <= 'Z' then 'a' <= ToLower(s)[i] <= 'z' && ToLower(s)[i] as int == s[i] as int + 32
      else ToLower(s)[i] == s[i]
    ensures forall i :: 0 <= i < |s| ==> !('A' <= ToLower(s)[i] <= 'Z')
  {
  }

  /** Lower-casing twice is lower-casing once. */
  lemma ToLowerIdempotent(s: string)
    ensures ToLower(ToLower(s)) == ToLower(s)
  {
  }
}
