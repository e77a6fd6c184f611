/**
 * The ANSI colour helpers of logger.service.ts (lines 128-142): `formatText`
 * wraps a string in an SGR (Select Graphic Rendition, section 8.3.117 of
 * ECMA-48) colour sequence and the reset sequence, and `removeColor` deletes
 * every match of the regular expression /\x1b\[[0-9;]*m/g.
 */
module Colors {
  import opened Wrappers

  const Esc: char := '\U{1B}'

  /** The `Color` enum: SGR parameters 0 (reset), 31, 36 and 37. */
  datatype Color = Reset | FgRed | FgCyan | FgWhite

  function Code(c: Color): string {
    match c
    case Reset => "\U{1B}[0m"
    case FgRed => "\U{1B}[31m"
    case FgCyan => "\U{1B}[36m"
    case FgWhite => "\U{1B}[37m"
  }

  /**
   * `!process.env.NO_COLOR`: colour is on when NO_COLOR is unset or empty,
   * and any non-empty value, "0" and "false" included, turns it off.
   */
  predicate IsColorAllowed(noColor: Option<string>): (allowed: bool)
    ensures noColor.Some? && |noColor.value| > 0 ==> !allowed
    ensures noColor == None || noColor == Some("") ==> allowed
  {
    noColor.None? || noColor.value == ""
  }

  /**
   * `formatText(color, text)`, given the value of `isColorAllowed()`: the text
   * between the colour's code and the reset code, or the text unchanged.
   */
  function FormatText(colorAllowed: bool, c: Color, text: string): (r: string)
    ensures colorAllowed ==>
              && |r| == |Code(c)| + |text| + 4
              && r[..|Code(c)|] == Code(c)
              && r[|Code(c)|..|r| - 4] == text
              && r[|r| - 4..] == Code(Reset)
    ensures !colorAllowed ==> r == text
  {
    if colorAllowed then Code(c) + text + Code(Reset) else text
  }

  predicate NoEsc(s: string) {
    forall i :: 0 <= i < |s| ==> s[i] != Esc
  }

  predicate IsSgrParam(ch: char) {
    '0' <= ch <= '9' || ch == ';'
  }

  /** w is one whole match of /\x1b\[[0-9;]*m/. */
  predicate IsSgr(w: string) {
    && |w| >= 3
    && w[0] == Esc && w[1] == '[' && w[|w| - 1] == 'm'
    && forall i :: 2 <= i < |w| - 1 ==> IsSgrParam(w[i])
  }

  /** Length of the longest run of `[0-9;]` at the start of s. */
  function ParamRun(s: string): (n: nat)
    ensures n <= |s|
  {
    if s == [] || !IsSgrParam(s[0]) then 0 else 1 + ParamRun(s[1..])
  }

  /** The run is all parameter characters and stops at the first other one. */
  lemma {:induction false} ParamRunSpec(s: string)
    ensures forall i :: 0 <= i < ParamRun(s) ==> IsSgrParam(s[i])
    ensures ParamRun(s) == |s| || !IsSgrParam(s[ParamRun(s)])
  {
    if s != [] && IsSgrParam(s[0]) {
      ParamRunSpec(s[1..]);
    }
  }

  /** The length of the match of the pattern anchored at the start of s, if any. */
  function SgrMatch(s: string): (r: Option<nat>)
    ensures r.Some? ==> 3 <= r.value <= |s| && s[0] == Esc
  {
    if |s| >= 2 && s[0] == Esc && s[1] == '[' then
      var k := ParamRun(s[2..]);
      if 2 + k < |s| && s[2 + k] == 'm' then Some(3 + k) else None
    else
      None
  }

  /**
   * SgrMatch finds a match exactly when some prefix of s is one, and that
   * prefix is unique: 'm' is not a parameter character, so the regular
   * expression engine has no other choice to make.
   */
  lemma SgrMatchExact(s: string)
    ensures forall n :: 0 <= n <= |s| ==> (IsSgr(s[..n]) <==> SgrMatch(s) == Some(n))
  {
    if |s| >= 2 && s[0] == Esc && s[1] == '[' {
      var k := ParamRun(s[2..]);
      if 2 + k < |s| && s[2 + k] == 'm' {
        SgrLengthFound(s, k);
      } else {
        SgrLengthMissing(s, k);
      }
    }
  }

  lemma SgrLengthFound(s: string, k: nat)
    requires |s| >= 2 && s[0] == Esc && s[1] == '['
    requires k == ParamRun(s[2..]) && 2 + k < |s| && s[2 + k] == 'm'
    ensures forall n :: 0 <= n <= |s| ==> (IsSgr(s[..n]) <==> n == 3 + k)
  {
    ParamRunSpec(s[2..]);
    forall n | 0 <= n <= |s| && IsSgr(s[..n])
      ensures n == 3 + k
    {
    }
    assert IsSgr(s[..3 + k]) by {
      forall i | 2 <= i < 2 + k ensures IsSgrParam(s[i]) {
        assert s[i] == s[2..][i - 2];
      }
    }
  }

  lemma SgrLengthMissing(s: string, k: nat)
    requires |s| >= 2 && s[0] == Esc && s[1] == '['
    requires k == ParamRun(s[2..]) && !(2 + k < |s| && s[2 + k] == 'm')
    ensures forall n :: 0 <= n <= |s| ==> !IsSgr(s[..n])
  {
    ParamRunSpec(s[2..]);
    forall n | 0 <= n <= |s| && IsSgr(s[..n])
      ensures false
    {
    }
  }

  /**
   * `removeColor(s)`: the global replace scans left to right; where a match
   * starts it is deleted and the scan resumes after it, otherwise one
   * character is kept. The result is the input with some non-overlapping
   * escape sequences deleted, so it never grows and keeps only characters
   * the input had.
   */
  function RemoveColor(s: string): (r: string)
    ensures |r| <= |s|
    decreases |s|
  {
    if s == [] then []
    else
      match SgrMatch(s)
      case Some(n) => RemoveColor(s[n..])
      case None => [s[0]] + RemoveColor(s[1..])
  }

  /** Every character of the result comes from the input, no more often than there. */
  lemma {:induction false} RemoveColorKeepsCharacters(s: string)
    ensures multiset(RemoveColor(s)) <= multiset(s)
    decreases |s|
  {
    if s != [] {
      match SgrMatch(s)
      case Some(n) =>
        assert s == s[..n] + s[n..];
        RemoveColorKeepsCharacters(s[n..]);
      case None =>
        assert s == [s[0]] + s[1..];
        RemoveColorKeepsCharacters(s[1..]);
    }
  }

  lemma ConcatAssoc(x: string, y: string, z: string)
    ensures (x + y) + z == x + (y + z)
  {
  }

  /** Text with no escape character passes through a prefix untouched. */
  lemma {:induction false} RemoveColorPlainPrefix(a: string, b: string)
    requires NoEsc(a)
    ensures RemoveColor(a + b) == a + RemoveColor(b)
    decreases |a|
  {
    if a == [] {
      assert a + b == b;
    } else {
      var s := a + b;
      assert s[0] != Esc;
      assert SgrMatch(s).None?;
      assert s[1..] == a[1..] + b;
      RemoveColorPlainPrefix(a[1..], b);
      assert a == [a[0]] + a[1..];
    }
  }

  /** A string with no escape character is returned unchanged. */
  lemma RemoveColorPlain(s: string)
    requires NoEsc(s)
    ensures RemoveColor(s) == s
  {
    RemoveColorPlainPrefix(s, []);
    assert s + [] == s;
  }

  /** Each colour code is one whole escape sequence and is deleted on its own. */
  lemma RemoveColorCodePrefix(c: Color, b: string)
    ensures RemoveColor(Code(c) + b) == RemoveColor(b)
  {
    var s := Code(c) + b;
    var n := |Code(c)|;
    assert s[..n] == Code(c);
    SgrMatchExact(s);
    assert IsSgr(s[..n]);
    assert s[n..] == b;
  }

  /** Stripping formatted text at the front of a string yields the plain text. */
  lemma RemoveColorFormattedPrefix(colorAllowed: bool, c: Color, t: string, rest: string)
    requires NoEsc(t)
    ensures RemoveColor(FormatText(colorAllowed, c, t) + rest) == t + RemoveColor(rest)
  {
    if colorAllowed {
      assert FormatText(colorAllowed, c, t) + rest == Code(c) + (t + (Code(Reset) + rest));
      RemoveColorCodePrefix(c, t + (Code(Reset) + rest));
      RemoveColorPlainPrefix(t, Code(Reset) + rest);
      RemoveColorCodePrefix(Reset, rest);
    } else {
      RemoveColorPlainPrefix(t, rest);
    }
  }

  /**
   * Round trip: whether colour is on or off, `removeColor(formatText(c, t))`
   * gives back t for every colour and every t without an escape character.
   */
  lemma RemoveColorRoundTrip(colorAllowed: bool, c: Color, t: string)
    requires NoEsc(t)
    ensures RemoveColor(FormatText(colorAllowed, c, t)) == t
  {
    RemoveColorFormattedPrefix(colorAllowed, c, t, []);
    assert FormatText(colorAllowed, c, t) + [] == FormatText(colorAllowed, c, t);
  }

  /** An `ESC [` directly followed by another escape character is not a match and is kept. */
  lemma RemoveColorKeepsOpener(rest: string)
    requires rest != [] && rest[0] == Esc
    ensures RemoveColor([Esc, '['] + rest) == [Esc, '['] + RemoveColor(rest)
  {
    var s := [Esc, '['] + rest;
    assert s[2..] == rest;
    assert SgrMatch(s) == None;
    assert RemoveColor(s) == [Esc] + RemoveColor(s[1..]);
    assert s[1..] == "[" + rest;
    RemoveColorPlainPrefix("[", rest);
    ConcatAssoc([Esc], "[", RemoveColor(rest));
  }

  /**
   * Deleting a colour code nested just after the `ESC [` of an unfinished
   * sequence joins that opener to the text after the code.
   */
  lemma RemoveColorNested(c: Color, params: string)
    requires forall i :: 0 <= i < |params| ==> IsSgrParam(params[i])
    ensures RemoveColor([Esc, '['] + (Code(c) + (params + "m"))) == [Esc, '['] + (params + "m")
  {
    var rest := params + "m";
    RemoveColorKeepsOpener(Code(c) + rest);
    RemoveColorCodePrefix(c, rest);
    ParamsNoEsc(params);
    RemoveColorPlain(rest);
  }

  /** Parameter characters followed by the final 'm' hold no escape character. */
  lemma ParamsNoEsc(params: string)
    requires forall i :: 0 <= i < |params| ==> IsSgrParam(params[i])
    ensures NoEsc(params + "m")
  {
    var rest := params + "m";
    forall i | 0 <= i < |rest| ensures rest[i] != Esc {
      if i < |params| {
        assert rest[i] == params[i] && IsSgrParam(params[i]);
      }
    }
  }

  /**
   * `removeColor` is not idempotent: a second pass deletes the sequence that
   * the first pass assembled, so a second pass can shorten the result again.
   */
  lemma RemoveColorNotIdempotent(c: Color, params: string)
    requires forall i :: 0 <= i < |params| ==> IsSgrParam(params[i])
    ensures var once := RemoveColor([Esc, '['] + (Code(c) + (params + "m")));
      once != [] && RemoveColor(once) == []
  {
    RemoveColorNested(c, params);
    var once := [Esc, '['] + (params + "m");
    SgrMatchExact(once);
    assert once[..|once|] == once;
    assert IsSgr(once);
  }
}
