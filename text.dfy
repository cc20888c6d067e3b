/** The parameter-key formatter of src/App.js (the detail-panel heading): two
    regular-expression replacements, written out on `seq<char>`. The page
    script defines the same replacements as `formatParameterName` but never
    calls it. */
module Text {

  /** The class `[A-Z]` of a JavaScript regular expression without the `i`
      flag: ASCII capitals only. */
  predicate IsCapital(c: char) {
    'A' <= c <= 'Z'
  }

  predicate IsLowercase(c: char) {
    'a' <= c <= 'z'
  }

  /** The characters `.` does not match in a JavaScript regular expression
      without the `s` flag. */
  predicate IsLineTerminator(c: char) {
    c == '\n' || c == '\r' || c == '\U{2028}' || c == '\U{2029}'
  }

  /** `toUpperCase` on one character, for the ASCII letters. */
  function Upper(c: char): (u: char)
    ensures IsLowercase(c) ==> IsCapital(u) && u as int == c as int - 32
    ensures !IsLowercase(c) ==> u == c
  {
    if IsLowercase(c) then (c as int - 32) as char else c
  }

  /** How many capitals `s` holds. */
  function Capitals(s: string): nat {
    if s == [] then 0 else (if IsCapital(s[0]) then 1 else 0) + Capitals(s[1..])
  }

  /** `replace(/([A-Z])/g, ' $1')`: a space in front of every capital. */
  function SpaceBeforeCapitals(s: string): (t: string)
    ensures |t| == |s| + Capitals(s)
    ensures t != [] ==> !IsCapital(t[0])
  {
    if s == [] then []
    else if IsCapital(s[0]) then [' ', s[0]] + SpaceBeforeCapitals(s[1..])
    else [s[0]] + SpaceBeforeCapitals(s[1..])
  }

  /** `replace(/^./, str => str.toUpperCase())`: the first character is
      upper-cased unless the text is empty or starts with a line terminator. */
  function CapitalizeFirst(s: string): (t: string)
    ensures |t| == |s|
    ensures s != [] && !IsLineTerminator(s[0]) ==> t[0] == Upper(s[0])
    ensures s != [] && IsLineTerminator(s[0]) ==> t[0] == s[0]
    ensures s != [] ==> t[1..] == s[1..]
  {
    if s == [] || IsLineTerminator(s[0]) then s else [Upper(s[0])] + s[1..]
  }

  /** The heading text for a parameter key such as "pSpeed". */
  function FormatParameterName(param: string): string {
    CapitalizeFirst(SpaceBeforeCapitals(param))
  }

  /** Removes one space in front of every capital: the inverse of
      `SpaceBeforeCapitals`. */
  function RemoveSpaceBeforeCapitals(t: string): string {
    if t == [] then []
    else if |t| >= 2 && t[0] == ' ' && IsCapital(t[1]) then [t[1]] + RemoveSpaceBeforeCapitals(t[2..])
    else [t[0]] + RemoveSpaceBeforeCapitals(t[1..])
  }

  /** No character is lost or reordered: the inserted spaces are exactly the
      ones in front of the capitals, so removing them gives the key back. */
  lemma {:induction false} SpacingRoundTrip(s: string)
    ensures RemoveSpaceBeforeCapitals(SpaceBeforeCapitals(s)) == s
  {
    if s != [] {
      var rest := SpaceBeforeCapitals(s[1..]);
      SpacingRoundTrip(s[1..]);
      if IsCapital(s[0]) {
        var t := [' ', s[0]] + rest;
        assert t[2..] == rest;
      } else {
        var t := [s[0]] + rest;
        assert t[1..] == rest;
      }
    }
  }

  /** Every capital of `t` has a space right before it. */
  predicate CapitalsAfterSpaces(t: string) {
    forall i :: 0 <= i < |t| && IsCapital(t[i]) ==> i > 0 && t[i - 1] == ' '
  }

  /** Every capital of the spaced text has a space right before it. */
  lemma {:induction false} CapitalsArePreceded(s: string)
    ensures CapitalsAfterSpaces(SpaceBeforeCapitals(s))
  {
    if s != [] {
      CapitalsArePreceded(s[1..]);
      var rest := SpaceBeforeCapitals(s[1..]);
      var head := if IsCapital(s[0]) then [' ', s[0]] else [s[0]];
      var t := head + rest;
      forall i | 0 <= i < |t| && IsCapital(t[i]) ensures i > 0 && t[i - 1] == ' ' {
        if i > |head| {
          var j := i - |head|;
          assert t[i] == rest[j] && IsCapital(rest[j]);
          assert t[i - 1] == rest[j - 1];
        } else if i < |head| {
          assert t[i] == head[i] && t[0] == head[0];
        }
      }
    }
  }

  /** A key without capitals is only capitalised: nothing is inserted. */
  lemma {:induction false} NoCapitalsNoSpaces(s: string)
    requires forall i :: 0 <= i < |s| ==> !IsCapital(s[i])
    ensures SpaceBeforeCapitals(s) == s
  {
    if s != [] {
      NoCapitalsNoSpaces(s[1..]);
    }
  }

  /** A key that starts with a capital gets a heading that starts with a
      space: the first character is then the inserted space, which the
      second replacement leaves as it is. */
  lemma LeadingCapitalLeadingSpace(s: string)
    requires s != [] && IsCapital(s[0])
    ensures FormatParameterName(s)[0] == ' '
  {
  }

  /** The spacing works character by character: spacing a concatenation is
      concatenating the spaced parts. */
  lemma {:induction false} SpacingAppend(a: string, b: string)
    ensures SpaceBeforeCapitals(a + b) == SpaceBeforeCapitals(a) + SpaceBeforeCapitals(b)
  {
    if a == [] {
      assert a + b == b;
    } else {
      assert (a + b)[0] == a[0] && (a + b)[1..] == a[1..] + b;
      SpacingAppend(a[1..], b);
    }
  }

  /** A text starting with a lower-case letter has that letter upper-cased
      and the rest kept. */
  lemma CapitalizeLowercaseFirst(s: string)
    requires s != [] && IsLowercase(s[0])
    ensures CapitalizeFirst(s) == [Upper(s[0])] + s[1..]
  {
    var t := CapitalizeFirst(s);
    assert t == [t[0]] + t[1..];
  }

  /** Spacing a camelCase key of two words `pre` and `[cap] + post` puts one
      space between the words. */
  lemma TwoWordSpacing(pre: string, cap: char, post: string)
    requires IsCapital(cap)
    requires forall i :: 0 <= i < |pre| ==> !IsCapital(pre[i])
    requires forall i :: 0 <= i < |post| ==> !IsCapital(post[i])
    ensures SpaceBeforeCapitals(pre + [cap] + post) == pre + [' ', cap] + post
  {
    NoCapitalsNoSpaces(pre);
    NoCapitalsNoSpaces(post);
    SpacingAppend(pre, [cap]);
    SpacingAppend(pre + [cap], post);
    assert SpaceBeforeCapitals([cap]) == [' ', cap];
  }

  /** The heading of such a key: the first word capitalised, a space, then
      the second word. */
  lemma TwoWordHeading(pre: string, cap: char, post: string)
    requires pre != [] && IsLowercase(pre[0]) && IsCapital(cap)
    requires forall i :: 0 <= i < |pre| ==> !IsCapital(pre[i])
    requires forall i :: 0 <= i < |post| ==> !IsCapital(post[i])
    ensures FormatParameterName(pre + [cap] + post) == [Upper(pre[0])] + pre[1..] + [' ', cap] + post
  {
    TwoWordSpacing(pre, cap, post);
    var spaced := pre + [' ', cap] + post;
    assert spaced[0] == pre[0] && spaced[1..] == pre[1..] + [' ', cap] + post;
    CapitalizeLowercaseFirst(spaced);
  }

  /** The headings of the six parameter keys of src/App.js. */
  lemma PSpeedHeading()
    ensures FormatParameterName("pSpeed") == "P Speed"
  {
    TwoWordHeading("p", 'S', "peed");
    assert "p" + ['S'] + "peed" == "pSpeed";
    assert Upper('p') == 'P';
    assert ['P'] + "" + [' ', 'S'] + "peed" == "P Speed";
  }

  lemma DSpeedHeading()
    ensures FormatParameterName("dSpeed") == "D Speed"
  {
    TwoWordHeading("d", 'S', "peed");
    assert "d" + ['S'] + "peed" == "dSpeed";
    assert Upper('d') == 'D';
    assert ['D'] + "" + [' ', 'S'] + "peed" == "D Speed";
  }

  lemma AirGapHeading()
    ensures FormatParameterName("airGap") == "Air Gap"
  {
    TwoWordHeading("air", 'G', "ap");
    assert "air" + ['G'] + "ap" == "airGap";
    assert Upper('a') == 'A';
    assert ['A'] + "ir" + [' ', 'G'] + "ap" == "Air Gap";
  }

  lemma BlowoutHeading()
    ensures FormatParameterName("blowout") == "Blowout"
  {
    NoCapitalsNoSpaces("blowout");
  }

  lemma ZOffsetHeading()
    ensures FormatParameterName("zOffset") == "Z Offset"
  {
    TwoWordHeading("z", 'O', "ffset");
    assert "z" + ['O'] + "ffset" == "zOffset";
    assert Upper('z') == 'Z';
    assert ['Z'] + "" + [' ', 'O'] + "ffset" == "Z Offset";
  }

  lemma TipsHeading()
    ensures FormatParameterName("tips") == "Tips"
  {
    NoCapitalsNoSpaces("tips");
  }
}
