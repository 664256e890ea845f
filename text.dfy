/**
 * String operations used by the dashboard, the address search and the GeoJSON
 * script: whitespace trimming (JavaScript `String.prototype.trim`, Python
 * `str.strip`), ASCII lower-casing, substring search, and the newline
 * join/split pair behind the CSV export.
 */
module Text {
  import opened Seqs

  /** ECMAScript WhiteSpace and LineTerminator code points (what `trim()` removes). */
  predicate IsJsSpace(c: char)
  {
    c == '\t' || c == '\n' || c == '\U{B}' || c == '\U{C}' || c == '\r' || c == ' ' ||
    c == '\U{A0}' || c == '\U{1680}' || ('\U{2000}' <= c <= '\U{200A}') ||
    c == '\U{2028}' || c == '\U{2029}' || c == '\U{202F}' || c == '\U{205F}' ||
    c == '\U{3000}' || c == '\U{FEFF}'
  }

  /** Python's `str.isspace` code points (what `str.strip()` removes). */
  predicate IsPySpace(c: char)
  {
    ('\t' <= c <= '\r') || ('\U{1C}' <= c <= '\U{1F}') || c == ' ' ||
    c == '\U{85}' || c == '\U{A0}' || c == '\U{1680}' || ('\U{2000}' <= c <= '\U{200A}') ||
    c == '\U{2028}' || c == '\U{2029}' || c == '\U{202F}' || c == '\U{205F}' || c == '\U{3000}'
  }

  /** Every character of `s` is whitespace in the sense of `ws`. */
  predicate AllSpace(s: string, ws: char -> bool)
  {
    forall i | 0 <= i < |s| :: ws(s[i])
  }

  /** `s` without its leading whitespace: a suffix of `s` that does not start with whitespace. */
  function TrimStart(s: string, ws: char -> bool): (r: string)
    ensures |r| <= |s|
    ensures r == [] || !ws(r[0])
  {
    if s != [] && ws(s[0]) then TrimStart(s[1..], ws) else s
  }

  /** What `TrimStart` keeps is a suffix of `s`. */
  lemma {:induction false} TrimStartIsSuffix(s: string, ws: char -> bool)
    ensures TrimStart(s, ws) == s[|s| - |TrimStart(s, ws)|..]
  {
    if s != [] && ws(s[0]) {
      TrimStartIsSuffix(s[1..], ws);
      assert s[1..][|s| - 1 - |TrimStart(s, ws)|..] == s[|s| - |TrimStart(s, ws)|..];
    }
  }

  /** What `TrimStart` drops is whitespace. */
  lemma {:induction false} TrimStartDropsSpace(s: string, ws: char -> bool)
    ensures AllSpace(s[..|s| - |TrimStart(s, ws)|], ws)
  {
    if s != [] && ws(s[0]) {
      TrimStartDropsSpace(s[1..], ws);
      var k := |s| - |TrimStart(s, ws)|;
      forall i | 0 <= i < k ensures ws(s[..k][i]) {
        if i > 0 {
          assert s[..k][i] == s[1..][..k - 1][i - 1];
        }
      }
    }
  }

  /** `s` without its trailing whitespace: a prefix of `s` that does not end with whitespace. */
  function TrimEnd(s: string, ws: char -> bool): (r: string)
    ensures |r| <= |s|
    ensures r == [] || !ws(r[|r| - 1])
  {
    if s != [] && ws(s[|s| - 1]) then TrimEnd(s[..|s| - 1], ws) else s
  }

  /** What `TrimEnd` keeps is a prefix of `s`. */
  lemma {:induction false} TrimEndIsPrefix(s: string, ws: char -> bool)
    ensures TrimEnd(s, ws) == s[..|TrimEnd(s, ws)|]
  {
    if s != [] && ws(s[|s| - 1]) {
      TrimEndIsPrefix(s[..|s| - 1], ws);
      assert s[..|s| - 1][..|TrimEnd(s, ws)|] == s[..|TrimEnd(s, ws)|];
    }
  }

  /** What `TrimEnd` drops is whitespace. */
  lemma {:induction false} TrimEndDropsSpace(s: string, ws: char -> bool)
    ensures AllSpace(s[|TrimEnd(s, ws)|..], ws)
  {
    if s != [] && ws(s[|s| - 1]) {
      TrimEndDropsSpace(s[..|s| - 1], ws);
      var k := |TrimEnd(s, ws)|;
      forall i | 0 <= i < |s| - k ensures ws(s[k..][i]) {
        if i < |s| - 1 - k {
          assert s[k..][i] == s[..|s| - 1][k..][i];
        }
      }
    }
  }

  /** `t` occurs in `s` starting at index `i`. */
  predicate OccursAt(s: string, i: int, t: string)
  {
    0 <= i <= |s| - |t| && s[i..i + |t|] == t
  }

  /** `s` with whitespace removed at both ends: neither end of the result is whitespace. */
  function Trim(s: string, ws: char -> bool): (r: string)
    ensures r == [] || (!ws(r[0]) && !ws(r[|r| - 1]))
  {
    var t := TrimStart(s, ws);
    TrimEndIsPrefix(t, ws);
    TrimEnd(t, ws)
  }

  /** The trimmed text is the slice of `s` that starts where the leading whitespace ends. */
  lemma TrimOccurs(s: string, ws: char -> bool)
    ensures OccursAt(s, |s| - |TrimStart(s, ws)|, Trim(s, ws))
  {
    var t := TrimStart(s, ws);
    TrimStartIsSuffix(s, ws);
    TrimEndIsPrefix(t, ws);
    assert s[|s| - |t|..][..|Trim(s, ws)|] == s[|s| - |t|..|s| - |t| + |Trim(s, ws)|];
  }

  /** JavaScript `s.trim()`. */
  function JsTrim(s: string): (r: string)
    ensures r == [] || (!IsJsSpace(r[0]) && !IsJsSpace(r[|r| - 1]))
  {
    Trim(s, IsJsSpace)
  }

  /** Python `s.strip()` (with no argument). */
  function PyStrip(s: string): (r: string)
    ensures r == [] || (!IsPySpace(r[0]) && !IsPySpace(r[|r| - 1]))
  {
    Trim(s, IsPySpace)
  }

  /** Trimming leaves nothing exactly when the string is all whitespace. */
  lemma TrimEmptyIff(s: string, ws: char -> bool)
    ensures Trim(s, ws) == [] <==> AllSpace(s, ws)
  {
    var t := TrimStart(s, ws);
    TrimStartDropsSpace(s, ws);
    TrimStartIsSuffix(s, ws);
    if Trim(s, ws) == [] {
      TrimEndDropsSpace(t, ws);
      assert t == [];
      assert s[..|s|] == s;
    }
  }

  /** JavaScript `String.prototype.toLowerCase` restricted to ASCII letters. */
  function LowerChar(c: char): (r: char)
    ensures 'A' <= c <= 'Z' ==> 'a' <= r <= 'z' && r as int == c as int + 32
    ensures !('A' <= c <= 'Z') ==> r == c
  {
    if 'A' <= c <= 'Z' then (c as int + 32) as char else c
  }

  /** Lower-casing keeps the length, turns each capital into its own small letter and leaves no ASCII capital. */
  function ToLower(s: string): (r: string)
    ensures |r| == |s|
    ensures forall i | 0 <= i < |r| :: !('A' <= r[i] <= 'Z')
    ensures forall i | 0 <= i < |s| :: if 'A' <= s[i] <= 'Z' then r[i] as int == s[i] as int + 32 else r[i] == s[i]
  {
    Map(LowerChar, s)
  }

  /** `w` spells `t` with any of `t`'s small letters written as capitals. */
  predicate IsCapitalisationOf(w: string, t: string)
  {
    |w| == |t| && forall i | 0 <= i < |t| :: w[i] == t[i] || ('a' <= t[i] <= 'z' && w[i] as int == t[i] as int - 32)
  }

  /** Lower-casing any capitalisation of a text without capitals gives that text back. */
  lemma LowerOfCapitalisation(w: string, t: string)
    requires IsCapitalisationOf(w, t)
    requires forall i | 0 <= i < |t| :: !('A' <= t[i] <= 'Z')
    ensures ToLower(w) == t
  {
    var r := ToLower(w);
    forall i | 0 <= i < |t|
      ensures r[i] == t[i]
    {
      if 'A' <= w[i] <= 'Z' {
        assert w[i] != t[i];
      }
    }
  }

  /** `t` occurs in `s` as a contiguous substring (JavaScript `s.includes(t)`). */
  predicate Contains(s: string, t: string)
    ensures Contains(s, t) ==> |t| <= |s|
  {
    t <= s || (s != [] && Contains(s[1..], t))
  }

  /** `Contains` means: some slice of `s` equals `t`. */
  lemma {:induction false} ContainsIff(s: string, t: string)
    ensures Contains(s, t) <==> exists i :: OccursAt(s, i, t)
  {
    if t <= s {
      assert s[0..|t|] == t;
      assert OccursAt(s, 0, t);
    } else if s != [] {
      ContainsIff(s[1..], t);
      if Contains(s[1..], t) {
        var i :| OccursAt(s[1..], i, t);
        assert s[i + 1..i + 1 + |t|] == s[1..][i..i + |t|];
        assert OccursAt(s, i + 1, t);
      }
      if exists i :: OccursAt(s, i, t) {
        var i :| OccursAt(s, i, t);
        assert i != 0;
        assert s[1..][i - 1..i - 1 + |t|] == s[i..i + |t|];
        assert OccursAt(s[1..], i - 1, t);
      }
    }
  }

  /** Lower-casing both sides keeps an occurrence: a text found in `s` is still found once both are lower-cased. */
  lemma {:induction false} ContainsLowered(s: string, t: string)
    requires Contains(s, t)
    ensures Contains(ToLower(s), ToLower(t))
  {
    if t <= s {
      assert ToLower(t) <= ToLower(s);
    } else {
      assert ToLower(s)[1..] == ToLower(s[1..]);
      ContainsLowered(s[1..], t);
    }
  }

  /** JavaScript `lines.join("\n")`. */
  function JoinLines(lines: seq<string>): (s: string)
    ensures |lines| >= 1 ==> lines[0] <= s
  {
    if |lines| == 0 then ""
    else if |lines| == 1 then lines[0]
    else lines[0] + "\n" + JoinLines(lines[1..])
  }

  /** JavaScript `s.split("\n")`: always at least one (possibly empty) piece. */
  function SplitLines(s: string): (r: seq<string>)
    ensures |r| >= 1
  {
    if s == [] then [""]
    else
      var rest := SplitLines(s[1..]);
      if s[0] == '\n' then [""] + rest else [[s[0]] + rest[0]] + rest[1..]
  }

  /** Splitting a string with a known first character, by one step of the definition. */
  lemma SplitCons(c: char, s: string)
    ensures SplitLines([c] + s) ==
            if c == '\n' then [""] + SplitLines(s) else [[c] + SplitLines(s)[0]] + SplitLines(s)[1..]
  {
    assert ([c] + s)[0] == c && ([c] + s)[1..] == s;
  }

  /** A character in front of `t` and of `a` keeps `t` splitting like `a` followed by `b`. */
  lemma SplitAtNewlineStep(c: char, a: string, b: string, t: string)
    requires SplitLines(t) == SplitLines(a) + SplitLines(b)
    ensures SplitLines([c] + t) == SplitLines([c] + a) + SplitLines(b)
  {
    SplitCons(c, t);
    SplitCons(c, a);
    if c == '\n' {
      ConsOntoAppend([""], SplitLines(a), SplitLines(b));
    } else {
      ExtendFirstOfAppend([c], SplitLines(a), SplitLines(b));
    }
  }

  /** `p + (x + y) == (p + x) + y`, for the pieces of a split. */
  lemma ConsOntoAppend(p: seq<string>, x: seq<string>, y: seq<string>)
    ensures p + (x + y) == (p + x) + y
  {
  }

  /** Prefixing the first piece of `x + y` is prefixing the first piece of `x`. */
  lemma ExtendFirstOfAppend(c: string, x: seq<string>, y: seq<string>)
    requires |x| >= 1
    ensures [c + (x + y)[0]] + (x + y)[1..] == ([c + x[0]] + x[1..]) + y
  {
    assert (x + y)[0] == x[0] && (x + y)[1..] == x[1..] + y;
  }

  /** Splitting at a newline splits the two sides independently. */
  lemma {:induction false} SplitAtNewline(a: string, b: string)
    ensures SplitLines(a + "\n" + b) == SplitLines(a) + SplitLines(b)
  {
    if a == [] {
      assert a + "\n" + b == ['\n'] + b;
      SplitCons('\n', b);
    } else {
      var tail := a[1..] + "\n" + b;
      SplitAtNewline(a[1..], b);
      SplitAtNewlineStep(a[0], a[1..], b, tail);
      assert [a[0]] + a[1..] == a;
      assert [a[0]] + tail == a + "\n" + b;
    }
  }

  /** A string without a newline splits into itself. */
  lemma {:induction false} SplitWithoutNewline(s: string)
    requires '\n' !in s
    ensures SplitLines(s) == [s]
  {
    if s != [] {
      assert '\n' !in s[1..] by {
        forall i | 0 <= i < |s| - 1 ensures s[1..][i] != '\n' {
          assert s[1..][i] == s[i + 1];
        }
      }
      SplitWithoutNewline(s[1..]);
      assert [s[0]] + s[1..] == s;
    }
  }

  /** Splitting undoes joining, for at least one line and no line holding a newline. */
  lemma {:induction false} SplitJoinLines(lines: seq<string>)
    requires |lines| >= 1
    requires forall i | 0 <= i < |lines| :: '\n' !in lines[i]
    ensures SplitLines(JoinLines(lines)) == lines
  {
    SplitWithoutNewline(lines[0]);
    if |lines| > 1 {
      SplitJoinLines(lines[1..]);
      SplitAtNewline(lines[0], JoinLines(lines[1..]));
    }
  }
}
