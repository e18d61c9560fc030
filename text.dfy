/** String helpers mirroring the JavaScript string operations the source relies on. */
module Text {
  import opened Wrappers

  /** JavaScript's `\s` and the characters `String.prototype.trim` removes: the ECMAScript
      WhiteSpace (tab, vertical tab, form feed, the byte-order mark and the space separators)
      and LineTerminator (line feed, carriage return, U+2028, U+2029) characters. */
  predicate IsSpace(c: char) {
    || c == '\t' || c == '\n' || c == '\U{B}' || c == '\U{C}' || c == '\r' || c == ' '
    || c == '\U{A0}' || c == '\U{1680}' || '\U{2000}' <= c <= '\U{200A}'
    || c == '\U{2028}' || c == '\U{2029}' || c == '\U{202F}' || c == '\U{205F}'
    || c == '\U{3000}' || c == '\U{FEFF}'
  }

  predicate NoSpace(s: string) {
    forall i :: 0 <= i < |s| ==> !IsSpace(s[i])
  }

  predicate AllSpace(s: string) {
    forall i :: 0 <= i < |s| ==> IsSpace(s[i])
  }

  function TrimStart(s: string): (r: string)
    ensures |r| <= |s| && r == s[|s| - |r|..]
    ensures r == [] || !IsSpace(r[0])
    ensures AllSpace(s[..|s| - |r|])
  {
    if s == [] || !IsSpace(s[0]) then s
    else
      var r := TrimStart(s[1..]);
      assert s[1..][..|s| - 1 - |r|] == s[1..|s| - |r|];
      r
  }

  function TrimEnd(s: string): (r: string)
    ensures |r| <= |s| && r == s[..|r|]
    ensures r == [] || !IsSpace(r[|r| - 1])
    ensures AllSpace(s[|r|..])
  {
    if s == [] || !IsSpace(s[|s| - 1]) then s
    else
      var r := TrimEnd(s[..|s| - 1]);
      assert s[..|s| - 1][|r|..] == s[|r|..|s| - 1];
      r
  }

  /** `s.trim()`: the part of `s` left after removing leading and trailing whitespace. */
  function Trim(s: string): (r: string)
    ensures exists k :: 0 <= k <= |s| && IsPrefix(r, s[k..])
    ensures r == [] || (!IsSpace(r[0]) && !IsSpace(r[|r| - 1]))
  {
    var a := TrimStart(s);
    var r := TrimEnd(a);
    assert IsPrefix(r, s[|s| - |a|..]);
    r
  }

  /** Trimming twice is trimming once. */
  lemma {:induction false} TrimIdempotent(s: string)
    ensures Trim(Trim(s)) == Trim(s)
  {
    var t := Trim(s);
    assert TrimStart(t) == t;
    assert TrimEnd(t) == t;
  }

  lemma {:induction false} TrimOfWord(s: string)
    requires NoSpace(s)
    ensures Trim(s) == s
  {
  }

  /** Trimming removes exactly the blank run on each side of a text that starts and ends
      with a non-blank character. */
  lemma {:induction false} TrimAround(lead: string, w: string, trail: string)
    requires AllSpace(lead) && AllSpace(trail)
    requires w != [] && !IsSpace(w[0]) && !IsSpace(w[|w| - 1])
    ensures Trim(lead + w + trail) == w
  {
    TrimStartBlankThen(lead, w + trail);
    assert lead + w + trail == lead + (w + trail);
    TrimEndThenBlank(w, trail);
  }

  lemma {:induction false} TrimStartBlankThen(lead: string, s: string)
    requires AllSpace(lead) && s != [] && !IsSpace(s[0])
    ensures TrimStart(lead + s) == s
    decreases |lead|
  {
    if lead == [] {
      assert lead + s == s;
    } else {
      var t := lead + s;
      assert t[0] == lead[0] && IsSpace(t[0]);
      assert t[1..] == lead[1..] + s;
      assert TrimStart(t) == TrimStart(t[1..]);
      TrimStartBlankThen(lead[1..], s);
    }
  }

  lemma {:induction false} TrimEndThenBlank(s: string, trail: string)
    requires AllSpace(trail) && s != [] && !IsSpace(s[|s| - 1])
    ensures TrimEnd(s + trail) == s
    decreases |trail|
  {
    if trail == [] {
      assert s + trail == s;
    } else {
      var init := trail[..|trail| - 1];
      assert (s + trail)[..|s + trail| - 1] == s + init;
      TrimEndThenBlank(s, init);
    }
  }

  /** The longest prefix of `s` holding no whitespace. */
  function Word(s: string): (w: string)
    ensures |w| <= |s| && w == s[..|w|] && NoSpace(w)
    ensures |w| < |s| ==> IsSpace(s[|w|])
  {
    if s == [] || IsSpace(s[0]) then []
    else
      var w := Word(s[1..]);
      assert [s[0]] + w == s[..|w| + 1];
      [s[0]] + w
  }

  /** The maximal whitespace-free runs of `s`, in order. */
  function Tokens(s: string): (ts: seq<string>)
    ensures forall i :: 0 <= i < |ts| ==> ts[i] != [] && NoSpace(ts[i])
    decreases |s|
  {
    if s == [] then []
    else if IsSpace(s[0]) then Tokens(s[1..])
    else
      var w := Word(s);
      [w] + Tokens(s[|w|..])
  }

  /** `s.trim().split(/\s+/)`: splitting an all-blank string yields one empty part. */
  function SplitOnSpace(s: string): (parts: seq<string>)
    ensures |parts| >= 1
  {
    var ts := Tokens(s);
    if ts == [] then [""] else ts
  }

  lemma {:induction false} TokensOfBlank(s: string)
    requires AllSpace(s)
    ensures Tokens(s) == []
    decreases |s|
  {
    if s != [] {
      TokensOfBlank(s[1..]);
    }
  }

  lemma {:induction false} WordOf(w: string, rest: string)
    requires NoSpace(w)
    requires rest == [] || IsSpace(rest[0])
    ensures Word(w + rest) == w
    decreases |w|
  {
    if w != [] {
      assert (w + rest)[1..] == w[1..] + rest;
      WordOf(w[1..], rest);
    }
  }

  lemma {:induction false} TokensOfBlankThen(sep: string, rest: string)
    requires AllSpace(sep)
    ensures Tokens(sep + rest) == Tokens(rest)
    decreases |sep|
  {
    if sep == [] {
      assert sep + rest == rest;
    } else {
      assert (sep + rest)[0] == sep[0];
      assert (sep + rest)[1..] == sep[1..] + rest;
      assert Tokens(sep + rest) == Tokens(sep[1..] + rest);
      TokensOfBlankThen(sep[1..], rest);
    }
  }

  /** A word followed by whitespace and a second word splits into exactly those two words. */
  lemma {:induction false} TokensOfPair(a: string, sep: string, b: string)
    requires a != [] && NoSpace(a) && b != [] && NoSpace(b)
    requires sep != [] && AllSpace(sep)
    ensures SplitOnSpace(a + sep + b) == [a, b]
  {
    var s := a + sep + b;
    assert s == a + (sep + b);
    WordOf(a, sep + b);
    assert s[|a|..] == sep + b;
    TokensOfBlankThen(sep, b);
    WordOf(b, []);
    assert b + [] == b;
    assert b[|b|..] == [];
  }

  /** A single word is left whole. */
  /** A word followed by a blank or nothing is the first token. */
  lemma {:induction false} TokensOfWordThen(a: string, rest: string)
    requires a != [] && NoSpace(a)
    requires rest == [] || IsSpace(rest[0])
    ensures Tokens(a + rest) == [a] + Tokens(rest)
  {
    WordOf(a, rest);
    assert !IsSpace((a + rest)[0]);
    assert (a + rest)[|a|..] == rest;
  }

  lemma {:induction false} TokensOfTriple(a: string, s1: string, b: string, s2: string, c: string)
    requires a != [] && NoSpace(a) && b != [] && NoSpace(b) && c != [] && NoSpace(c)
    requires s1 != [] && AllSpace(s1) && s2 != [] && AllSpace(s2)
    ensures SplitOnSpace(a + s1 + b + s2 + c) == [a, b, c]
  {
    assert a + s1 + b + s2 + c == a + (s1 + (b + (s2 + c)));
    TokensOfWordThen(a, s1 + (b + (s2 + c)));
    TokensOfBlankThen(s1, b + (s2 + c));
    TokensOfWordThen(b, s2 + c);
    TokensOfBlankThen(s2, c);
    TokensOfWordThen(c, []);
    assert c + [] == c;
    assert Tokens([]) == [];
  }

  lemma {:induction false} TokensOfWord(a: string)
    requires a != [] && NoSpace(a)
    ensures SplitOnSpace(a) == [a]
  {
    WordOf(a, []);
    assert a + [] == a;
    assert !IsSpace(a[0]);
    assert a[|a|..] == [];
    assert Tokens(a) == [a] + Tokens([]);
  }

  predicate IsPrefix(p: string, s: string) {
    |p| <= |s| && s[..|p|] == p
  }

  predicate IsSuffix(p: string, s: string) {
    |p| <= |s| && s[|s| - |p|..] == p
  }

  predicate OccursAt(needle: string, hay: string, i: int) {
    0 <= i <= |hay| - |needle| && hay[i..i + |needle|] == needle
  }

  /** `hay.includes(needle)`. */
  ghost predicate Occurs(needle: string, hay: string) {
    exists i :: OccursAt(needle, hay, i)
  }

  /** A slice of `s[1..]` is the slice of `s` one position further on. */
  lemma SliceOfTail(s: string, i: nat, n: nat)
    requires 1 <= i && i + n <= |s|
    ensures s[i..i + n] == s[1..][i - 1..i - 1 + n]
  {
  }

  function Contains(hay: string, needle: string): (b: bool)
    ensures b <==> Occurs(needle, hay)
    decreases |hay|
  {
    if IsPrefix(needle, hay) then
      assert OccursAt(needle, hay, 0);
      true
    else if hay == [] then false
    else
      var b := Contains(hay[1..], needle);
      if b then
        var i :| OccursAt(needle, hay[1..], i);
        SliceOfTail(hay, i + 1, |needle|);
        assert OccursAt(needle, hay, i + 1);
        true
      else
        assert forall i :: OccursAt(needle, hay, i) ==> i == 0 || OccursAt(needle, hay[1..], i - 1) by {
          forall i | OccursAt(needle, hay, i) && i > 0 ensures OccursAt(needle, hay[1..], i - 1) {
            SliceOfTail(hay, i, |needle|);
          }
        }
        false
  }

  /** The first position at which `needle` occurs in `hay`. */
  function IndexOf(hay: string, needle: string): (r: Option<nat>)
    ensures r.Some? ==> OccursAt(needle, hay, r.value)
    ensures r.Some? ==> forall j :: 0 <= j < r.value ==> !OccursAt(needle, hay, j)
    ensures r.None? <==> !Occurs(needle, hay)
    decreases |hay|
  {
    if IsPrefix(needle, hay) then
      assert OccursAt(needle, hay, 0);
      Some(0)
    else if hay == [] then None
    else
      var rest := IndexOf(hay[1..], needle);
      assert forall i :: 0 < i ==> (OccursAt(needle, hay, i) <==> OccursAt(needle, hay[1..], i - 1)) by {
        forall i | 0 < i
          ensures OccursAt(needle, hay, i) <==> OccursAt(needle, hay[1..], i - 1)
        {
          if i + |needle| <= |hay| {
            assert hay[1..][i - 1..] == hay[i..];
            assert hay[1..][i - 1..][..|needle|] == hay[1..][i - 1..i - 1 + |needle|];
            assert hay[i..][..|needle|] == hay[i..i + |needle|];
          }
        }
      }
      match rest
      case None => None
      case Some(k) => Some(k + 1)
  }

  /** `s.replace(pattern, replacement)` with a string pattern: only the first occurrence is replaced. */
  function ReplaceFirst(s: string, pattern: string, replacement: string): (r: string)
  {
    match IndexOf(s, pattern)
    case None => s
    case Some(i) => s[..i] + replacement + s[i + |pattern|..]
  }

  lemma {:induction false} ReplaceFirstAbsent(s: string, pattern: string, replacement: string)
    requires !Occurs(pattern, s)
    ensures ReplaceFirst(s, pattern, replacement) == s
  {
  }

  lemma {:induction false} ReplaceFirstPrefix(pattern: string, rest: string, replacement: string)
    ensures ReplaceFirst(pattern + rest, pattern, replacement) == replacement + rest
  {
    var s := pattern + rest;
    assert IsPrefix(pattern, s);
    assert s[..0] == [] && s[|pattern|..] == rest;
  }

  /** ASCII case folding (`toLowerCase` on the characters that occur in file names here). */
  function LowerChar(c: char): char {
    if 'A' <= c <= 'Z' then (c as int - 'A' as int + 'a' as int) as char else c
  }

  function ToLower(s: string): (r: string)
    ensures |r| == |s| && forall i :: 0 <= i < |s| ==> r[i] == LowerChar(s[i])
  {
    seq(|s|, i requires 0 <= i < |s| => LowerChar(s[i]))
  }

  /** `parts.join(sep)`. */
  function Join(parts: seq<string>, sep: string): (r: string)
    ensures |parts| == 1 ==> r == parts[0]
    ensures parts == [] ==> r == ""
  {
    if parts == [] then ""
    else if |parts| == 1 then parts[0]
    else parts[0] + sep + Join(parts[1..], sep)
  }

  /** Decimal digits of a natural number, as `String(n)` writes them. */
  function NatToString(n: nat): (r: string)
    ensures r != []
    ensures forall i :: 0 <= i < |r| ==> '0' <= r[i] <= '9'
    decreases n
  {
    var d := ['0' + (n % 10) as char][0];
    if n < 10 then [d] else NatToString(n / 10) + [d]
  }

  function IntToString(n: int): (r: string)
    ensures r != []
  {
    if n < 0 then "-" + NatToString(-n) else NatToString(n)
  }

  /** `s.padEnd(width)`. */
  function PadEnd(s: string, width: nat): (r: string)
    ensures |r| == if |s| < width then width else |s|
    ensures r[..|s|] == s
    ensures forall i :: |s| <= i < |r| ==> r[i] == ' '
  {
    if |s| >= width then s else s + seq(width - |s|, _ => ' ')
  }

  /** `Number.parseInt(s, 10)`: an optional sign and the longest run of leading decimal digits;
      `None` stands for NaN (no digit where one is needed). Leading blanks are skipped. */
  function DigitsPrefix(s: string): (r: string)
    ensures |r| <= |s| && r == s[..|r|]
    ensures forall i :: 0 <= i < |r| ==> '0' <= r[i] <= '9'
  {
    if s == [] || !('0' <= s[0] <= '9') then []
    else
      var r := DigitsPrefix(s[1..]);
      assert [s[0]] + r == s[..|r| + 1];
      [s[0]] + r
  }

  /** A run of decimal digits parses to its value. */
  lemma {:induction false} ParseIntOfDigits(ds: string)
    requires ds != [] && forall i :: 0 <= i < |ds| ==> '0' <= ds[i] <= '9'
    ensures ParseIntDecimal(ds) == Some(DigitsValue(ds))
  {
    assert !IsSpace(ds[0]);
    assert TrimStart(ds) == ds;
    assert ds[0] != '-' && ds[0] != '+';
    DigitsPrefixOfDigits(ds);
  }

  lemma {:induction false} DigitsPrefixOfDigits(ds: string)
    requires forall i :: 0 <= i < |ds| ==> '0' <= ds[i] <= '9'
    ensures DigitsPrefix(ds) == ds
    decreases |ds|
  {
    if ds != [] {
      DigitsPrefixOfDigits(ds[1..]);
      assert [ds[0]] + ds[1..] == ds;
    }
  }

  function DigitsValue(ds: string): (n: nat)
    requires forall i :: 0 <= i < |ds| ==> '0' <= ds[i] <= '9'
  {
    if ds == [] then 0 else DigitsValue(ds[..|ds| - 1]) * 10 + (ds[|ds| - 1] - '0') as nat
  }

  function ParseIntDecimal(s: string): (r: Option<int>)
    ensures r.Some? ==> exists k :: 0 <= k < |s| && '0' <= s[k] <= '9'
  {
    var t := TrimStart(s);
    var signed := t != [] && (t[0] == '-' || t[0] == '+');
    var sign := if signed && t[0] == '-' then -1 else 1;
    var body := if signed then t[1..] else t;
    var ds := DigitsPrefix(body);
    if ds == [] then None
    else
      assert ds[0] == body[0];
      assert body[0] in s;
      Some(sign * DigitsValue(ds))
  }

  lemma {:induction false} DigitsValuePositive(ds: string)
    requires forall i :: 0 <= i < |ds| ==> '0' <= ds[i] <= '9'
    ensures DigitsValue(ds) > 0 <==> exists i :: 0 <= i < |ds| && ds[i] != '0'
  {
    if ds != [] {
      DigitsValuePositive(ds[..|ds| - 1]);
      assert forall i :: 0 <= i < |ds| - 1 ==> ds[..|ds| - 1][i] == ds[i];
    }
  }
}
