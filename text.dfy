/** String primitives of the JavaScript runtime that the renderers rely on:
    `Array.prototype.join("\n")`, splitting on '\n', `String.prototype.trim`,
    template-literal rendering of integers, and the en-US currency format. */
module Text {

  datatype Option<+T> = None | Some(value: T)

  function Min(a: int, b: int): int { if a <= b then a else b }
  function Max(a: int, b: int): int { if a >= b then a else b }

  // ---------------------------------------------------------------------------
  // Lines

  predicate NoNewline(s: string) {
    forall k | 0 <= k < |s| :: s[k] != '\n'
  }

  predicate AllNoNewline(lines: seq<string>) {
    forall i | 0 <= i < |lines| :: NoNewline(lines[i])
  }

  /** `lines.join('\n')`: the lines with one '\n' between neighbours, none at the end. */
  function Join(lines: seq<string>): string
  {
    if |lines| == 0 then ""
    else if |lines| == 1 then lines[0]
    else lines[0] + "\n" + Join(lines[1..])
  }

  /** The text cut at every '\n' (`s.split('\n')`); always at least one piece. */
  function Split(s: string): (r: seq<string>)
    ensures |r| >= 1
  {
    if |s| == 0 then [""]
    else
      var rest := Split(s[1..]);
      if s[0] == '\n' then [""] + rest else [[s[0]] + rest[0]] + rest[1..]
  }

  lemma {:induction false} SplitSingle(a: string)
    requires NoNewline(a)
    ensures Split(a) == [a]
  {
    if |a| > 0 {
      SplitSingle(a[1..]);
      assert [a[0]] + a[1..] == a;
    }
  }

  lemma {:induction false} SplitLine(a: string, rest: string)
    requires NoNewline(a)
    ensures Split(a + "\n" + rest) == [a] + Split(rest)
  {
    if |a| == 0 {
      assert a + "\n" + rest == "\n" + rest;
      assert ("\n" + rest)[1..] == rest;
    } else {
      SplitLine(a[1..], rest);
      assert (a + "\n" + rest)[1..] == a[1..] + "\n" + rest;
      assert [a[0]] + a[1..] == a;
    }
  }

  /** Joining and then splitting gives back the lines, whatever follows them. */
  lemma {:induction false} SplitJoinPrefix(pre: seq<string>, rest: string)
    requires |pre| > 0 && AllNoNewline(pre)
    ensures Split(Join(pre) + "\n" + rest) == pre + Split(rest)
  {
    var head := pre[0];
    assert NoNewline(head);
    if |pre| == 1 {
      assert Join(pre) == head;
      SplitLine(head, rest);
      assert pre == [head];
    } else {
      var tail := pre[1..];
      assert AllNoNewline(tail) by {
        forall i | 0 <= i < |tail| ensures NoNewline(tail[i]) { assert tail[i] == pre[i + 1]; }
      }
      var inner := Join(tail) + "\n" + rest;
      assert Join(pre) == head + "\n" + Join(tail);
      assert Join(pre) + "\n" + rest == head + "\n" + inner;
      SplitLine(head, inner);
      SplitJoinPrefix(tail, rest);
      assert [head] + (tail + Split(rest)) == ([head] + tail) + Split(rest);
      assert [head] + tail == pre;
    }
  }

  lemma {:induction false} JoinAppend(a: seq<string>, b: seq<string>)
    requires |a| > 0 && |b| > 0
    ensures Join(a + b) == Join(a) + "\n" + Join(b)
  {
    if |a| == 1 {
      assert (a + b)[1..] == b;
    } else {
      assert (a + b)[1..] == a[1..] + b;
      JoinAppend(a[1..], b);
    }
  }

  /** The lines of a joined text come back from `Split` (the round trip of `Join`). */
  lemma SplitJoin(lines: seq<string>)
    requires |lines| > 0 && AllNoNewline(lines)
    ensures Split(Join(lines)) == lines
  {
    if |lines| == 1 {
      SplitSingle(lines[0]);
    } else {
      assert lines == [lines[0]] + lines[1..];
      SplitJoinPrefix([lines[0]], Join(lines[1..]));
      SplitJoin(lines[1..]);
    }
  }

  /** The first |pre| lines of a joined text are recovered by `Split` whatever comes after. */
  lemma SplitJoinHead(pre: seq<string>, post: seq<string>)
    requires |pre| > 0 && AllNoNewline(pre)
    ensures |Split(Join(pre + post))| >= |pre|
    ensures Split(Join(pre + post))[..|pre|] == pre
  {
    if |post| == 0 {
      assert pre + post == pre;
      SplitJoin(pre);
    } else {
      JoinAppend(pre, post);
      SplitJoinPrefix(pre, Join(post));
    }
  }

  /** The joined text starts with the first line and ends with the last one. */
  lemma {:induction false} JoinEnds(lines: seq<string>)
    requires |lines| > 0
    ensures lines[0] <= Join(lines)
    ensures |Join(lines)| >= |lines[|lines| - 1]|
    ensures Join(lines)[|Join(lines)| - |lines[|lines| - 1]|..] == lines[|lines| - 1]
  {
    if |lines| > 1 {
      JoinEnds(lines[1..]);
      var j := Join(lines[1..]);
      var last := lines[|lines| - 1];
      assert Join(lines) == lines[0] + "\n" + j;
      assert Join(lines)[|Join(lines)| - |last|..] == j[|j| - |last|..];
    }
  }

  // ---------------------------------------------------------------------------
  // Whitespace and trim

  /** ECMAScript WhiteSpace and LineTerminator code points: what `trim` strips and `\s` matches. */
  predicate IsSpace(c: char) {
    c == ' ' || c == '\t' || c == '\n' || c == '\r' || c == '\U{000B}' || c == '\U{000C}'
    || c == '\U{00A0}' || c == '\U{1680}' || ('\U{2000}' <= c <= '\U{200A}')
    || c == '\U{2028}' || c == '\U{2029}' || c == '\U{202F}' || c == '\U{205F}'
    || c == '\U{3000}' || c == '\U{FEFF}'
  }

  predicate AllSpace(s: string) {
    forall k | 0 <= k < |s| :: IsSpace(s[k])
  }

  /** `trimStart`: drops leading whitespace. */
  function TrimStart(s: string): string {
    if |s| > 0 && IsSpace(s[0]) then TrimStart(s[1..]) else s
  }

  /** `trimEnd`: drops trailing whitespace. */
  function TrimEnd(s: string): string {
    if |s| > 0 && IsSpace(s[|s| - 1]) then TrimEnd(s[..|s| - 1]) else s
  }

  /** `s.trim()`. */
  function Trim(s: string): string {
    TrimEnd(TrimStart(s))
  }

  /** `trimStart` leaves the suffix after the longest whitespace-only prefix. */
  lemma {:induction false} TrimStartShape(s: string)
    ensures |TrimStart(s)| <= |s|
    ensures TrimStart(s) == s[|s| - |TrimStart(s)|..]
    ensures AllSpace(s[..|s| - |TrimStart(s)|])
    ensures TrimStart(s) == [] || !IsSpace(TrimStart(s)[0])
    ensures TrimStart(s) == [] <==> AllSpace(s)
  {
    if |s| > 0 && IsSpace(s[0]) {
      var t := s[1..];
      TrimStartShape(t);
      var r := TrimStart(t);
      var n := |s| - |r|;
      assert TrimStart(s) == r;
      assert t[|t| - |r|..] == s[n..];
      forall k | 0 <= k < n ensures IsSpace(s[..n][k]) {
        if k > 0 { assert s[..n][k] == t[..|t| - |r|][k - 1]; }
      }
      if AllSpace(t) {
        forall k | 0 <= k < |s| ensures IsSpace(s[k]) { if k > 0 { assert s[k] == t[k - 1]; } }
      }
    } else {
      assert s[..0] == [];
      if |s| > 0 { assert !IsSpace(s[0]); }
    }
  }

  /** `trimEnd` leaves the prefix before the longest whitespace-only suffix. */
  lemma {:induction false} TrimEndShape(s: string)
    ensures |TrimEnd(s)| <= |s|
    ensures TrimEnd(s) == s[..|TrimEnd(s)|]
    ensures AllSpace(s[|TrimEnd(s)|..])
    ensures TrimEnd(s) == [] || !IsSpace(TrimEnd(s)[|TrimEnd(s)| - 1])
    ensures TrimEnd(s) == [] <==> AllSpace(s)
  {
    if |s| > 0 && IsSpace(s[|s| - 1]) {
      var p := s[..|s| - 1];
      TrimEndShape(p);
      var r := TrimEnd(p);
      assert p[..|r|] == s[..|r|];
      assert s[|r|..] == p[|r|..] + [s[|s| - 1]];
      if AllSpace(p) {
        forall k | 0 <= k < |s| ensures IsSpace(s[k]) { if k < |s| - 1 { assert s[k] == p[k]; } }
      }
    } else {
      assert s[|s|..] == [];
    }
  }

  /** `trim` yields the empty string exactly on whitespace-only input. */
  lemma TrimEmptyIff(s: string)
    ensures Trim(s) == "" <==> AllSpace(s)
  {
    var a := TrimStart(s);
    TrimStartShape(s);
    TrimEndShape(a);
    if a != [] { assert !IsSpace(a[0]); }
  }

  /** The trimmed text has neither leading nor trailing whitespace, and is a slice of the input. */
  lemma TrimShape(s: string)
    ensures Trim(s) == [] || (!IsSpace(Trim(s)[0]) && !IsSpace(Trim(s)[|Trim(s)| - 1]))
    ensures exists i, j | 0 <= i <= j <= |s| :: Trim(s) == s[i..j]
  {
    var a := TrimStart(s);
    var r := TrimEnd(a);
    TrimStartShape(s);
    TrimEndShape(a);
    assert Trim(s) == r;
    var i := |s| - |a|;
    assert a == s[i..];
    assert r == a[..|r|];
    if r != [] {
      assert r[0] == a[0];
    }
    assert a[..|r|] == s[i..i + |r|];
    assert Trim(s) == s[i..i + |r|];
  }

  // ---------------------------------------------------------------------------
  // String length as JavaScript reports it

  /** A character outside the Basic Multilingual Plane, stored as a surrogate pair in UTF-16. */
  predicate IsAstral(c: char) { c as int >= 0x1_0000 }

  /** `s.length`: the number of UTF-16 code units, two for each astral character. */
  function Utf16Length(s: string): (n: nat)
    ensures |s| <= n <= 2 * |s|
    ensures n == |s| <==> forall k | 0 <= k < |s| :: !IsAstral(s[k])
  {
    if |s| == 0 then 0
    else
      var rest := Utf16Length(s[1..]);
      assert forall k | 0 <= k < |s| - 1 :: s[1..][k] == s[k + 1];
      (if IsAstral(s[0]) then 2 else 1) + rest
  }

  /** Lengths add up over a concatenation. */
  lemma {:induction false} Utf16LengthAppend(a: string, b: string)
    ensures Utf16Length(a + b) == Utf16Length(a) + Utf16Length(b)
  {
    if |a| > 0 {
      assert (a + b)[0] == a[0];
      assert (a + b)[1..] == a[1..] + b;
      Utf16LengthAppend(a[1..], b);
    } else {
      assert a + b == b;
    }
  }

  // ---------------------------------------------------------------------------
  // Integers as text

  predicate IsDigit(c: char) { '0' <= c <= '9' }

  predicate AllDigits(s: string) {
    forall k | 0 <= k < |s| :: IsDigit(s[k])
  }

  function DigitChar(d: int): (c: char)
    requires 0 <= d < 10
    ensures IsDigit(c) && c as int - '0' as int == d
  {
    (d + '0' as int) as char
  }

  /** Decimal digits of `n`, most significant first, with no leading zero. */
  function NatToString(n: nat): (r: string)
    ensures |r| >= 1 && AllDigits(r)
    ensures r[0] != '0' || n == 0
  {
    if n < 10 then [DigitChar(n)] else NatToString(n / 10) + [DigitChar(n % 10)]
  }

  /** `${n}` for an integer `n`. */
  function IntToString(n: int): (r: string)
    ensures NoNewline(r)
  {
    if n < 0 then "-" + NatToString(-n) else NatToString(n)
  }

  function DigitsValue(s: string): nat
    requires AllDigits(s)
  {
    if |s| == 0 then 0 else DigitsValue(s[..|s| - 1]) * 10 + (s[|s| - 1] as int - '0' as int)
  }

  /** Reads back an optionally negative decimal integer; `None` for anything else. */
  function ParseInt(s: string): Option<int> {
    if |s| > 1 && s[0] == '-' && AllDigits(s[1..]) then Some(-(DigitsValue(s[1..]) as int))
    else if |s| > 0 && AllDigits(s) then Some(DigitsValue(s))
    else None
  }

  lemma {:induction false} DigitsValueOfNat(n: nat)
    ensures DigitsValue(NatToString(n)) == n
  {
    if n >= 10 {
      var r := NatToString(n);
      assert r[..|r| - 1] == NatToString(n / 10);
      DigitsValueOfNat(n / 10);
    }
  }

  /** Rendering an integer and reading it back is the identity. */
  lemma ParseIntToString(n: int)
    ensures ParseInt(IntToString(n)) == Some(n)
  {
    var t := IntToString(n);
    if n < 0 {
      var d := NatToString(-n);
      assert t == "-" + d;
      assert t[0] == '-' && t[1..] == d && |t| > 1;
      DigitsValueOfNat(-n);
      assert DigitsValue(t[1..]) == -n;
    } else {
      assert t == NatToString(n);
      assert t[0] != '-' by { assert IsDigit(t[0]); }
      DigitsValueOfNat(n);
    }
  }

  /** Comma-grouped thousands: the last three digits follow the last comma. */
  function GroupThousands(digits: string): string
    decreases |digits|
  {
    if |digits| <= 3 then digits
    else GroupThousands(digits[..|digits| - 3]) + "," + digits[|digits| - 3..]
  }

  function RemoveCommas(s: string): string {
    if |s| == 0 then "" else (if s[0] == ',' then "" else [s[0]]) + RemoveCommas(s[1..])
  }

  lemma {:induction false} RemoveCommasAppend(a: string, b: string)
    ensures RemoveCommas(a + b) == RemoveCommas(a) + RemoveCommas(b)
  {
    if |a| > 0 {
      assert (a + b)[1..] == a[1..] + b;
      RemoveCommasAppend(a[1..], b);
    } else {
      assert a + b == b;
    }
  }

  lemma {:induction false} RemoveCommasOfDigits(s: string)
    requires AllDigits(s)
    ensures RemoveCommas(s) == s
  {
    if |s| > 0 {
      RemoveCommasOfDigits(s[1..]);
      assert [s[0]] + s[1..] == s;
    }
  }

  /** Dropping the grouping commas gives the plain digits back. */
  lemma {:induction false} GroupThousandsDigits(digits: string)
    requires AllDigits(digits)
    ensures RemoveCommas(GroupThousands(digits)) == digits
    decreases |digits|
  {
    if |digits| <= 3 {
      RemoveCommasOfDigits(digits);
    } else {
      var hi, lo := digits[..|digits| - 3], digits[|digits| - 3..];
      GroupThousandsDigits(hi);
      RemoveCommasAppend(GroupThousands(hi) + ",", lo);
      RemoveCommasAppend(GroupThousands(hi), ",");
      RemoveCommasOfDigits(lo);
      assert hi + lo == digits;
    }
  }

  /** `n.toLocaleString('en-US', {style: 'currency', currency: 'USD', maximumFractionDigits: 0})`
      for an integer `n`. */
  function FormatUSD(n: int): string {
    if n < 0 then "-$" + GroupThousands(NatToString(-n)) else "$" + GroupThousands(NatToString(n))
  }

  /** The currency text of a non-negative amount is "$" and its digits, with grouping commas. */
  lemma FormatUSDDigits(n: nat)
    ensures FormatUSD(n)[0] == '$'
    ensures RemoveCommas(FormatUSD(n)[1..]) == NatToString(n)
  {
    assert FormatUSD(n)[1..] == GroupThousands(NatToString(n));
    GroupThousandsDigits(NatToString(n));
  }

  // ---------------------------------------------------------------------------
  // Substrings

  /** `s.includes(sub)`. */
  predicate Contains(s: string, sub: string) {
    exists i | 0 <= i <= |s| :: sub <= s[i..]
  }

  /** `line.startsWith(prefix)`, giving the text after the prefix. */
  function AfterPrefix(prefix: string, line: string): (r: Option<string>)
    ensures r.Some? <==> prefix <= line
    ensures r.Some? ==> line == prefix + r.value
  {
    if prefix <= line then Some(line[|prefix|..]) else None
  }

  /** The first `k` lines of a joined text come back from `Split` when none of them holds a
      line break. */
  lemma SplitJoinTake(lines: seq<string>, k: nat)
    requires 0 < k <= |lines| && AllNoNewline(lines[..k])
    ensures |Split(Join(lines))| >= k
    ensures Split(Join(lines))[..k] == lines[..k]
  {
    assert lines == lines[..k] + lines[k..];
    SplitJoinHead(lines[..k], lines[k..]);
  }

  /** A prefix no longer than `x` of `x + y` is a prefix of `x`. */
  lemma TakeAppend<T>(x: seq<T>, y: seq<T>, k: nat)
    requires k <= |x|
    ensures (x + y)[..k] == x[..k]
  {
  }

  lemma AllNoNewlineAppend(a: seq<string>, b: seq<string>)
    requires AllNoNewline(a) && AllNoNewline(b)
    ensures AllNoNewline(a + b)
  {
    forall i | 0 <= i < |a + b| ensures NoNewline((a + b)[i]) {
      if i >= |a| { assert (a + b)[i] == b[i - |a|]; }
    }
  }

  lemma AfterPrefixOf(prefix: string, rest: string)
    ensures AfterPrefix(prefix, prefix + rest) == Some(rest)
  {
    assert (prefix + rest)[|prefix|..] == rest;
  }

  lemma NoNewlineAppend(a: string, b: string)
    requires NoNewline(a) && NoNewline(b)
    ensures NoNewline(a + b)
  {
    forall k | 0 <= k < |a + b| ensures (a + b)[k] != '\n' {
      if k >= |a| { assert (a + b)[k] == b[k - |a|]; }
    }
  }
}
