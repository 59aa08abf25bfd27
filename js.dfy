/** The few JavaScript string operations the handlers rely on:
    `toLowerCase` (for ASCII letters), `trim`, `includes`, `split(",")` and
    `join(",")`. */
module Js {

  /** JavaScript's white space and line terminators: what `\s` matches
      and what `trim` removes. */
  predicate IsSpace(c: char) {
    c == ' ' || ('\t' <= c <= '\r') || c == '\U{00A0}' || c == '\U{1680}' ||
    ('\U{2000}' <= c <= '\U{200A}') || c == '\U{2028}' || c == '\U{2029}' ||
    c == '\U{202F}' || c == '\U{205F}' || c == '\U{3000}' || c == '\U{FEFF}'
  }

  function LowerChar(c: char): char {
    if 'A' <= c <= 'Z' then (c as int + 32) as char else c
  }

  function ToLower(s: string): (r: string)
    ensures |r| == |s|
    ensures forall i :: 0 <= i < |s| ==> r[i] == LowerChar(s[i])
  {
    seq(|s|, i requires 0 <= i < |s| => LowerChar(s[i]))
  }

  /** `s.trim()`: drops leading and trailing white space. The result is no
      longer than `s` and neither starts nor ends with white space. */
  function Trim(s: string): (r: string)
    ensures |r| <= |s|
    ensures |r| > 0 ==> !IsSpace(r[0]) && !IsSpace(r[|r| - 1])
    decreases |s|
  {
    if |s| > 0 && IsSpace(s[0]) then Trim(s[1..])
    else if |s| > 0 && IsSpace(s[|s| - 1]) then Trim(s[..|s| - 1])
    else s
  }

  /** What a Mongoose string path declared `trim: true, lowercase: true`
      stores, and what a query on that path is compared against. */
  function Normalize(s: string): string {
    ToLower(Trim(s))
  }

  /** Lower-casing never creates or removes white space. */
  lemma LowerCharSpace(c: char)
    ensures IsSpace(LowerChar(c)) <==> IsSpace(c)
  {
  }

  /** A string that is already trimmed is left alone by `trim`. */
  lemma TrimTrimmed(s: string)
    requires |s| > 0 ==> !IsSpace(s[0]) && !IsSpace(s[|s| - 1])
    ensures Trim(s) == s
  {
  }

  /** Storing a normalised value and normalising it again for a query
      changes nothing: the stored and queried forms agree. */
  lemma NormalizeIdempotent(s: string)
    ensures Normalize(Normalize(s)) == Normalize(s)
  {
    var t := Trim(s);
    var l := ToLower(t);
    if |t| > 0 {
      LowerCharSpace(t[0]);
      LowerCharSpace(t[|t| - 1]);
    }
    TrimTrimmed(l);
    assert ToLower(l) == l;
  }

  /** `s.includes(t)`. */
  predicate Includes(s: string, t: string) {
    exists i | 0 <= i <= |s| - |t| :: OccursAt(s, t, i)
  }

  predicate OccursAt(s: string, t: string, i: int) {
    0 <= i <= |s| - |t| && s[i..i + |t|] == t
  }

  /** Case-insensitive `includes`, the way the admin tables search. */
  predicate IncludesIgnoringCase(s: string, t: string) {
    Includes(ToLower(s), ToLower(t))
  }

  lemma IncludesEmpty(s: string)
    ensures Includes(s, "")
  {
    assert OccursAt(s, "", 0);
  }

  /** Index of the first `c` in `s`, or `|s|` when there is none. */
  function FirstOf(s: string, c: char): (i: nat)
    ensures i <= |s|
    ensures i < |s| ==> s[i] == c
    ensures forall j :: 0 <= j < i ==> s[j] != c
  {
    if |s| == 0 then 0
    else if s[0] == c then 0
    else 1 + FirstOf(s[1..], c)
  }

  /** `s.split(sep)` for a one-character separator: always at least one
      part, and no part contains the separator. */
  function Split(s: string, sep: char): (parts: seq<string>)
    ensures |parts| >= 1
    ensures forall p :: p in parts ==> sep !in p
    decreases |s|
  {
    var i := FirstOf(s, sep);
    if i == |s| then
      assert forall j :: 0 <= j < |s| ==> s[j] != sep;
      [s]
    else
      assert forall j :: 0 <= j < i ==> s[..i][j] != sep;
      [s[..i]] + Split(s[i + 1..], sep)
  }

  /** A part of a split is a separator-free piece of the string. */
  lemma SplitNoSeparator(s: string, sep: char, p: string)
    requires p in Split(s, sep)
    ensures sep !in p
  {
  }

  /** `parts.join(sep)`. */
  function Join(parts: seq<string>, sep: char): string
  {
    if |parts| == 0 then ""
    else if |parts| == 1 then parts[0]
    else parts[0] + [sep] + Join(parts[1..], sep)
  }

  /** Joining what was split gives back the original string. */
  lemma {:induction false} JoinSplit(s: string, sep: char)
    ensures Join(Split(s, sep), sep) == s
    decreases |s|
  {
    var i := FirstOf(s, sep);
    SplitUnfold(s, sep);
    if i < |s| {
      var rest := Split(s[i + 1..], sep);
      JoinSplit(s[i + 1..], sep);
      JoinCons(s[..i], rest, sep);
      CutAt(s, i);
    }
  }

  /** One step of `Split`: the piece before the first separator, then the
      split of the rest. */
  lemma SplitUnfold(s: string, sep: char)
    ensures var i := FirstOf(s, sep);
            (i == |s| ==> Split(s, sep) == [s]) &&
            (i < |s| ==> Split(s, sep) == [s[..i]] + Split(s[i + 1..], sep))
  {
  }

  lemma CutAt(s: string, i: nat)
    requires i < |s|
    ensures s == s[..i] + [s[i]] + s[i + 1..]
  {
  }

  lemma JoinCons(head: string, rest: seq<string>, sep: char)
    requires |rest| >= 1
    ensures Join([head] + rest, sep) == head + [sep] + Join(rest, sep)
  {
    assert ([head] + rest)[1..] == rest;
  }

  /** Splitting a join of separator-free parts gives back the parts. */
  lemma {:induction false} SplitJoin(parts: seq<string>, sep: char)
    requires |parts| >= 1
    requires forall p :: p in parts ==> sep !in p
    ensures Split(Join(parts, sep), sep) == parts
    decreases |parts|
  {
    if |parts| > 1 {
      var head := parts[0];
      var tail := Join(parts[1..], sep);
      var s := head + [sep] + tail;
      assert parts == [head] + parts[1..];
      JoinCons(head, parts[1..], sep);
      FirstOfPrefix(head, sep, tail);
      SplitUnfold(s, sep);
      assert s[..|head|] == head;
      assert s[|head| + 1..] == tail;
      SplitJoin(parts[1..], sep);
    } else {
      var s := parts[0];
      assert sep !in s;
    }
  }

  lemma FirstOfPrefix(head: string, sep: char, tail: string)
    requires sep !in head
    ensures FirstOf(head + [sep] + tail, sep) == |head|
  {
    var s := head + [sep] + tail;
    assert forall j :: 0 <= j < |head| ==> s[j] == head[j];
    assert s[|head|] == sep;
  }

  /** A join is empty only for no parts or one empty part. */
  lemma {:induction false} JoinEmpty(parts: seq<string>, sep: char)
    requires forall p :: p in parts ==> p != ""
    ensures Join(parts, sep) == "" <==> parts == []
  {
    if |parts| == 1 { assert parts[0] in parts; }
    else if |parts| > 1 { assert |Join(parts, sep)| >= |parts[0]| + 1; }
  }

  // ---------------------------------------------------------------------
  // Numbers read from strings

  /** A JavaScript number as far as the handlers use one: an integer, or NaN. */
  datatype Num = NaN | Finite(value: int)
  {
    /** Truthiness: NaN and 0 are falsy. */
    predicate Truthy() { Finite? && value != 0 }
  }

  predicate IsDigit(c: char) { '0' <= c <= '9' }

  predicate AllDigits(s: string) {
    forall i :: 0 <= i < |s| ==> IsDigit(s[i])
  }

  /** The value of a string of decimal digits. */
  function DigitsValue(s: string): (n: nat)
    requires AllDigits(s)
    ensures |s| == 0 ==> n == 0
  {
    if |s| == 0 then 0
    else DigitsValue(s[..|s| - 1]) * 10 + (s[|s| - 1] as int - '0' as int)
  }

  /** How many decimal digits `s` starts with. */
  function LeadingDigits(s: string): (n: nat)
    ensures n <= |s| && AllDigits(s[..n])
    ensures n < |s| ==> !IsDigit(s[n])
  {
    if |s| > 0 && IsDigit(s[0]) then
      var n := 1 + LeadingDigits(s[1..]);
      assert forall i :: 1 <= i < n ==> s[..n][i] == s[1..][..n - 1][i - 1];
      n
    else 0
  }

  /** A signed integer literal: an optional sign and at least one digit. */
  function SignedValue(t: string): Num {
    var neg := |t| > 0 && t[0] == '-';
    var body := if |t| > 0 && (t[0] == '-' || t[0] == '+') then t[1..] else t;
    if |body| > 0 && AllDigits(body) then
      var v: int := DigitsValue(body);
      Finite(if neg then -v else v)
    else NaN
  }

  /** `Number(s)` for integer literals: surrounding white space is ignored,
      the empty string is 0, and anything that is not a signed run of digits
      is NaN. */
  function ToNumber(s: string): Num {
    var t := Trim(s);
    if t == "" then Finite(0) else SignedValue(t)
  }

  predicate IsHexDigit(c: char) {
    IsDigit(c) || 'a' <= c <= 'f' || 'A' <= c <= 'F'
  }

  function HexDigitValue(c: char): (v: nat)
    requires IsHexDigit(c)
    ensures v < 16
  {
    if IsDigit(c) then c as int - '0' as int
    else if 'a' <= c <= 'f' then c as int - 'a' as int + 10
    else c as int - 'A' as int + 10
  }

  /** The value of a string of hexadecimal digits. */
  function HexValue(s: string): nat
    requires forall i :: 0 <= i < |s| ==> IsHexDigit(s[i])
  {
    if |s| == 0 then 0
    else HexValue(s[..|s| - 1]) * 16 + HexDigitValue(s[|s| - 1])
  }

  /** How many hexadecimal digits `s` starts with. */
  function LeadingHexDigits(s: string): (n: nat)
    ensures n <= |s| && forall i :: 0 <= i < n ==> IsHexDigit(s[i])
    ensures n < |s| ==> !IsHexDigit(s[n])
  {
    if |s| > 0 && IsHexDigit(s[0]) then
      var n := 1 + LeadingHexDigits(s[1..]);
      assert forall i :: 1 <= i < n ==> s[i] == s[1..][i - 1];
      n
    else 0
  }

  /** A "0x" or "0X" prefix: `parseInt` then reads base 16. */
  predicate HexPrefixed(t: string) {
    |t| >= 2 && t[0] == '0' && (t[1] == 'x' || t[1] == 'X')
  }

  /** `parseInt(s)` without a radix: leading white space is skipped, then an
      optional sign; after a "0x" or "0X" prefix the longest run of
      hexadecimal digits is read, otherwise the longest run of decimal
      digits. NaN when that run is empty. */
  function ParseInt(s: string): (r: Num)
    ensures r.Finite? ==> exists i | 0 <= i < |s| :: IsDigit(s[i])
  {
    var t := Trim(s);
    var signed := |t| > 0 && (t[0] == '-' || t[0] == '+');
    var neg := |t| > 0 && t[0] == '-';
    var body := if signed then t[1..] else t;
    if HexPrefixed(body) then
      var h := body[2..];
      var n := LeadingHexDigits(h);
      if n == 0 then NaN
      else
        assert IsDigit(body[0]);
        TrimFindsChar(s, body[0]);
        var v: int := HexValue(h[..n]);
        Finite(if neg then -v else v)
    else
      var n := LeadingDigits(body);
      if n == 0 then NaN
      else
        assert IsDigit(body[0]);
        TrimFindsChar(s, body[0]);
        SignedValue((if signed then [t[0]] else []) + body[..n])
  }

  /** A character of the trimmed string is a character of the string. */
  lemma {:induction false} TrimFindsChar(s: string, c: char)
    requires c in Trim(s)
    ensures exists i | 0 <= i < |s| :: s[i] == c
    decreases |s|
  {
    if |s| > 0 && IsSpace(s[0]) {
      TrimFindsChar(s[1..], c);
      var i :| 0 <= i < |s[1..]| && s[1..][i] == c;
      assert s[i + 1] == c;
    } else if |s| > 0 && IsSpace(s[|s| - 1]) {
      TrimFindsChar(s[..|s| - 1], c);
      var i :| 0 <= i < |s[..|s| - 1]| && s[..|s| - 1][i] == c;
      assert s[i] == c;
    } else {
      var i :| 0 <= i < |s| && s[i] == c;
    }
  }

  lemma {:induction false} LeadingDigitsAll(s: string)
    requires AllDigits(s)
    ensures LeadingDigits(s) == |s|
  {
    if |s| > 0 {
      LeadingDigitsAll(s[1..]);
    }
  }

  lemma {:induction false} LeadingHexAll(s: string)
    requires forall i :: 0 <= i < |s| ==> IsHexDigit(s[i])
    ensures LeadingHexDigits(s) == |s|
  {
    if |s| > 0 {
      LeadingHexAll(s[1..]);
    }
  }

  /** Once trimmed, a string with a "0x" prefix and no sign is read as
      the hexadecimal digits that follow the prefix. */
  lemma ParseIntHex(s: string)
    requires HexPrefixed(Trim(s)) && LeadingHexDigits(Trim(s)[2..]) > 0
    ensures var h := Trim(s)[2..];
            ParseInt(s) == Finite(HexValue(h[..LeadingHexDigits(h)]))
  {
  }

  /** `parseInt` reads a "0x" literal in base 16. */
  lemma HexParse(h: string)
    requires |h| > 0 && forall i :: 0 <= i < |h| ==> IsHexDigit(h[i])
    ensures ParseInt("0x" + h) == Finite(HexValue(h))
  {
    var s := "0x" + h;
    assert s[0] == '0' && s[1] == 'x' && s[|s| - 1] == h[|h| - 1];
    TrimTrimmed(s);
    assert s[2..] == h;
    LeadingHexAll(h);
    assert h[..|h|] == h;
    ParseIntHex(s);
  }

  /** The digits `s` starts with stop at the first non-digit. */
  lemma {:induction false} LeadingDigitsConcat(d: string, x: string)
    requires AllDigits(d)
    requires |x| > 0 ==> !IsDigit(x[0])
    ensures LeadingDigits(d + x) == |d|
  {
    if |d| > 0 {
      assert (d + x)[1..] == d[1..] + x;
      LeadingDigitsConcat(d[1..], x);
    } else {
      assert d + x == x;
    }
  }

  /** Trimming a string that starts with `k` non-space characters keeps
      them: only a tail is cut. */
  lemma {:induction false} TrimKeepsFront(s: string, k: nat) returns (m: nat)
    requires 0 < k <= |s|
    requires forall i :: 0 <= i < k ==> !IsSpace(s[i])
    ensures k <= m <= |s| && Trim(s) == s[..m]
    decreases |s|
  {
    if IsSpace(s[|s| - 1]) {
      var init := s[..|s| - 1];
      assert forall i :: 0 <= i < k ==> init[i] == s[i];
      m := TrimKeepsFront(init, k);
      assert init[..m] == s[..m];
    } else {
      m := |s|;
    }
  }

  /** Once trimmed, a string that starts with a digit and no "0x" is read
      as the decimal digits it starts with. */
  lemma ParseIntDecimal(s: string)
    requires var t := Trim(s); |t| > 0 && IsDigit(t[0]) && !HexPrefixed(t)
    ensures var t := Trim(s);
            ParseInt(s) == SignedValue(t[..LeadingDigits(t)])
  {
    var t := Trim(s);
    assert [] + t[..LeadingDigits(t)] == t[..LeadingDigits(t)];
  }

  lemma SignedDigits(d: string)
    requires |d| > 0 && AllDigits(d)
    ensures SignedValue(d) == Finite(DigitsValue(d))
  {
    assert IsDigit(d[0]);
  }

  /** Trimming a string that starts with digits keeps the digits and cuts
      at most a tail of what follows them. */
  lemma TrimDigitsFront(d: string, rest: string) returns (tail: string)
    requires |d| > 0 && AllDigits(d)
    ensures Trim(d + rest) == d + tail
    ensures |tail| > 0 ==> |rest| > 0 && tail[0] == rest[0]
  {
    var s := d + rest;
    assert forall i :: 0 <= i < |d| ==> s[i] == d[i] && IsDigit(s[i]);
    var m := TrimKeepsFront(s, |d|);
    tail := s[|d|..m];
    assert s[..m] == d + tail;
  }

  /** `parseInt` reads the run of decimal digits a string starts with and
      ignores whatever follows it, unless that run is a lone "0" followed
      by an "x", which makes it a hexadecimal literal. */
  lemma LeadingDigitsParse(d: string, rest: string)
    requires |d| > 0 && AllDigits(d)
    requires |rest| > 0 ==> !IsDigit(rest[0])
    requires !(d == "0" && |rest| > 0 && (rest[0] == 'x' || rest[0] == 'X'))
    ensures ParseInt(d + rest) == Finite(DigitsValue(d))
  {
    var tail := TrimDigitsFront(d, rest);
    var t := d + tail;
    assert t[..|d|] == d && t[0] == d[0];
    LeadingDigitsConcat(d, tail);
    assert !HexPrefixed(t) by {
      if |d| == 1 && |tail| > 0 {
        assert t[1] == tail[0];
      }
    }
    ParseIntDecimal(d + rest);
    SignedDigits(d);
  }

  /** On a plain run of digits `Number` and `parseInt` agree. */
  lemma DigitsParse(s: string)
    requires |s| > 0 && AllDigits(s)
    ensures ToNumber(s) == ParseInt(s) == Finite(DigitsValue(s))
  {
    assert IsDigit(s[0]) && IsDigit(s[|s| - 1]);
    TrimTrimmed(s);
    SignedDigits(s);
    assert s + "" == s;
    LeadingDigitsParse(s, "");
  }
}
