/**
 * The parts of java.lang.String and java.lang.Integer that the client's
 * packet parsing relies on, stated over Dafny strings.
 */
module JavaText {
  import opened Wrappers

  // ---------------------------------------------------------------------
  // toUpperCase / startsWith / indexOf
  // ---------------------------------------------------------------------

  /** String.toUpperCase for one character, restricted to the ASCII letters. */
  function UpperChar(c: char): char
  {
    if 'a' <= c <= 'z' then (c as int - 32) as char else c
  }

  function Upper(s: string): (u: string)
    ensures |u| == |s|
    ensures forall i :: 0 <= i < |s| ==> u[i] == UpperChar(s[i])
  {
    seq(|s|, i requires 0 <= i < |s| => UpperChar(s[i]))
  }

  predicate StartsWith(s: string, p: string)
  {
    |p| <= |s| && s[..|p|] == p
  }

  /** `t` occurs in `s` starting at index `i`. */
  predicate OccursAt(s: string, t: string, i: int)
  {
    0 <= i && i + |t| <= |s| && s[i..i + |t|] == t
  }

  /** String.indexOf(t, k): the first occurrence at or after `k`, or -1. */
  function IndexFrom(s: string, t: string, k: nat): (r: int)
    decreases |s| - k
    ensures r == -1 || (k <= r && r + |t| <= |s|)
  {
    if k + |t| > |s| then -1
    else if s[k..k + |t|] == t then k
    else IndexFrom(s, t, k + 1)
  }

  /** IndexFrom finds the first occurrence at or after `k`, and -1 means there is none. */
  lemma {:induction false} IndexFromFirst(s: string, t: string, k: nat)
    decreases |s| - k
    ensures var r := IndexFrom(s, t, k);
      && (r == -1 ==> forall i :: k <= i ==> !OccursAt(s, t, i))
      && (r >= 0 ==> OccursAt(s, t, r) && forall i :: k <= i < r ==> !OccursAt(s, t, i))
  {
    if k + |t| <= |s| && s[k..k + |t|] != t {
      IndexFromFirst(s, t, k + 1);
    }
  }

  /** String.indexOf(t): the first occurrence of `t` in `s`, or -1 when there is none. */
  function IndexOf(s: string, t: string): (r: int)
    ensures r == -1 || (0 <= r && r + |t| <= |s|)
  {
    IndexFrom(s, t, 0)
  }

  lemma IndexOfFirst(s: string, t: string)
    ensures IndexOf(s, t) == -1 <==> forall i :: !OccursAt(s, t, i)
    ensures IndexOf(s, t) >= 0 ==>
      OccursAt(s, t, IndexOf(s, t)) && forall i :: 0 <= i < IndexOf(s, t) ==> !OccursAt(s, t, i)
  {
    IndexFromFirst(s, t, 0);
  }

  predicate Contains(s: string, t: string)
  {
    IndexOf(s, t) >= 0
  }

  /** The first occurrence is unique: any index with the two defining properties is it. */
  lemma IndexOfUnique(s: string, t: string, i: int)
    requires OccursAt(s, t, i)
    requires forall j :: 0 <= j < i ==> !OccursAt(s, t, j)
    ensures IndexOf(s, t) == i
  {
    IndexOfFirst(s, t);
  }

  // ---------------------------------------------------------------------
  // Values inside "key=value||key=value" packets
  // ---------------------------------------------------------------------

  const Sep := "||"

  /**
   * The client's value cut: keep the text before the first "||", but only
   * when that separator is not at index 0 (`if (y > 0) d = d.substring(0, y)`).
   */
  function CutAtSep(d: string): (v: string)
    ensures StartsWith(d, v)
    ensures v == d <==> IndexOf(d, Sep) <= 0
  {
    var y := IndexOf(d, Sep);
    if y > 0 then d[..y] else d
  }

  /**
   * A cut value ends just before the first separator of the text, so it
   * never holds a separator, unless the text began with one.
   */
  lemma CutHasNoSep(d: string)
    requires !StartsWith(d, Sep)
    ensures !Contains(CutAtSep(d), Sep)
    ensures CutAtSep(d) != d ==> OccursAt(d, Sep, |CutAtSep(d)|)
  {
    IndexOfFirst(d, Sep);
    var v := CutAtSep(d);
    if v == d {
      assert !OccursAt(d, Sep, 0);
    } else {
      forall j | 0 <= j ensures !OccursAt(v, Sep, j) {
        if j + 2 <= |v| {
          assert v[j..j + 2] == d[j..j + 2];
          assert !OccursAt(d, Sep, j);
        }
      }
    }
    IndexOfFirst(v, Sep);
  }

  /** Position of `key` in the upper-cased packet (`packet.toUpperCase().indexOf(key)`). */
  function KeyIndex(packet: string, key: string): (r: int)
    ensures r >= 0 ==> r + |key| <= |packet|
  {
    IndexOf(Upper(packet), key)
  }

  /** The value cut from just after `key`, when the key is found at an index >= 0. */
  function Field(packet: string, key: string): (v: Option<string>)
    ensures v.Some? <==> Contains(Upper(packet), key)
    ensures v.Some? ==> StartsWith(packet[KeyIndex(packet, key) + |key|..], v.value)
  {
    var r := KeyIndex(packet, key);
    if r >= 0 then Some(CutAtSep(packet[r + |key|..])) else None
  }

  /** As Field, but the key must be found at an index > 0 (`if (r > 0)`). */
  function FieldPastStart(packet: string, key: string): (v: Option<string>)
    ensures v.Some? <==> KeyIndex(packet, key) > 0
    ensures v.Some? ==> v == Field(packet, key)
  {
    var r := KeyIndex(packet, key);
    if r > 0 then Some(CutAtSep(packet[r + |key|..])) else None
  }

  /** The value cut from the start of `key` itself, so the "key=" prefix stays. */
  function FieldWithKey(packet: string, key: string): (v: Option<string>)
    ensures v.Some? <==> Contains(Upper(packet), key)
    ensures v.Some? ==> StartsWith(packet[KeyIndex(packet, key)..], v.value)
  {
    var r := KeyIndex(packet, key);
    if r >= 0 then Some(CutAtSep(packet[r..])) else None
  }

  /**
   * A value taken from the start of its key keeps the key: the first "||"
   * cannot fall inside the key, which holds no '|'.
   */
  lemma FieldWithKeyKeepsKey(packet: string, key: string)
    requires '|' !in key && Contains(Upper(packet), key)
    ensures var v := FieldWithKey(packet, key).value;
      |key| <= |v| && Upper(v[..|key|]) == key
  {
    var r := KeyIndex(packet, key);
    IndexOfFirst(Upper(packet), key);
    var d := packet[r..];
    forall j | 0 <= j < |key| ensures d[j] != '|' && UpperChar(d[j]) == key[j] {
      assert Upper(packet)[r + j] == key[j];
    }
    CutKeepsHead(d, |key|);
    var v := CutAtSep(d);
    assert v[..|key|] == d[..|key|];
    forall i | 0 <= i < |key| ensures Upper(v[..|key|])[i] == key[i] {
      assert v[i] == d[i];
    }
  }

  /** Cutting at the first "||" keeps a head of the text that holds no '|'. */
  lemma CutKeepsHead(d: string, n: nat)
    requires n <= |d| && forall j :: 0 <= j < n ==> d[j] != '|'
    ensures n <= |CutAtSep(d)| && CutAtSep(d)[..n] == d[..n]
  {
    var y := IndexOf(d, Sep);
    IndexOfFirst(d, Sep);
    if y >= 0 {
      assert d[y..y + 2] == Sep;
      assert d[y] == '|';
    }
  }

  /** Everything after `key` to the end of the packet (`packet.substring(r + key.length())`). */
  function RestAfter(packet: string, key: string): (v: Option<string>)
    ensures v.Some? <==> Contains(Upper(packet), key)
    ensures v.Some? ==> |packet| == KeyIndex(packet, key) + |key| + |v.value|
  {
    var r := KeyIndex(packet, key);
    if r >= 0 then Some(packet[r + |key|..]) else None
  }

  // ---------------------------------------------------------------------
  // Integer.parseInt and Integer.toString
  // ---------------------------------------------------------------------

  const IntMin: int := -0x8000_0000
  const IntMax: int := 0x7fff_ffff

  predicate IsInt32(n: int) { IntMin <= n <= IntMax }

  /** Java's 32-bit `int` result of an arithmetic operation. */
  function Wrap32(n: int): (r: int)
    ensures IsInt32(r)
    ensures (r - n) % 0x1_0000_0000 == 0
    ensures IsInt32(n) ==> r == n
  {
    (n - IntMin) % 0x1_0000_0000 + IntMin
  }

  predicate IsDigit(c: char) { '0' <= c <= '9' }

  predicate AllDigits(s: string) { forall i :: 0 <= i < |s| ==> IsDigit(s[i]) }

  /** The value of a string of decimal digits, most significant first. */
  function DigitsValue(ds: string): nat
    requires AllDigits(ds)
  {
    if |ds| == 0 then 0
    else
      assert IsDigit(ds[|ds| - 1]);
      10 * DigitsValue(ds[..|ds| - 1]) + (ds[|ds| - 1] as int - '0' as int)
  }

  /**
   * Integer.parseInt: an optional '+' or '-', then at least one ASCII digit,
   * and a value that fits in 32 bits; anything else is a NumberFormatException.
   */
  function ParseInt(s: string): (r: Option<int>)
    ensures r.Some? ==> IsInt32(r.value)
    ensures r.Some? ==> |s| > 0 && (IsDigit(s[0]) || s[0] == '-' || s[0] == '+')
    ensures |s| > 0 && AllDigits(s) && DigitsValue(s) <= IntMax ==> r == Some(DigitsValue(s))
  {
    if |s| == 0 then None
    else
      var signed := s[0] == '-' || s[0] == '+';
      var ds := if signed then s[1..] else s;
      if |ds| == 0 || !AllDigits(ds) then None
      else
        var v: int := if s[0] == '-' then -(DigitsValue(ds) as int) else DigitsValue(ds);
        if IsInt32(v) then Some(v) else None
  }

  function DigitChar(d: nat): char
    requires d < 10
  {
    ('0' as int + d) as char
  }

  /** Integer.toString of a non-negative value. */
  function NatDecimal(n: nat): (s: string)
    ensures |s| > 0 && AllDigits(s)
    decreases n
  {
    if n < 10 then [DigitChar(n)] else NatDecimal(n / 10) + [DigitChar(n % 10)]
  }

  /** Integer.toString (an int concatenated into a String). */
  function Decimal(n: int): (s: string)
    ensures |s| > 0
  {
    if n < 0 then "-" + NatDecimal(-n) else NatDecimal(n)
  }

  lemma {:induction false} NatDecimalValue(n: nat)
    ensures DigitsValue(NatDecimal(n)) == n
    decreases n
  {
    var s := NatDecimal(n);
    if n >= 10 {
      NatDecimalValue(n / 10);
      assert s[..|s| - 1] == NatDecimal(n / 10);
    }
  }

  /** Integer.parseInt reads back what Integer.toString wrote, for every int. */
  lemma ParseDecimal(n: int)
    requires IsInt32(n)
    ensures ParseInt(Decimal(n)) == Some(n)
  {
    if n < 0 {
      NatDecimalValue(-n);
      var s := Decimal(n);
      assert s[1..] == NatDecimal(-n);
    } else {
      NatDecimalValue(n);
    }
  }

  /** Integer.toString writes only digits and a leading minus sign. */
  lemma DecimalAlphabet(n: int)
    ensures forall i :: 0 <= i < |Decimal(n)| ==> IsDigit(Decimal(n)[i]) || Decimal(n)[i] == '-'
  {
    var s := Decimal(n);
    if n < 0 {
      assert s[1..] == NatDecimal(-n);
      assert forall i :: 1 <= i < |s| ==> s[i] == s[1..][i - 1];
    }
  }

  // ---------------------------------------------------------------------
  // String.split on a one-character literal, and String.trim
  // ---------------------------------------------------------------------

  /** No occurrence of the one-character string [c] before `i` means `c` is not in s[..i]. */
  lemma CharAbsentBefore(s: string, c: char, i: int)
    requires 0 <= i <= |s|
    requires forall j :: 0 <= j < i ==> !OccursAt(s, [c], j)
    ensures c !in s[..i]
  {
    forall j | 0 <= j < i ensures s[j] != c {
      assert s[j..j + 1] == [s[j]];
      assert !OccursAt(s, [c], j);
    }
  }

  /** Every piece between occurrences of `c`, empty pieces included. */
  function Pieces(s: string, c: char): (parts: seq<string>)
    ensures |parts| >= 1
    ensures forall k :: 0 <= k < |parts| ==> c !in parts[k]
    decreases |s|
  {
    var i := IndexOf(s, [c]);
    IndexOfFirst(s, [c]);
    if i < 0 then
      CharAbsentBefore(s, c, |s|);
      [s]
    else
      CharAbsentBefore(s, c, i);
      [s[..i]] + Pieces(s[i + 1..], c)
  }

  lemma CharNotFound(b: string, c: char)
    requires c !in b
    ensures IndexOf(b, [c]) == -1
  {
    forall i ensures !OccursAt(b, [c], i) {
      if 0 <= i && i + 1 <= |b| {
        assert b[i..i + 1] == [b[i]];
      }
    }
    IndexOfFirst(b, [c]);
  }

  lemma FirstCharAt(a: string, b: string, c: char)
    requires c !in a
    ensures IndexOf(a + [c] + b, [c]) == |a|
  {
    var s := a + [c] + b;
    assert s[|a|..|a| + 1] == [c];
    forall j | 0 <= j < |a| ensures !OccursAt(s, [c], j) {
      assert s[j..j + 1] == [a[j]];
    }
    IndexOfUnique(s, [c], |a|);
  }

  /** The first piece ends at the first `c`. */
  lemma PiecesAtFirst(a: string, b: string, c: char)
    requires c !in a
    ensures Pieces(a + [c] + b, c) == [a] + Pieces(b, c)
  {
    var s := a + [c] + b;
    FirstCharAt(a, b, c);
    assert s[..|a|] == a && s[|a| + 1..] == b;
  }

  lemma PiecesOfTwo(a: string, b: string, c: char)
    requires c !in a && c !in b
    ensures Pieces(a + [c] + b, c) == [a, b]
  {
    PiecesAtFirst(a, b, c);
    CharNotFound(b, c);
  }

  /** Splitting "a" + c + "b" on c, with b not empty, gives the two parts. */
  lemma SplitOfTwo(a: string, b: string, c: char)
    requires c !in a && c !in b && b != ""
    ensures Split(a + [c] + b, c) == [a, b]
  {
    PiecesOfTwo(a, b, c);
    assert (a + [c] + b)[|a|] == c;
  }

  /** The inverse of Pieces: join the pieces with `c`. */
  function JoinWith(parts: seq<string>, c: char): string
    requires |parts| >= 1
  {
    if |parts| == 1 then parts[0] else parts[0] + [c] + JoinWith(parts[1..], c)
  }

  lemma {:induction false} JoinPieces(s: string, c: char)
    ensures JoinWith(Pieces(s, c), c) == s
    decreases |s|
  {
    var i := IndexOf(s, [c]);
    IndexOfFirst(s, [c]);
    if i >= 0 {
      JoinPieces(s[i + 1..], c);
      assert s[i..i + 1] == [c];
      assert s == s[..i] + [c] + s[i + 1..];
    }
  }

  function DropTrailingEmpty(parts: seq<string>): (r: seq<string>)
    ensures |r| <= |parts| && r == parts[..|r|]
    ensures |r| > 0 ==> r[|r| - 1] != ""
    ensures forall k :: |r| <= k < |parts| ==> parts[k] == ""
  {
    if |parts| == 0 then []
    else if parts[|parts| - 1] == "" then DropTrailingEmpty(parts[..|parts| - 1])
    else parts
  }

  /**
   * String.split on a literal one-character pattern: the input itself when
   * the character does not occur, otherwise the pieces without trailing empties.
   */
  function Split(s: string, c: char): (r: seq<string>)
    ensures c !in s ==> r == [s]
    ensures forall k :: 0 <= k < |r| ==> c !in r[k]
  {
    if c !in s then [s] else DropTrailingEmpty(Pieces(s, c))
  }

  predicate IsTrimmed(c: char) { c as int <= 0x20 }

  function TrimStart(s: string): (r: string)
    ensures |r| <= |s| && r == s[|s| - |r|..]
    ensures |r| > 0 ==> !IsTrimmed(r[0])
  {
    if |s| > 0 && IsTrimmed(s[0]) then TrimStart(s[1..]) else s
  }

  function TrimEnd(s: string): (r: string)
    ensures |r| <= |s| && r == s[..|r|]
    ensures |r| > 0 ==> !IsTrimmed(r[|r| - 1])
  {
    if |s| > 0 && IsTrimmed(s[|s| - 1]) then TrimEnd(s[..|s| - 1]) else s
  }

  /** String.trim: drop every leading and trailing character at or below U+0020. */
  function Trim(s: string): (r: string)
    ensures |r| <= |s|
    ensures |r| > 0 ==> !IsTrimmed(r[0]) && !IsTrimmed(r[|r| - 1])
  {
    TrimEnd(TrimStart(s))
  }

  // ---------------------------------------------------------------------
  // Replacing every occurrence of a marker by one character
  // ---------------------------------------------------------------------

  /** Left-to-right replacement of each occurrence of `pat` by the character `c`. */
  function ReplaceAll(s: string, pat: string, c: char): string
    requires |pat| > 0
    decreases |s|
  {
    if |s| < |pat| then s
    else if s[..|pat|] == pat then [c] + ReplaceAll(s[|pat|..], pat, c)
    else [s[0]] + ReplaceAll(s[1..], pat, c)
  }

  /** `i` is the first position at which `pat` occurs in `s` (what indexOf returns). */
  predicate FirstAt(s: string, pat: string, i: int)
  {
    OccursAt(s, pat, i) && forall j :: 0 <= j < i ==> !OccursAt(s, pat, j)
  }

  lemma IndexOfIsFirstAt(s: string, pat: string)
    requires Contains(s, pat)
    ensures FirstAt(s, pat, IndexOf(s, pat))
  {
    IndexOfFirst(s, pat);
  }

  // Helper: regrouping a character prepended to a concatenation.
  lemma ConsAssoc(x: char, a: string, b: string)
    ensures [x] + (a + b) == ([x] + a) + b
  {
  }

  /** A window that covers a character absent from `pat` is not an occurrence of `pat`. */
  lemma WindowCoversForeignChar(t: string, pat: string, j: int, i: int, c: char)
    requires 0 <= j <= i < j + |pat| <= |t| && t[i] == c && c !in pat
    ensures !OccursAt(t, pat, j)
  {
    assert t[j..j + |pat|][i - j] == c;
  }

  lemma TailStaysClear(p: string, q: string, pat: string)
    requires |p| > 0 && forall j :: 0 <= j < |p| ==> !OccursAt(p + q, pat, j)
    ensures forall j :: 0 <= j < |p[1..]| ==> !OccursAt(p[1..] + q, pat, j)
  {
    var s := p + q;
    assert p[1..] + q == s[1..];
    forall j | 0 <= j < |p[1..]| ensures !OccursAt(p[1..] + q, pat, j) {
      assert !OccursAt(s, pat, j + 1);
      if j + |pat| <= |p[1..] + q| {
        assert (p[1..] + q)[j..j + |pat|] == s[j + 1..j + 1 + |pat|];
      }
    }
  }

  /** A first character that starts no occurrence is copied. */
  lemma ReplaceAllNoMatchHead(s: string, pat: string, c: char)
    requires |pat| > 0 && |s| > 0 && !OccursAt(s, pat, 0)
    ensures ReplaceAll(s, pat, c) == [s[0]] + ReplaceAll(s[1..], pat, c)
  {
    if |s| < |pat| {
      assert ReplaceAll(s[1..], pat, c) == s[1..];
    } else {
      assert s[..|pat|] == s[0..|pat|];
    }
  }

  /** An occurrence at the start is replaced by `c`, and the rewriting resumes after it. */
  lemma ReplaceAllAtStart(q: string, pat: string, c: char)
    requires |pat| > 0 && OccursAt(q, pat, 0)
    ensures ReplaceAll(q, pat, c) == [c] + ReplaceAll(q[|pat|..], pat, c)
  {
    assert q[..|pat|] == q[0..|pat|];
  }

  /** A prefix in which no occurrence starts is copied unchanged. */
  lemma {:induction false} ReplaceAllPastPrefix(p: string, q: string, pat: string, c: char)
    requires |pat| > 0 && forall j :: 0 <= j < |p| ==> !OccursAt(p + q, pat, j)
    ensures ReplaceAll(p + q, pat, c) == p + ReplaceAll(q, pat, c)
    decreases |p|
  {
    if p == [] {
      assert p + q == q;
    } else {
      assert !OccursAt(p + q, pat, 0);
      ReplaceAllNoMatchHead(p + q, pat, c);
      assert (p + q)[1..] == p[1..] + q;
      TailStaysClear(p, q, pat);
      ReplaceAllPastPrefix(p[1..], q, pat, c);
      ConsAssoc(p[0], p[1..], ReplaceAll(q, pat, c));
      assert [p[0]] + p[1..] == p;
    }
  }

  lemma ReplaceAllPastClearPrefix(s: string, pat: string, c: char, i: nat)
    requires |pat| > 0 && i <= |s| && forall j :: 0 <= j < i ==> !OccursAt(s, pat, j)
    ensures ReplaceAll(s, pat, c) == s[..i] + ReplaceAll(s[i..], pat, c)
  {
    assert s == s[..i] + s[i..];
    ReplaceAllPastPrefix(s[..i], s[i..], pat, c);
  }

  /** ReplaceAll copies the text up to the first occurrence and puts `c` in its place. */
  lemma ReplaceAllAtFirst(s: string, pat: string, c: char, i: nat)
    requires |pat| > 0 && FirstAt(s, pat, i)
    ensures ReplaceAll(s, pat, c) == s[..i] + ([c] + ReplaceAll(s[i + |pat|..], pat, c))
  {
    ReplaceAllPastClearPrefix(s, pat, c, i);
    assert s[i..][0..|pat|] == s[i..i + |pat|];
    ReplaceAllAtStart(s[i..], pat, c);
    assert s[i..][|pat|..] == s[i + |pat|..];
  }

  /** Text in which the marker does not occur is left as it is. */
  lemma ReplaceAllWithoutMarker(s: string, pat: string, c: char)
    requires |pat| > 0 && forall j :: !OccursAt(s, pat, j)
    ensures ReplaceAll(s, pat, c) == s
  {
    ReplaceAllPastClearPrefix(s, pat, c, |s|);
    assert s[..|s|] == s;
  }

  /** A character absent from `pat`, in front, is copied. */
  lemma ReplaceAllForeignHead(c: char, rest: string, pat: string)
    requires |pat| > 0 && c !in pat
    ensures ReplaceAll([c] + rest, pat, c) == [c] + ReplaceAll(rest, pat, c)
  {
    var q := [c] + rest;
    assert q[1..] == rest;
    if |pat| <= |q| {
      WindowCoversForeignChar(q, pat, 0, 0, c);
      assert q[..|pat|] != pat;
    } else {
      assert ReplaceAll(rest, pat, c) == rest;
    }
  }

  lemma PrefixClear(s: string, pat: string, c: char, i: nat, p: string, q: string)
    requires |pat| > 0 && c !in pat && FirstAt(s, pat, i)
    requires p == s[..i] && q == [c] + s[i + |pat|..]
    ensures forall j :: 0 <= j < |p| ==> !OccursAt(p + q, pat, j)
  {
    forall j | 0 <= j < |p| ensures !OccursAt(p + q, pat, j) {
      if j + |pat| <= |p + q| {
        if j + |pat| <= i {
          assert (p + q)[j..j + |pat|] == s[j..j + |pat|];
          assert !OccursAt(s, pat, j);
        } else {
          WindowCoversForeignChar(p + q, pat, j, i, c);
        }
      }
    }
  }

  /**
   * One step of the in-place loop: replacing only the first occurrence and
   * then replacing all occurrences of the result gives ReplaceAll.
   */
  lemma ReplaceFirstStep(s: string, pat: string, c: char, i: nat)
    requires |pat| > 0 && c !in pat && FirstAt(s, pat, i)
    ensures ReplaceAll(s[..i] + ([c] + s[i + |pat|..]), pat, c) == ReplaceAll(s, pat, c)
  {
    PrefixClear(s, pat, c, i, s[..i], [c] + s[i + |pat|..]);
    ReplaceAllPastPrefix(s[..i], [c] + s[i + |pat|..], pat, c);
    ReplaceAllForeignHead(c, s[i + |pat|..], pat);
    ReplaceAllAtFirst(s, pat, c, i);
  }

  lemma JoinStaysClear(a: string, c: char, b: string, pat: string)
    requires c !in pat
    requires forall j :: !OccursAt(a, pat, j)
    requires forall j :: !OccursAt(b, pat, j)
    ensures forall j :: !OccursAt(a + ([c] + b), pat, j)
  {
    var t := a + ([c] + b);
    forall j ensures !OccursAt(t, pat, j) {
      if 0 <= j && j + |pat| <= |t| {
        if j + |pat| <= |a| {
          assert t[j..j + |pat|] == a[j..j + |pat|];
          assert !OccursAt(a, pat, j);
        } else if j <= |a| {
          WindowCoversForeignChar(t, pat, j, |a|, c);
        } else {
          var k := j - |a| - 1;
          assert t[j..j + |pat|] == b[k..k + |pat|];
          assert !OccursAt(b, pat, k);
        }
      }
    }
  }

  lemma PrefixBeforeFirstClear(s: string, pat: string, i: nat)
    requires |pat| > 0 && FirstAt(s, pat, i)
    ensures forall j :: !OccursAt(s[..i], pat, j)
  {
    forall j ensures !OccursAt(s[..i], pat, j) {
      if 0 <= j && j + |pat| <= i {
        assert s[..i][j..j + |pat|] == s[j..j + |pat|];
        assert !OccursAt(s, pat, j);
      }
    }
  }

  /** After ReplaceAll no occurrence of the marker is left, when `c` is not part of it. */
  lemma {:induction false} ReplaceAllRemovesMarker(s: string, pat: string, c: char)
    requires |pat| > 0 && c !in pat
    ensures forall j :: !OccursAt(ReplaceAll(s, pat, c), pat, j)
    decreases |s|
  {
    IndexOfFirst(s, pat);
    if IndexOf(s, pat) == -1 {
      ReplaceAllWithoutMarker(s, pat, c);
    } else {
      var i := IndexOf(s, pat);
      var rest := s[i + |pat|..];
      ReplaceAllAtFirst(s, pat, c, i);
      PrefixBeforeFirstClear(s, pat, i);
      ReplaceAllRemovesMarker(rest, pat, c);
      JoinStaysClear(s[..i], c, ReplaceAll(rest, pat, c), pat);
    }
  }
}
