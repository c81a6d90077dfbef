/**
 * The Status-Line of a SIP response (section 7.2 of RFC 3261): its
 * canonical encoding, template matching, and the major and minor numbers
 * of its SIP-Version. A Java null String is `None`.
 */
module StatusLineSpec {
  import opened Wrappers
  import opened JavaText

  const SipVersion := "SIP/2.0"
  const SP := " "
  const Newline := "\r\n"

  datatype Line = Line(
    matchStatusClass: bool,
    sipVersion: Option<string>,
    statusCode: int,
    reasonPhrase: Option<string>)

  /** What match(Object) is handed: a StatusLine used as a template, or any other object. */
  datatype MatchObject = Template(line: Line) | Other

  /** The default constructor: no reason phrase, version SIP/2.0. */
  function Default(): (l: Line)
    ensures l.reasonPhrase.None? && l.sipVersion == Some(SipVersion) && l.statusCode == 0
  {
    Line(false, Some(SipVersion), 0, None)
  }

  /** encode(): the version constant, the code and the reason phrase if any, then CRLF. */
  function Encode(l: Line): string
  {
    SipVersion + SP + Decimal(l.statusCode)
    + (if l.reasonPhrase.Some? then SP + l.reasonPhrase.value else "") + Newline
  }

  /** Reads a Status-Line back: the code up to the first SP, the rest before CRLF as the reason. */
  function Decode(s: string): Option<(int, Option<string>)>
  {
    if |s| < |SipVersion + SP| + |Newline| || s[..|SipVersion + SP|] != SipVersion + SP
       || s[|s| - |Newline|..] != Newline
    then None
    else
      DecodeBody(s[|SipVersion + SP| .. |s| - |Newline|])
  }

  /** What lies between the version and CRLF: the code, then the reason after the first SP if any. */
  function DecodeBody(body: string): Option<(int, Option<string>)>
  {
    var i := IndexOf(body, SP);
    var code := ParseInt(if i < 0 then body else body[..i]);
    if code.None? then None
    else Some((code.value, if i < 0 then None else Some(body[i + 1..])))
  }

  /** The leading character of the decimal status code: its class when the code has three digits. */
  function LeadingChar(code: int): char
  {
    Decimal(code)[0]
  }

  /** The version and code tests of match(): a null version and a zero code are wildcards. */
  predicate VersionAndCodeMatch(l: Line, t: Line)
  {
    && (t.sipVersion.None? || t.sipVersion == l.sipVersion)
    && (t.statusCode == 0
        || (if l.matchStatusClass then LeadingChar(t.statusCode) == LeadingChar(l.statusCode)
            else l.statusCode == t.statusCode))
  }

  /**
   * match(obj) as written: `None` where it throws, which is when this line
   * has no reason phrase and the template has one (null.equals(...)).
   */
  function MatchAsWritten(l: Line, obj: MatchObject): Option<bool>
  {
    if obj.Other? then Some(false)
    else
      var t := obj.line;
      if !VersionAndCodeMatch(l, t) then Some(false)
      else if t.reasonPhrase.None? then Some(true)
      else if l.reasonPhrase.None? then None
      else Some(l.reasonPhrase == t.reasonPhrase)
  }

  /** match(obj) with a missing reason phrase taken as not matching the template's. */
  function Match(l: Line, obj: MatchObject): bool
  {
    && obj.Template?
    && VersionAndCodeMatch(l, obj.line)
    && (obj.line.reasonPhrase.None? || l.reasonPhrase == obj.line.reasonPhrase)
  }

  /**
   * The scan of getVersionMajor over a prefix: the characters collected so
   * far, and whether a '/' has been seen since the last '.'.
   */
  function MajorScan(p: string): (string, bool)
  {
    if |p| == 0 then ("", false)
    else
      var prev := MajorScan(p[..|p| - 1]);
      var c := p[|p| - 1];
      var slash := if c == '.' then false else prev.1;
      var major := if slash then prev.0 + [c] else prev.0;
      (major, slash || c == '/')
  }

  function NonEmpty(s: string): Option<string>
  {
    if s == "" then None else Some(s)
  }

  function VersionMajor(l: Line): Option<string>
  {
    if l.sipVersion.None? then None else NonEmpty(MajorScan(l.sipVersion.value).0)
  }

  /** The scan of getVersionMinor over a prefix: the characters collected, and whether a '.' was seen. */
  function MinorScan(p: string): (string, bool)
  {
    if |p| == 0 then ("", false)
    else
      var prev := MinorScan(p[..|p| - 1]);
      var c := p[|p| - 1];
      ((if prev.1 then prev.0 + [c] else prev.0), prev.1 || c == '.')
  }

  function VersionMinor(l: Line): Option<string>
  {
    if l.sipVersion.None? then None else NonEmpty(MinorScan(l.sipVersion.value).0)
  }

  // ---------------------------------------------------------------------
  // Properties
  // ---------------------------------------------------------------------

  /** Decoding an encoded Status-Line gives back its code and reason phrase, whatever the version field says. */
  lemma DecodeEncode(l: Line)
    requires IsInt32(l.statusCode)
    ensures Decode(Encode(l)) == Some((l.statusCode, l.reasonPhrase))
  {
    var d := Decimal(l.statusCode);
    var rest := if l.reasonPhrase.Some? then SP + l.reasonPhrase.value else "";
    assert Encode(l) == SipVersion + SP + (d + rest) + Newline;
    Framing(d + rest);
    DecodeBodyEncoded(l);
  }

  /** Decode strips exactly the version prefix and the CRLF of a framed line. */
  lemma Framing(body: string)
    ensures Decode(SipVersion + SP + body + Newline) == DecodeBody(body)
  {
    var s := SipVersion + SP + body + Newline;
    assert s[..|SipVersion + SP|] == SipVersion + SP;
    assert s[|s| - |Newline|..] == Newline;
    assert s[|SipVersion + SP| .. |s| - |Newline|] == body;
  }

  /** The body of an encoded line parses back to its code and reason. */
  lemma DecodeBodyEncoded(l: Line)
    requires IsInt32(l.statusCode)
    ensures var rest := if l.reasonPhrase.Some? then SP + l.reasonPhrase.value else "";
      DecodeBody(Decimal(l.statusCode) + rest) == Some((l.statusCode, l.reasonPhrase))
  {
    var d := Decimal(l.statusCode);
    var rest := if l.reasonPhrase.Some? then SP + l.reasonPhrase.value else "";
    var body := d + rest;
    DecimalAlphabet(l.statusCode);
    assert ' ' !in d;
    ParseDecimal(l.statusCode);
    if l.reasonPhrase.Some? {
      FirstCharAt(d, l.reasonPhrase.value, ' ');
      assert body == d + [' '] + l.reasonPhrase.value;
      assert body[..|d|] == d && body[|d| + 1..] == l.reasonPhrase.value;
    } else {
      assert body == d;
      CharNotFound(d, ' ');
    }
  }

  /** The encoding always carries SIP/2.0, not the line's own version field. */
  lemma EncodeUsesVersionConstant(l: Line, v: Option<string>)
    ensures Encode(l.(sipVersion := v)) == Encode(l)
    ensures Encode(l)[..8] == "SIP/2.0 "
    ensures Encode(l)[|Encode(l)| - 2..] == "\r\n"
  {
  }

  /** A status code of three digits leads with its class digit. */
  lemma LeadingDigitIsClass(code: int)
    requires 100 <= code <= 999
    ensures LeadingChar(code) == DigitChar(code / 100)
  {
    var n: nat := code;
    assert NatDecimal(n) == NatDecimal(n / 10) + [DigitChar(n % 10)];
    assert NatDecimal(n / 10) == NatDecimal(n / 100) + [DigitChar((n / 10) % 10)];
    assert n / 10 / 10 == n / 100;
  }

  /** Under class-only matching, three-digit codes match exactly when their classes agree. */
  lemma ClassMatching(l: Line, t: Line)
    requires l.matchStatusClass && 100 <= l.statusCode <= 999 && 100 <= t.statusCode <= 999
    requires t.sipVersion.None? && t.reasonPhrase.None?
    ensures Match(l, Template(t)) <==> l.statusCode / 100 == t.statusCode / 100
  {
    LeadingDigitIsClass(l.statusCode);
    LeadingDigitIsClass(t.statusCode);
  }

  /** Class-only matching follows this line's flag; the template's own flag plays no part. */
  lemma TemplateFlagIgnored(l: Line, t: Line, flag: bool)
    ensures Match(l, Template(t.(matchStatusClass := flag))) == Match(l, Template(t))
  {
  }

  /** The blank template (null version, code 0, null reason) matches every line; other objects none. */
  lemma WildcardTemplate(l: Line, flag: bool)
    ensures Match(l, Template(Line(flag, None, 0, None)))
    ensures !Match(l, Other)
  {
  }

  /** Without class matching, a full template matches exactly the equal version, code and reason. */
  lemma ExactMatching(l: Line, t: Line)
    requires !l.matchStatusClass && t.sipVersion.Some? && t.statusCode != 0 && t.reasonPhrase.Some?
    ensures Match(l, Template(t)) <==>
      l.sipVersion == t.sipVersion && l.statusCode == t.statusCode && l.reasonPhrase == t.reasonPhrase
  {
  }

  /** Wherever match() as written returns, the corrected match returns the same. */
  lemma MatchAgrees(l: Line, obj: MatchObject)
    ensures MatchAsWritten(l, obj).Some? ==> MatchAsWritten(l, obj).value == Match(l, obj)
    ensures MatchAsWritten(l, obj).None? <==>
      (obj.Template? && VersionAndCodeMatch(l, obj.line)
       && obj.line.reasonPhrase.Some? && l.reasonPhrase.None?)
  {
  }

  /** A default line matched against a template that names a reason phrase throws. */
  lemma DefaultLineAgainstReasonThrows()
    ensures MatchAsWritten(Default(), Template(Line(false, None, 0, Some("OK")))).None?
    ensures !Match(Default(), Template(Line(false, None, 0, Some("OK"))))
  {
  }

  lemma {:induction false} MajorScanNoSlash(p: string, q: string)
    requires !MajorScan(p).1 && '/' !in q
    ensures MajorScan(p + q) == (MajorScan(p).0, false)
    decreases |q|
  {
    if |q| > 0 {
      assert (p + q)[..|p + q| - 1] == p + q[..|q| - 1];
      MajorScanNoSlash(p, q[..|q| - 1]);
    } else {
      assert p + q == p;
    }
  }

  lemma {:induction false} MajorScanSegment(p: string, q: string)
    requires MajorScan(p).1 && '.' !in q
    ensures MajorScan(p + q) == (MajorScan(p).0 + q, true)
    decreases |q|
  {
    if |q| > 0 {
      assert (p + q)[..|p + q| - 1] == p + q[..|q| - 1];
      MajorScanSegment(p, q[..|q| - 1]);
      assert (p + q)[|p + q| - 1] == q[|q| - 1];
      assert MajorScan(p).0 + q[..|q| - 1] + [q[|q| - 1]] == MajorScan(p).0 + q;
    } else {
      assert p + q == p;
      assert MajorScan(p).0 + q == MajorScan(p).0;
    }
  }

  /** The major number is what follows the first '/' up to the next '.', when no '/' comes after it. */
  lemma {:induction false} MajorOfVersion(a: string, m: string, r: string)
    requires '/' !in a && '.' !in m && '/' !in r
    ensures VersionMajor(Line(false, Some(a + "/" + m + "." + r), 0, None)) == NonEmpty(m)
  {
    MajorScanNoSlash("", a);
    assert "" + a == a;
    assert MajorScan(a + "/") == ("", true) by {
      assert (a + "/")[..|a + "/"| - 1] == a;
    }
    MajorScanSegment(a + "/", m);
    assert "" + m == m;
    var p := a + "/" + m;
    assert MajorScan(p + ".") == (m, false) by {
      assert (p + ".")[..|p + "."| - 1] == p;
    }
    MajorScanNoSlash(p + ".", r);
    assert a + "/" + m + "." + r == p + "." + r;
  }

  lemma {:induction false} MinorScanBefore(p: string)
    requires '.' !in p
    ensures MinorScan(p) == ("", false)
  {
    if |p| > 0 {
      MinorScanBefore(p[..|p| - 1]);
    }
  }

  lemma {:induction false} MinorScanAfter(p: string, q: string)
    requires MinorScan(p).1
    ensures MinorScan(p + q) == (MinorScan(p).0 + q, true)
    decreases |q|
  {
    if |q| > 0 {
      assert (p + q)[..|p + q| - 1] == p + q[..|q| - 1];
      MinorScanAfter(p, q[..|q| - 1]);
      assert (p + q)[|p + q| - 1] == q[|q| - 1];
      assert MinorScan(p).0 + q[..|q| - 1] + [q[|q| - 1]] == MinorScan(p).0 + q;
    } else {
      assert p + q == p;
      assert MinorScan(p).0 + q == MinorScan(p).0;
    }
  }

  /** The minor number is everything after the first '.'; with no '.' there is none. */
  lemma MinorOfVersion(a: string, b: string)
    requires '.' !in a
    ensures VersionMinor(Line(false, Some(a + "." + b), 0, None)) == NonEmpty(b)
    ensures VersionMinor(Line(false, Some(a), 0, None)).None?
  {
    MinorScanBefore(a);
    assert MinorScan(a + ".") == ("", true) by {
      assert (a + ".")[..|a + "."| - 1] == a;
    }
    MinorScanAfter(a + ".", b);
    assert "" + b == b;
  }

  /** SIP/2.0 has major number 2 and minor number 0. */
  lemma SipTwoPointZero()
    ensures VersionMajor(Default()) == Some("2") && VersionMinor(Default()) == Some("0")
  {
    MajorOfVersion("SIP", "2", "0");
    MinorOfVersion("SIP/2", "0");
    assert "SIP" + "/" + "2" + "." + "0" == SipVersion;
    assert "SIP/2" + "." + "0" == SipVersion;
  }
}

/** The StatusLine object, whose setters update its fields in place. */
module StatusLines {
  import opened Wrappers
  import opened JavaText
  import opened StatusLineSpec

  class StatusLine {
    var matchStatusClass: bool
    var sipVersion: Option<string>
    var statusCode: int
    var reasonPhrase: Option<string>

    function Snap(): Line
      reads this
    {
      Line(matchStatusClass, sipVersion, statusCode, reasonPhrase)
    }

    constructor ()
      ensures Snap() == Default()
    {
      matchStatusClass := false;
      sipVersion := Some(SipVersion);
      statusCode := 0;
      reasonPhrase := None;
    }

    method SetMatchStatusClass(flag: bool)
      modifies this
      ensures Snap() == old(Snap()).(matchStatusClass := flag)
    {
      matchStatusClass := flag;
    }

    method SetSipVersion(s: Option<string>)
      modifies this
      ensures Snap() == old(Snap()).(sipVersion := s)
    {
      sipVersion := s;
    }

    method SetStatusCode(code: int)
      modifies this
      ensures Snap() == old(Snap()).(statusCode := code)
    {
      statusCode := code;
    }

    method SetReasonPhrase(r: Option<string>)
      modifies this
      ensures Snap() == old(Snap()).(reasonPhrase := r)
    {
      reasonPhrase := r;
    }

    method Encode() returns (s: string)
      ensures s == StatusLineSpec.Encode(Snap())
    {
      s := SipVersion + SP + Decimal(statusCode);
      if reasonPhrase.Some? {
        s := s + SP + reasonPhrase.value;
      }
      s := s + Newline;
    }

    /** getVersionMajor(): the loop that collects characters between a '/' and the next '.'. */
    method VersionMajor() returns (major: Option<string>)
      ensures major == StatusLineSpec.VersionMajor(Snap())
    {
      if sipVersion.None? {
        return None;
      }
      var v := sipVersion.value;
      var collected := "";
      var slash := false;
      var i := 0;
      while i < |v|
        invariant 0 <= i <= |v|
        invariant (collected, slash) == MajorScan(v[..i])
      {
        assert v[..i + 1][..i] == v[..i];
        if v[i] == '.' {
          slash := false;
        }
        if slash {
          collected := collected + [v[i]];
        }
        if v[i] == '/' {
          slash := true;
        }
        i := i + 1;
      }
      assert v[..|v|] == v;
      major := NonEmpty(collected);
    }

    /** getVersionMinor(): the loop that collects every character after the first '.'. */
    method VersionMinor() returns (minor: Option<string>)
      ensures minor == StatusLineSpec.VersionMinor(Snap())
    {
      if sipVersion.None? {
        return None;
      }
      var v := sipVersion.value;
      var collected := "";
      var dot := false;
      var i := 0;
      while i < |v|
        invariant 0 <= i <= |v|
        invariant (collected, dot) == MinorScan(v[..i])
      {
        assert v[..i + 1][..i] == v[..i];
        if dot {
          collected := collected + [v[i]];
        }
        if v[i] == '.' {
          dot := true;
        }
        i := i + 1;
      }
      assert v[..|v|] == v;
      minor := NonEmpty(collected);
    }

    method Match(obj: MatchObject) returns (b: bool)
      ensures b == StatusLineSpec.Match(Snap(), obj)
    {
      if obj.Other? {
        return false;
      }
      var sl := obj.line;
      if sl.sipVersion.Some? && sl.sipVersion != sipVersion {
        return false;
      }
      if sl.statusCode != 0 {
        if matchStatusClass {
          var codeString := Decimal(sl.statusCode);
          var mycode := Decimal(statusCode);
          if codeString[0] != mycode[0] {
            return false;
          }
        } else if statusCode != sl.statusCode {
          return false;
        }
      }
      // a line without a reason phrase does not match a template with one (see MatchAsWritten)
      b := sl.reasonPhrase.None? || reasonPhrase == sl.reasonPhrase;
    }
  }
}
