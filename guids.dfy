/** `System.Guid` as far as the correlation bridge uses it: `Guid.TryParse`
    for the textual forms N (32 hex digits), D (8-4-4-4-12 with hyphens),
    B (`{D}`) and P (`(D)`), surrounding white space trimmed, hex digits of
    either case; and `ToString("N")`, 32 lower-case hex digits. The digits
    are kept in textual order, which is the order both forms print. */
module Guids {
  import opened Common

  type Nibble = x: int | 0 <= x < 16

  type Guid = s: seq<Nibble> | |s| == 32 witness seq(32, _ => 0)

  /** `Guid.Empty`. */
  const Empty: Guid := [0, 0, 0, 0, 0, 0, 0, 0, 0, 0, 0, 0, 0, 0, 0, 0,
                        0, 0, 0, 0, 0, 0, 0, 0, 0, 0, 0, 0, 0, 0, 0, 0]

  function HexValue(c: char): Option<Nibble> {
    if '0' <= c <= '9' then Some(c as int - '0' as int)
    else if 'a' <= c <= 'f' then Some(c as int - 'a' as int + 10)
    else if 'A' <= c <= 'F' then Some(c as int - 'A' as int + 10)
    else None
  }

  /** The lower-case digit `ToString` prints. */
  function HexDigit(n: Nibble): (c: char)
    ensures HexValue(c) == Some(n)
    ensures '0' <= c <= '9' || 'a' <= c <= 'f'
  {
    if n < 10 then ('0' as int + n) as char else ('a' as int + n - 10) as char
  }

  /** A run of hex digits, or None if any character is not one. */
  function ParseHex(s: string): (r: Option<seq<Nibble>>)
    ensures r.Some? ==> |r.value| == |s|
    ensures r.Some? <==> forall i | 0 <= i < |s| :: HexValue(s[i]).Some?
    ensures r.Some? ==> forall i | 0 <= i < |s| :: HexValue(s[i]) == Some(r.value[i])
  {
    if s == [] then Some([])
    else match (HexValue(s[0]), ParseHex(s[1..]))
      case (Some(d), Some(rest)) => Some([d] + rest)
      case _ => None
  }

  function TrimStart(s: string): (r: string)
    ensures r != [] ==> !IsWhiteSpace(r[0])
  {
    if s != [] && IsWhiteSpace(s[0]) then TrimStart(s[1..]) else s
  }

  function TrimEnd(s: string): (r: string)
    ensures r != [] ==> !IsWhiteSpace(r[|r| - 1])
  {
    if s != [] && IsWhiteSpace(s[|s| - 1]) then TrimEnd(s[..|s| - 1]) else s
  }

  /** `string.Trim()`. */
  function Trim(s: string): string {
    TrimEnd(TrimStart(s))
  }

  /** The D form: hyphens at 8, 13, 18 and 23, hex digits elsewhere. */
  predicate HyphensAtD(s: string) {
    |s| == 36 && s[8] == '-' && s[13] == '-' && s[18] == '-' && s[23] == '-'
  }

  function DigitsOfD(s: string): string
    requires HyphensAtD(s)
  {
    s[..8] + s[9..13] + s[14..18] + s[19..23] + s[24..]
  }

  /** The N form: exactly 32 hex digits. */
  function ParseN(s: string): Option<Guid> {
    if |s| != 32 then None
    else match ParseHex(s)
      case None => None
      case Some(ds) => Some(ds)
  }

  function ParseD(s: string): Option<Guid> {
    if HyphensAtD(s) then ParseN(DigitsOfD(s)) else None
  }

  /** `Guid.TryParse(s, out g)`: None stands for `false`; a null string fails. */
  function TryParse(input: Option<string>): Option<Guid> {
    if input.None? then None
    else
      var t := Trim(input.value);
      if |t| == 32 then ParseN(t)
      else if |t| == 36 then ParseD(t)
      else if |t| == 38 && ((t[0] == '{' && t[37] == '}') || (t[0] == '(' && t[37] == ')')) then ParseD(t[1..37])
      else None
  }

  /** `ToString("N")`. Its contract pins each printed digit; what that
      means is proved beside it: `ParseFormatN` (it parses back) and
      `FormatNTraceId` (it is a valid W3C trace id). */
  function FormatN(g: Guid): (s: string)
    ensures |s| == 32
    ensures forall i | 0 <= i < 32 :: s[i] == HexDigit(g[i])
  {
    seq(32, i requires 0 <= i < 32 => HexDigit(g[i]))
  }

  /** `ToString("D")`. */
  function FormatD(g: Guid): string {
    var n := FormatN(g);
    n[..8] + "-" + n[8..12] + "-" + n[12..16] + "-" + n[16..20] + "-" + n[20..]
  }

  /** A W3C trace id, as `ActivityTraceId.CreateFromString` takes it: 32
      lower-case hex digits, not all zero. */
  predicate IsW3CTraceId(s: string) {
    && |s| == 32
    && (forall i | 0 <= i < 32 :: '0' <= s[i] <= '9' || 'a' <= s[i] <= 'f')
    && exists i | 0 <= i < 32 :: s[i] != '0'
  }

  lemma {:induction false} TrimHex(s: string)
    requires s != [] && HexValue(s[0]).Some? && HexValue(s[|s| - 1]).Some?
    ensures Trim(s) == s
  {
  }

  lemma {:induction false} ParseNFormatN(g: Guid)
    ensures ParseN(FormatN(g)) == Some(g)
  {
    var n := FormatN(g);
    assert forall i | 0 <= i < |n| :: HexValue(n[i]) == Some(g[i]);
    var r := ParseHex(n);
    assert r.Some?;
    assert forall i | 0 <= i < 32 :: r.value[i] == g[i];
    assert r.value == g;
  }

  /** Printing in the N form and parsing back gives the same GUID. */
  lemma {:induction false} ParseFormatN(g: Guid)
    ensures TryParse(Some(FormatN(g))) == Some(g)
  {
    var n := FormatN(g);
    TrimHex(n);
    ParseNFormatN(g);
  }

  lemma {:induction false} DigitsOfFormatD(g: Guid)
    ensures HyphensAtD(FormatD(g)) && DigitsOfD(FormatD(g)) == FormatN(g)
    ensures FormatD(g)[0] == FormatN(g)[0] && FormatD(g)[35] == FormatN(g)[31]
  {
    var n := FormatN(g);
    var d := FormatD(g);
    assert n[..8] + n[8..12] + n[12..16] + n[16..20] + n[20..] == n;
  }

  /** Printing in the D form and parsing back gives the same GUID. */
  lemma {:induction false} ParseFormatD(g: Guid)
    ensures TryParse(Some(FormatD(g))) == Some(g)
  {
    DigitsOfFormatD(g);
    TrimHex(FormatD(g));
    ParseNFormatN(g);
  }

  /** A GUID that is not `Guid.Empty` prints as a valid W3C trace id. */
  lemma FormatNTraceId(g: Guid)
    requires g != Empty
    ensures IsW3CTraceId(FormatN(g))
  {
    var i :| 0 <= i < 32 && g[i] != 0;
    assert FormatN(g)[i] != '0';
  }

  /** The digit `ToString` prints for a parsed hex digit is that digit, lower-cased. */
  lemma HexDigitOfValue(c: char)
    requires HexValue(c).Some?
    ensures HexDigit(HexValue(c).value) == LowerHex([c])[0]
  {
  }

  /** The digits of a D-form string, lower-cased, are what `ToString("N")`
      prints for the GUID it parses to. */
  lemma {:induction false} DFormToN(s: string)
    requires HyphensAtD(s) && Trim(s) == s && TryParse(Some(s)).Some?
    ensures FormatN(TryParse(Some(s)).value) == LowerHex(DigitsOfD(s))
  {
    var g := TryParse(Some(s)).value;
    var ds := DigitsOfD(s);
    assert ParseN(ds) == Some(g);
    forall i | 0 <= i < 32
      ensures FormatN(g)[i] == LowerHex(ds)[i]
    {
      HexDigitOfValue(ds[i]);
    }
  }

  /** Lower-cases the letters of a hex string. */
  function LowerHex(s: string): (r: string)
    ensures |r| == |s|
    ensures forall i | 0 <= i < |s| :: r[i] == (if 'A' <= s[i] <= 'F' then (s[i] as int + 32) as char else s[i])
  {
    seq(|s|, i requires 0 <= i < |s| => if 'A' <= s[i] <= 'F' then (s[i] as int + 32) as char else s[i])
  }
}
