/** `System.Guid`: 128 bits, written as 32 hexadecimal digits. `Guid.NewGuid()` is never called by the
    model; new identities are passed in. */
module Guids {
  import opened Wrappers

  type Nibble = x: int | 0 <= x < 16

  type Guid = s: seq<Nibble> | |s| == 32 witness [0, 0, 0, 0, 0, 0, 0, 0, 0, 0, 0, 0, 0, 0, 0, 0, 0, 0, 0, 0, 0, 0, 0, 0, 0, 0, 0, 0, 0, 0, 0, 0]

  /** `Guid.Empty`. */
  const Empty: Guid := [0, 0, 0, 0, 0, 0, 0, 0, 0, 0, 0, 0, 0, 0, 0, 0, 0, 0, 0, 0, 0, 0, 0, 0, 0, 0, 0, 0, 0, 0, 0, 0]

  function HexChar(d: Nibble): char {
    if d < 10 then ('0' as int + d) as char else ('a' as int + d - 10) as char
  }

  function HexValue(c: char): Option<Nibble> {
    if '0' <= c <= '9' then Some(c as int - '0' as int)
    else if 'a' <= c <= 'f' then Some(c as int - 'a' as int + 10)
    else if 'A' <= c <= 'F' then Some(c as int - 'A' as int + 10)
    else None
  }

  function HexText(ds: seq<Nibble>): (s: string)
    ensures |s| == |ds|
    ensures forall k :: 0 <= k < |s| ==> s[k] == HexChar(ds[k])
  {
    seq(|ds|, k requires 0 <= k < |ds| => HexChar(ds[k]))
  }

  function ParseHex(s: string): (r: Option<seq<Nibble>>)
    ensures r.Some? ==> |r.value| == |s|
  {
    if |s| == 0 then Some([])
    else match (HexValue(s[0]), ParseHex(s[1..]))
      case (Some(d), Some(rest)) => Some([d] + rest)
      case _ => None
  }

  lemma {:induction false} ParseHexText(ds: seq<Nibble>)
    ensures ParseHex(HexText(ds)) == Some(ds)
  {
    if |ds| > 0 {
      ParseHexText(ds[1..]);
      assert HexText(ds)[1..] == HexText(ds[1..]);
      assert HexValue(HexChar(ds[0])) == Some(ds[0]);
      assert ds == [ds[0]] + ds[1..];
    }
  }

  /** `Guid.ToString()` (format "D"): lower-case digits grouped 8-4-4-4-12 by hyphens. */
  function Format(g: Guid): (s: string)
    ensures |s| == 36
  {
    HexText(g[..8]) + "-" + HexText(g[8..12]) + "-" + HexText(g[12..16]) + "-"
      + HexText(g[16..20]) + "-" + HexText(g[20..])
  }

  /** `Guid.TryParse` for the "D" (hyphenated) and "N" (32 digits) formats, either case. */
  function TryParse(s: string): (r: Option<Guid>)
    ensures r.Some? ==> |s| == 36 || |s| == 32
    ensures r.Some? && |s| == 36 ==> s[8] == '-' && s[13] == '-' && s[18] == '-' && s[23] == '-'
    ensures r.Some? && |s| == 32 ==> ParseHex(s) == Some(r.value)
  {
    var digits :=
      if |s| == 36 && s[8] == '-' && s[13] == '-' && s[18] == '-' && s[23] == '-' then
        Some(s[..8] + s[9..13] + s[14..18] + s[19..23] + s[24..])
      else if |s| == 32 then Some(s)
      else None;
    if digits.None? then None
    else
      match ParseHex(digits.value)
      case Some(ds) => if |ds| == 32 then Some(ds) else None
      case None => None
  }

  /** A formatted identity parses back to itself. */
  lemma ParseFormat(g: Guid)
    ensures TryParse(Format(g)) == Some(g)
  {
    var s := Format(g);
    assert s[..8] + s[9..13] + s[14..18] + s[19..23] + s[24..] == HexText(g);
    ParseHexText(g);
  }

  /** Only the four group separators of a formatted identity are hyphens. */
  lemma FormatHyphens(g: Guid)
    ensures '-' !in Format(g)[..8]
    ensures Format(g)[0] != '-'
  {
    assert Format(g)[..8] == HexText(g[..8]);
  }
}
