/**
 * The shelf QR page (frontend/src/pages/ShelfQrCodeCreation.tsx): the QR
 * text is the JSON object `{"warehouse":W,"shelf":S}` written by
 * `JSON.stringify`, shown once both inputs are filled in, and downloaded as
 * a PNG named after them. The JSON string escaping follows section 7 of
 * RFC 8259 as `JSON.stringify` applies it; a reader for that escaping and
 * for the whole QR text is the partner every encoding is proved against.
 */
module ShelfQr {
  import opened Common

  // ---------------------------------------------------------------------
  // JSON string literals (section 7 of RFC 8259)
  // ---------------------------------------------------------------------

  /** A lower-case hexadecimal digit, as `JSON.stringify` writes `\u00XX`. */
  function HexDigit(d: nat): (c: char)
    requires d < 16
    ensures IsHex(c) && HexValue(c) == d
  {
    if d < 10 then ('0' as int + d) as char else ('a' as int + d - 10) as char
  }

  predicate IsHex(c: char)
  {
    '0' <= c <= '9' || 'a' <= c <= 'f' || 'A' <= c <= 'F'
  }

  function HexValue(c: char): (d: nat)
    requires IsHex(c)
    ensures d < 16
  {
    if '0' <= c <= '9' then c as int - '0' as int
    else if 'a' <= c <= 'f' then c as int - 'a' as int + 10
    else c as int - 'A' as int + 10
  }

  /** The value of four hexadecimal digits. */
  function Hex4Value(t: string): (n: nat)
    requires |t| == 4 && forall k :: 0 <= k < 4 ==> IsHex(t[k])
    ensures n < 0x10000
  {
    ((HexValue(t[0]) * 16 + HexValue(t[1])) * 16 + HexValue(t[2])) * 16 + HexValue(t[3])
  }

  /**
   * The escape of one character inside a string literal: the two-character
   * escapes for `"`, `\`, backspace, form feed, line feed, carriage return
   * and tab, `\u00XX` for the other control characters, and the character
   * itself otherwise.
   */
  function EscapeChar(c: char): (e: string)
    ensures e != [] && (e[0] == '\\' <==> c == '\\' || c == '"' || c < ' ')
    ensures e[0] != '\\' ==> e == [c]
  {
    if c == '"' then "\\\""
    else if c == '\\' then "\\\\"
    else if c as int == 0x08 then "\\b"
    else if c as int == 0x0C then "\\f"
    else if c == '\n' then "\\n"
    else if c == '\r' then "\\r"
    else if c == '\t' then "\\t"
    else if c < ' ' then "\\u00" + [HexDigit(c as int / 16), HexDigit(c as int % 16)]
    else [c]
  }

  /** The escaped characters of a string, without the surrounding quotes. */
  function EscapeAll(s: string): (e: string)
    ensures |e| >= |s|
  {
    if s == [] then [] else EscapeChar(s[0]) + EscapeAll(s[1..])
  }

  /** `JSON.stringify` of a string: the escaped characters between double quotes. */
  function Quote(s: string): (q: string)
    ensures |q| >= 2 && q[0] == '"' && q[|q| - 1] == '"'
  {
    "\"" + EscapeAll(s) + "\""
  }

  /** Prepends one decoded character to the result of reading the rest. */
  function Prepend(c: char, r: Option<(string, string)>): Option<(string, string)>
  {
    match r
    case None => None
    case Some(p) => Some(([c] + p.0, p.1))
  }

  /**
   * Reads the characters of a string literal up to its closing quote: the
   * decoded value and what follows the quote, or None for an unescaped
   * control character, an unknown escape, a `\u` escape of a surrogate, or
   * a literal that never ends.
   */
  function ReadBody(t: string): (r: Option<(string, string)>)
    decreases |t|
  {
    if t == [] then None
    else if t[0] == '"' then Some(([], t[1..]))
    else if t[0] == '\\' then
      if |t| < 2 then None
      else if t[1] == '"' then Prepend('"', ReadBody(t[2..]))
      else if t[1] == '\\' then Prepend('\\', ReadBody(t[2..]))
      else if t[1] == '/' then Prepend('/', ReadBody(t[2..]))
      else if t[1] == 'b' then Prepend(0x08 as char, ReadBody(t[2..]))
      else if t[1] == 'f' then Prepend(0x0C as char, ReadBody(t[2..]))
      else if t[1] == 'n' then Prepend('\n', ReadBody(t[2..]))
      else if t[1] == 'r' then Prepend('\r', ReadBody(t[2..]))
      else if t[1] == 't' then Prepend('\t', ReadBody(t[2..]))
      else if t[1] == 'u' && |t| >= 6 && (forall k :: 2 <= k < 6 ==> IsHex(t[k])) then
        var n := Hex4Value(t[2..6]);
        if 0xD800 <= n < 0xE000 then None else Prepend(n as char, ReadBody(t[6..]))
      else None
    else if t[0] < ' ' then None
    else Prepend(t[0], ReadBody(t[1..]))
  }

  /** Reading the escape of one character gives that character and then reads on. */
  lemma ReadEscapedChar(c: char, rest: string)
    ensures ReadBody(EscapeChar(c) + rest) == Prepend(c, ReadBody(rest))
  {
    if c < ' ' && c != '\n' && c != '\r' && c != '\t' && c as int != 0x08 && c as int != 0x0C {
      ReadUnicodeEscape(c, rest);
    } else if c == '"' || c == '\\' || c < ' ' {
      var t := EscapeChar(c) + rest;
      assert |EscapeChar(c)| == 2;
      assert t[2..] == rest;
    } else {
      var t := EscapeChar(c) + rest;
      assert t[1..] == rest;
    }
  }

  /** A control character without a two-character escape is read back from its `\u00XX` escape. */
  lemma ReadUnicodeEscape(c: char, rest: string)
    requires c < ' ' && c != '\n' && c != '\r' && c != '\t' && c as int != 0x08 && c as int != 0x0C
    ensures ReadBody(EscapeChar(c) + rest) == Prepend(c, ReadBody(rest))
  {
    var h := [HexDigit(c as int / 16), HexDigit(c as int % 16)];
    var t := EscapeChar(c) + rest;
    assert t == "\\u00" + h + rest;
    assert t[2..6] == "00" + h;
    assert t[6..] == rest;
    assert Hex4Value(t[2..6]) == c as int;
  }

  /** Reading an escaped string followed by its closing quote gives the string and what follows. */
  lemma {:induction false} ReadQuoted(s: string, rest: string)
    ensures ReadBody(EscapeAll(s) + "\"" + rest) == Some((s, rest))
  {
    if s == [] {
      assert EscapeAll(s) + "\"" + rest == "\"" + rest;
      assert ("\"" + rest)[1..] == rest;
    } else {
      var tail := EscapeAll(s[1..]) + "\"" + rest;
      assert EscapeAll(s) + "\"" + rest == EscapeChar(s[0]) + tail;
      ReadEscapedChar(s[0], tail);
      ReadQuoted(s[1..], rest);
      assert [s[0]] + s[1..] == s;
    }
  }

  /** Reads `opening` followed by a string literal: the value and what follows the literal. */
  function ReadMember(t: string, opening: string): (r: Option<(string, string)>)
  {
    if StartsWith(t, opening + "\"") then ReadBody(t[|opening| + 1..]) else None
  }

  /** A member written as `opening` and a quoted string reads back as that string. */
  lemma ReadMemberOf(opening: string, s: string, rest: string)
    ensures ReadMember(opening + Quote(s) + rest, opening) == Some((s, rest))
  {
    var t := opening + Quote(s) + rest;
    var body := EscapeAll(s) + "\"" + rest;
    assert t == (opening + "\"") + body;
    assert t[..|opening| + 1] == opening + "\"";
    assert t[|opening| + 1..] == body;
    ReadQuoted(s, rest);
  }

  /** Two strings with the same JSON text are the same string. */
  lemma QuoteInjective(a: string, b: string)
    requires Quote(a) == Quote(b)
    ensures a == b
  {
    ReadMemberOf("", a, "");
    ReadMemberOf("", b, "");
    assert "" + Quote(a) + "" == Quote(a);
    assert "" + Quote(b) + "" == Quote(b);
  }

  // ---------------------------------------------------------------------
  // The QR text
  // ---------------------------------------------------------------------

  const WarehouseOpening := "{\"warehouse\":"
  const ShelfOpening := ",\"shelf\":"

  /** `JSON.stringify({ warehouse, shelf })`: the two members in that order, without spaces. */
  function QrText(warehouse: string, shelf: string): (t: string)
    ensures StartsWith(t, WarehouseOpening) && t[|t| - 1] == '}'
  {
    WarehouseOpening + Quote(warehouse) + ShelfOpening + Quote(shelf) + "}"
  }

  /** Reads a QR text of this page back into its warehouse and shelf. */
  function ReadQr(t: string): (r: Option<(string, string)>)
  {
    match ReadMember(t, WarehouseOpening)
    case None => None
    case Some((warehouse, rest)) =>
      match ReadMember(rest, ShelfOpening)
      case None => None
      case Some((shelf, rest2)) => if rest2 == "}" then Some((warehouse, shelf)) else None
  }

  /** The QR text reads back as the warehouse and shelf it was made from. */
  lemma ReadQrText(warehouse: string, shelf: string)
    ensures ReadQr(QrText(warehouse, shelf)) == Some((warehouse, shelf))
  {
    var rest := ShelfOpening + Quote(shelf) + "}";
    assert QrText(warehouse, shelf) == WarehouseOpening + Quote(warehouse) + rest;
    ReadMemberOf(WarehouseOpening, warehouse, rest);
    ReadMemberOf(ShelfOpening, shelf, "}");
  }

  /** Different locations never share a QR text. */
  lemma QrTextInjective(w1: string, s1: string, w2: string, s2: string)
    requires QrText(w1, s1) == QrText(w2, s2)
    ensures w1 == w2 && s1 == s2
  {
    ReadQrText(w1, s1);
    ReadQrText(w2, s2);
  }

  // ---------------------------------------------------------------------
  // The page
  // ---------------------------------------------------------------------

  /** `warehouse && shelf`: the QR, its text and the download button show only when both are filled in. */
  predicate Shown(warehouse: string, shelf: string)
  {
    warehouse != "" && shelf != ""
  }

  /** `${warehouse || 'W'}-${shelf || 'S'}-qrcode.png`. */
  function DownloadName(warehouse: string, shelf: string): (name: string)
    ensures StartsWith(name, OrElse(warehouse, "W") + "-")
  {
    OrElse(warehouse, "W") + "-" + OrElse(shelf, "S") + "-qrcode.png"
  }

  /** The button exists only while the QR shows, so the downloaded file always carries both names. */
  lemma DownloadCarriesBothNames(warehouse: string, shelf: string)
    requires Shown(warehouse, shelf)
    ensures DownloadName(warehouse, shelf) == warehouse + "-" + shelf + "-qrcode.png"
  {
  }

  // ---------------------------------------------------------------------
  // The shelf rule of the QR action templates
  // ---------------------------------------------------------------------

  const LocPrefix := "LOC:"

  /**
   * The script of the "棚番QRコード（スクリプト判定）" template: a text
   * `LOC:<warehouse>:<location>` (three pieces split on ':') gives the
   * warehouse and the source location to fill in; anything else gives None.
   */
  function ShelfScript(qr: string): (r: Option<(string, string)>)
    ensures r.Some? ==> StartsWith(qr, LocPrefix)
  {
    if StartsWith(qr, LocPrefix) && |SplitOn(qr, ':')| == 3 then Some((SplitOn(qr, ':')[1], SplitOn(qr, ':')[2])) else None
  }

  /** The script reads back a `LOC:` text built from colon-free names. */
  lemma ShelfScriptReadsLoc(warehouse: string, location: string)
    requires ':' !in warehouse && ':' !in location
    ensures ShelfScript(LocPrefix + warehouse + ":" + location) == Some((warehouse, location))
  {
    var qr := LocPrefix + warehouse + ":" + location;
    assert qr == Join(["LOC", warehouse, location], [':']);
    SplitOnJoin(["LOC", warehouse, location], ':');
    assert qr[..|LocPrefix|] == LocPrefix;
  }

  /** The QR this page makes starts with `{`, never with "LOC:": the shelf template's script answers None for it. */
  lemma PageQrNotReadByShelfScript(warehouse: string, shelf: string)
    ensures !StartsWith(QrText(warehouse, shelf), LocPrefix)
    ensures ShelfScript(QrText(warehouse, shelf)).None?
  {
    var t := QrText(warehouse, shelf);
    assert t[0] == '{';
  }
}
