/** The small text helpers of app.js: `escapeHtml`, which makes a profile name safe as HTML text
    and inside a double-quoted attribute (but not as a JavaScript string inside an `onclick`
    attribute, see `QuotedNameBreaksHandler`), the currency table of the settings screen and
    `toPdfCurrency`, which swaps symbols the PDF font cannot draw for ASCII, and the clipping of
    category and note in `renderTableRow`. */
module Format {
  import opened Strings
  import Profiles

  // ---------------------------------------------------------------- escapeHtml

  /** The replacement `escapeHtml` makes for one character. */
  function Entity(c: char): string {
    match c
    case '&' => "&amp;"
    case '<' => "&lt;"
    case '>' => "&gt;"
    case '"' => "&quot;"
    case '\'' => "&#39;"
    case _ => [c]
  }

  /** `String(str).replace(/[&<>"']/g, ...)`: every character replaced by its entity. */
  function EscapeHtml(s: string): (r: string)
    ensures |s| <= |r| <= 6 * |s|
  {
    if s == [] then [] else Entity(s[0]) + EscapeHtml(s[1..])
  }

  /** The characters that would end a tag or a quoted attribute value. */
  predicate IsMarkup(c: char) {
    c == '<' || c == '>' || c == '"' || c == '\''
  }

  /** Nothing `escapeHtml` returns can close a tag or a quoted attribute value, and every `&` in
      it starts one of the five entities. */
  lemma {:induction false} EscapeHtmlIsInert(s: string)
    ensures forall i :: 0 <= i < |EscapeHtml(s)| ==> !IsMarkup(EscapeHtml(s)[i])
    ensures forall i :: 0 <= i < |EscapeHtml(s)| && EscapeHtml(s)[i] == '&' ==> AtEntity(EscapeHtml(s), i)
  {
    if s != [] {
      var e, rest := Entity(s[0]), EscapeHtml(s[1..]);
      EscapeHtmlIsInert(s[1..]);
      assert EscapeHtml(s) == e + rest;
      forall i | 0 <= i < |e + rest| && (e + rest)[i] == '&' ensures AtEntity(e + rest, i) {
        EntityThenInert(s[0], rest, i);
      }
    }
  }

  /** Position `i` of `s` starts one of the five entities. */
  predicate AtEntity(s: string, i: nat)
    requires i <= |s|
  {
    exists c :: IsEntityStart(c) && StartsWith(s[i..], Entity(c))
  }

  /** An `&` in an entity followed by text whose every `&` starts an entity starts an entity. */
  lemma EntityThenInert(c: char, rest: string, i: nat)
    requires forall j :: 0 <= j < |rest| && rest[j] == '&' ==> AtEntity(rest, j)
    requires i < |Entity(c) + rest| && (Entity(c) + rest)[i] == '&'
    ensures AtEntity(Entity(c) + rest, i)
  {
    var e := Entity(c);
    if i < |e| {
      assert i == 0 && IsEntityStart(c);
      assert (e + rest)[..|e|] == e;
    } else {
      assert AtEntity(rest, i - |e|);
      assert (e + rest)[i..] == rest[i - |e|..];
    }
  }

  /** The five characters `escapeHtml` replaces. */
  predicate IsEntityStart(c: char) {
    c == '&' || IsMarkup(c)
  }

  /** What the browser makes of an attribute value again: each of the five entities back to its
      character. */
  function UnescapeHtml(s: string): string
    decreases |s|
  {
    if s == [] then []
    else if s[0] != '&' then [s[0]] + UnescapeHtml(s[1..])
    else if StartsWith(s, "&amp;") then "&" + UnescapeHtml(s[5..])
    else if StartsWith(s, "&lt;") then "<" + UnescapeHtml(s[4..])
    else if StartsWith(s, "&gt;") then ">" + UnescapeHtml(s[4..])
    else if StartsWith(s, "&quot;") then "\"" + UnescapeHtml(s[6..])
    else if StartsWith(s, "&#39;") then "'" + UnescapeHtml(s[5..])
    else [s[0]] + UnescapeHtml(s[1..])
  }

  lemma UnescapeEntity(c: char, rest: string)
    ensures UnescapeHtml(Entity(c) + rest) == [c] + UnescapeHtml(rest)
  {
    if IsEntityStart(c) {
      UnescapeNamedEntity(c, rest);
    } else {
      var s := Entity(c) + rest;
      assert s[0] == c && s[1..] == rest;
    }
  }

  lemma UnescapeNamedEntity(c: char, rest: string)
    requires IsEntityStart(c)
    ensures UnescapeHtml(Entity(c) + rest) == [c] + UnescapeHtml(rest)
  {
    if c == '&' { UnescapeAmp(rest); }
    else if c == '<' { UnescapeLt(rest); }
    else if c == '>' { UnescapeGt(rest); }
    else if c == '"' { UnescapeQuot(rest); }
    else { UnescapeApos(rest); }
  }

  lemma UnescapeAmp(rest: string)
    ensures UnescapeHtml("&amp;" + rest) == "&" + UnescapeHtml(rest)
  {
    var s := "&amp;" + rest;
    assert s[..5] == "&amp;" && s[5..] == rest;
  }

  lemma UnescapeLt(rest: string)
    ensures UnescapeHtml("&lt;" + rest) == "<" + UnescapeHtml(rest)
  {
    var s := "&lt;" + rest;
    assert s[1] == 'l';
    assert s[..4] == "&lt;" && s[4..] == rest;
  }

  lemma UnescapeGt(rest: string)
    ensures UnescapeHtml("&gt;" + rest) == ">" + UnescapeHtml(rest)
  {
    var s := "&gt;" + rest;
    assert s[1] == 'g';
    assert s[..4] == "&gt;" && s[4..] == rest;
  }

  lemma UnescapeQuot(rest: string)
    ensures UnescapeHtml("&quot;" + rest) == "\"" + UnescapeHtml(rest)
  {
    var s := "&quot;" + rest;
    assert s[1] == 'q';
    assert s[..6] == "&quot;" && s[6..] == rest;
  }

  lemma UnescapeApos(rest: string)
    ensures UnescapeHtml("&#39;" + rest) == "'" + UnescapeHtml(rest)
  {
    var s := "&#39;" + rest;
    assert s[1] == '#';
    assert s[..5] == "&#39;" && s[5..] == rest;
  }

  /** Escaping loses nothing: the browser decodes an escaped attribute value back to the name
      itself, quotes included. */
  lemma {:induction false} EscapeHtmlRoundTrip(s: string)
    ensures UnescapeHtml(EscapeHtml(s)) == s
  {
    if s != [] {
      UnescapeEntity(s[0], EscapeHtml(s[1..]));
      EscapeHtmlRoundTrip(s[1..]);
      assert [s[0]] + s[1..] == s;
    }
  }

  /** A text with none of the five characters is shown as it is. */
  lemma {:induction false} EscapeHtmlPlain(s: string)
    requires forall i :: 0 <= i < |s| ==> !IsEntityStart(s[i])
    ensures EscapeHtml(s) == s
  {
    if s != [] {
      EscapeHtmlPlain(s[1..]);
      assert [s[0]] + s[1..] == s;
    }
  }

  // ---------------------------------------------------------------- onclick arguments

  /** The text between the single quotes of `renameProfileFlow('id','…')` (and of the switch and
      delete handlers) as the JavaScript parser sees it: the browser decodes the attribute's
      entities before it compiles the handler, so it is the escaped name decoded again. */
  function HandlerArgument(name: string): string {
    UnescapeHtml(EscapeHtml(name))
  }

  /** The body of a single-quoted JavaScript string literal: no bare quote or line break, and
      every backslash starts a two-character escape. */
  predicate LiteralBody(t: string)
    decreases |t|
  {
    if t == [] then true
    else if t[0] == '\\' then |t| >= 2 && LiteralBody(t[2..])
    else t[0] != '\'' && t[0] != '\n' && t[0] != '\r' && LiteralBody(t[1..])
  }

  /** A name the rules accept ends the handler's string literal early: "O'Brien" gives
      `renameProfileFlow('…','O'Brien')`, which does not parse. */
  lemma QuotedNameBreaksHandler()
    ensures Profiles.WellFormedName("O'Brien")
    ensures !LiteralBody(HandlerArgument("O'Brien"))
  {
    var n := "O'Brien";
    EscapeHtmlRoundTrip(n);
    assert n[1..][0] == '\'';
    assert IsTrimmed(n) by {
      assert n[0] == 'O' && n[|n| - 1] == 'n';
    }
  }

  /** The escape a single-quoted JavaScript literal needs for one character. */
  function JsEscapeChar(c: char): string {
    match c
    case '\\' => "\\\\"
    case '\'' => "\\'"
    case '\n' => "\\n"
    case '\r' => "\\r"
    case _ => [c]
  }

  function JsEscape(s: string): (r: string)
    ensures |s| <= |r| <= 2 * |s|
  {
    if s == [] then [] else JsEscapeChar(s[0]) + JsEscape(s[1..])
  }

  /** How JavaScript reads a literal body back, for the escapes `JsEscape` writes; any other
      escaped character stands for itself. */
  function JsUnescape(t: string): string
    decreases |t|
  {
    if t == [] then []
    else if t[0] == '\\' && |t| >= 2 then
      (if t[1] == 'n' then "\n" else if t[1] == 'r' then "\r" else [t[1]]) + JsUnescape(t[2..])
    else [t[0]] + JsUnescape(t[1..])
  }

  lemma JsEscapeCharThen(c: char, rest: string)
    requires LiteralBody(rest)
    ensures LiteralBody(JsEscapeChar(c) + rest)
    ensures JsUnescape(JsEscapeChar(c) + rest) == [c] + JsUnescape(rest)
  {
    var t := JsEscapeChar(c) + rest;
    if JsEscapeChar(c) == [c] {
      assert t[0] == c && t[1..] == rest;
    } else {
      assert t[0] == '\\' && t[2..] == rest;
    }
  }

  /** JavaScript-escaping gives one well-formed literal body that reads back as the text. */
  lemma {:induction false} JsEscapeSpec(s: string)
    ensures LiteralBody(JsEscape(s))
    ensures JsUnescape(JsEscape(s)) == s
  {
    if s != [] {
      JsEscapeSpec(s[1..]);
      JsEscapeCharThen(s[0], JsEscape(s[1..]));
      assert [s[0]] + s[1..] == s;
    }
  }

  /** The handler argument written with the name escaped for JavaScript first, then for HTML. */
  function SafeHandlerArgument(name: string): string {
    UnescapeHtml(EscapeHtml(JsEscape(name)))
  }

  /** With both escapes every name, quotes and backslashes included, stays one string literal and
      reaches the handler as itself. */
  lemma SafeHandlerArgumentSpec(name: string)
    ensures LiteralBody(SafeHandlerArgument(name))
    ensures JsUnescape(SafeHandlerArgument(name)) == name
  {
    EscapeHtmlRoundTrip(JsEscape(name));
    JsEscapeSpec(name);
  }

  // ---------------------------------------------------------------- currencies

  /** `CURRENCY_SYMBOLS`: the options of the currency picker as (label, symbol), in order. */
  const CURRENCY_SYMBOLS: seq<(string, string)> := [
    ("INR", "\U{20B9}"), ("USD", "$"), ("EUR", "\U{20AC}"), ("GBP", "\U{00A3}"),
    ("JPY (\U{00A5})", "\U{00A5}"), ("CNY (\U{00A5})", "\U{5143}"),
    ("AUD", "A$"), ("CAD", "C$"), ("CHF", "Fr"), ("SGD", "S$"), ("HKD", "HK$"), ("MYR", "RM"),
    ("THB", "\U{0E3F}"), ("IDR", "Rp"), ("PKR", "\U{20A8}"), ("BDT", "\U{09F3}"),
    ("AED", "\U{062F}.\U{0625}"), ("SAR", "\U{FDFC}"),
    ("QAR", "\U{0631}.\U{0642}"), ("BRL", "R$"), ("MXN", "Mex$"), ("ZAR", "R"), ("NZD", "NZ$"),
    ("SEK (kr)", "SEK"), ("NOK (kr)", "NOK"), ("DKK (kr)", "DKK"), ("PLN", "z\U{0142}"),
    ("TRY", "\U{20BA}"), ("RUB", "\U{20BD}"), ("KRW", "\U{20A9}")
  ]

  /** The table inside `toPdfCurrency`: the symbols the PDF's standard font has no glyph for. */
  const PDF_NAMES: map<string, string> := map[
    "\U{20B9}" := "Rs.", "\U{00A5}" := "Y", "\U{5143}" := "Y", "\U{00A3}" := "GBP",
    "\U{20AC}" := "EUR", "\U{0E3F}" := "THB", "\U{20A8}" := "PKR", "\U{09F3}" := "BDT",
    "\U{062F}.\U{0625}" := "AED", "\U{FDFC}" := "SAR", "\U{0631}.\U{0642}" := "QAR",
    "z\U{0142}" := "PLN", "\U{20BA}" := "TRY", "\U{20BD}" := "RUB", "\U{20A9}" := "KRW"
  ]

  predicate IsAscii(s: string) {
    forall i :: 0 <= i < |s| ==> s[i] as int < 128
  }

  /** `map[currency] || currency`: the ASCII name of a symbol in the table, any other text as it
      is. */
  function ToPdfCurrency(currency: string): (r: string)
    ensures currency in PDF_NAMES ==> IsAscii(r) && r != ""
    ensures currency !in PDF_NAMES ==> r == currency
  {
    if currency in PDF_NAMES then PDF_NAMES[currency] else currency
  }

  /** Every symbol the picker offers reaches the PDF as ASCII text. */
  lemma PickerSymbolsPrintable()
    ensures forall k :: 0 <= k < |CURRENCY_SYMBOLS| ==> IsAscii(ToPdfCurrency(CURRENCY_SYMBOLS[k].1))
  {
    forall k | 0 <= k < |CURRENCY_SYMBOLS|
      ensures IsAscii(ToPdfCurrency(CURRENCY_SYMBOLS[k].1))
    {
      var sym := CURRENCY_SYMBOLS[k].1;
      if sym !in PDF_NAMES {
        assert IsAscii(sym) by {
          assert k in {1, 6, 7, 8, 9, 10, 11, 13, 19, 20, 21, 22, 23, 24, 25};
        }
      }
    }
  }

  /** Every symbol in the table has a character outside ASCII. */
  lemma PdfNamesNotAscii(k: string)
    requires k in PDF_NAMES
    ensures !IsAscii(k)
  {
    if k == "z\U{0142}" {
      assert k[1] as int >= 128;
    } else {
      assert k[0] as int >= 128;
    }
  }

  /** The conversion is done once: converting a converted symbol changes nothing. */
  lemma ToPdfCurrencyIdempotent(currency: string)
    ensures ToPdfCurrency(ToPdfCurrency(currency)) == ToPdfCurrency(currency)
  {
    var r := ToPdfCurrency(currency);
    if currency in PDF_NAMES {
      if r in PDF_NAMES {
        PdfNamesNotAscii(r);
      }
    }
  }

  // ---------------------------------------------------------------- table row clipping

  const CATEGORY_WIDTH: nat := 15
  const NOTE_WIDTH: nat := 20

  /** The category column of a PDF row: longer than 15 characters becomes its first 13 and "..". */
  function ClipCategory(category: string): (r: string)
    ensures |r| <= CATEGORY_WIDTH
    ensures r == category <==> |category| <= CATEGORY_WIDTH
    ensures r != category ==> r == category[..CATEGORY_WIDTH - 2] + ".."
  {
    if |category| > CATEGORY_WIDTH then category[..CATEGORY_WIDTH - 2] + ".." else category
  }

  /** The note column: "-" when there is no note, longer than 20 characters its first 18 and
      "..". */
  function ClipNote(note: string): (r: string)
    ensures 0 < |r| <= NOTE_WIDTH
    ensures note == "" ==> r == "-"
    ensures note != "" && |note| <= NOTE_WIDTH ==> r == note
    ensures |note| > NOTE_WIDTH ==> |r| == NOTE_WIDTH && r[..NOTE_WIDTH - 2] == note[..NOTE_WIDTH - 2] && r[NOTE_WIDTH - 2..] == ".."
  {
    if note == "" then "-"
    else if |note| > NOTE_WIDTH then note[..NOTE_WIDTH - 2] + ".."
    else note
  }
}
