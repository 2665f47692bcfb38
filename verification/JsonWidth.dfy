/** What the token estimate counts: the bytes of compact JSON, non-ASCII characters left as they are
    (src/core/context/budget.py). */
module JsonWidth {
  import opened Common
  import opened SummaryUnits
  import Utf8

  function HexDigit(n: nat): char
    requires n < 16
  {
    "0123456789abcdef"[n]
  }

  /** One character inside a JSON string. */
  function JsonChar(c: char): string {
    var n := c as int;
    if c == '"' then "\\\""
    else if c == '\\' then "\\\\"
    else if c == '\n' then "\\n"
    else if c == '\r' then "\\r"
    else if c == '\t' then "\\t"
    else if n == 8 then "\\b"
    else if n == 12 then "\\f"
    else if n < 0x20 then "\\u00" + [HexDigit(n / 16), HexDigit(n % 16)]
    else [c]
  }

  function JsonText(text: string): string {
    if text == "" then "" else JsonChar(text[0]) + JsonText(text[1..])
  }

  function JsonItems(texts: seq<string>): string
    requires texts != []
  {
    "\"" + JsonText(texts[0]) + "\"" + if |texts| == 1 then "" else "," + JsonItems(texts[1..])
  }

  function JsonList(texts: seq<string>): string { "[" + (if texts == [] then "" else JsonItems(texts)) + "]" }

  function Bytes(text: string): nat { |Utf8.Encode(text)| }

  lemma BytesOfConcat(a: string, b: string)
    ensures Bytes(a + b) == Bytes(a) + Bytes(b)
  {
    Utf8.EncodeConcat(a, b);
  }

  lemma {:induction false} BytesOfAscii(text: string)
    requires forall i :: 0 <= i < |text| ==> text[i] as int < 0x80
    ensures Bytes(text) == |text|
  {
    if text != "" {
      BytesOfAscii(text[1..]);
    }
  }

  lemma CharWidthIsExact(c: char)
    ensures CharWidth(c) == Bytes(JsonChar(c))
  {
    if c as int < 0x80 {
      BytesOfAscii(JsonChar(c));
    } else {
      assert [c][1..] == "";
      assert Utf8.Encode([c]) == Utf8.EncodeChar(c) + Utf8.Encode("");
    }
  }

  /** The width of a text is the length of its JSON form in bytes. */
  lemma {:induction false} WidthIsExact(text: string)
    ensures Width(text) == Bytes(JsonText(text))
  {
    if text != "" {
      CharWidthIsExact(text[0]);
      WidthIsExact(text[1..]);
      BytesOfConcat(JsonChar(text[0]), JsonText(text[1..]));
    }
  }

  lemma {:induction false} ItemsWidth(texts: seq<string>)
    requires texts != []
    ensures ListWidth(texts) == Bytes(JsonItems(texts)) + 2
    decreases |texts|
  {
    var quoted := "\"" + JsonText(texts[0]) + "\"";
    WidthIsExact(texts[0]);
    BytesOfAscii("\"");
    BytesOfConcat("\"" + JsonText(texts[0]), "\"");
    BytesOfConcat("\"", JsonText(texts[0]));
    if |texts| > 1 {
      ItemsWidth(texts[1..]);
      BytesOfAscii(",");
      BytesOfConcat(",", JsonItems(texts[1..]));
      BytesOfConcat(quoted, "," + JsonItems(texts[1..]));
    } else {
      BytesOfConcat(quoted, "");
      BytesOfAscii("");
    }
  }

  /** The width of a list is the length of the JSON array of its texts in bytes. */
  lemma ListWidthIsExact(texts: seq<string>)
    ensures ListWidth(texts) == Bytes(JsonList(texts))
  {
    var items := if texts == [] then "" else JsonItems(texts);
    BytesOfAscii("[");
    BytesOfAscii("]");
    BytesOfConcat("[" + items, "]");
    BytesOfConcat("[", items);
    if texts == [] {
      BytesOfAscii("");
    } else {
      ItemsWidth(texts);
    }
  }

  /** The estimate is the number of started triples of bytes, and eight more. */
  lemma TokensRoundUp(bytes: nat)
    ensures 3 * (Tokens(bytes) - 8) >= bytes
    ensures bytes > 0 ==> 3 * (Tokens(bytes) - 9) < bytes
    ensures Tokens(0) == 8
  {
  }
}
