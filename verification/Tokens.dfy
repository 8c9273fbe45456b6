/** The approximate token counter: a quarter of the UTF-8 size of the text, or of the compact JSON text of a value. */
module Tokens {
  import opened Wrappers
  import opened Blocks
  import opened Utf8

  function Max(a: int, b: int): int {
    if a < b then b else a
  }

  function CountText(value: string): (tokens: nat) {
    if value == "" then 0 else Max(1, (Size(value) + 3) / 4)
  }

  /******* Compact JSON with sorted keys; only quotes, backslashes and control characters are escaped *******/

  function HexDigit(n: int): char
    requires 0 <= n < 16
  {
    "0123456789abcdef"[n]
  }

  function Escaped(c: char): string {
    if c == '\"' then "\\\""
    else if c == '\\' then "\\\\"
    else if c == '\n' then "\\n"
    else if c == '\r' then "\\r"
    else if c == '\t' then "\\t"
    else if c as int == 8 then "\\b"
    else if c as int == 12 then "\\f"
    else if c as int < 32 then "\\u00" + [HexDigit(c as int / 16), HexDigit(c as int % 16)]
    else [c]
  }

  function EscapedText(s: string): string {
    if s == "" then "" else Escaped(s[0]) + EscapedText(s[1..])
  }

  function Quoted(s: string): string {
    "\"" + EscapedText(s) + "\""
  }

  function Decimal(n: nat): (digits: string) {
    (if n < 10 then "" else Decimal(n / 10)) + [HexDigit(n % 10)]
  }

  function RenderItem(item: Block): string {
    match item
    case Text(text) => "{\"text\":" + Quoted(text) + "}"
    case Thinking(thinking, signature) =>
      "{\"signature\":" + Quoted(signature) + ",\"thinking\":" + Quoted(thinking) + "}"
    case ToolUse(call) =>
      "{\"id\":" + Quoted(call.id) + ",\"input\":" + call.input + ",\"name\":" + Quoted(call.name) + "}"
    case ToolResult(callId, content) =>
      "{\"content\":" + Quoted(content) + ",\"tool_call_id\":" + Quoted(callId) + "}"
    case Dict(role, content, version) =>
      "{\"content\":" + Quoted(content) + ",\"role\":" + Quoted(role)
      + (if version.None? then "" else ",\"summary_version\":" + Decimal(version.value)) + "}"
  }

  function RenderItems(items: seq<Block>): string {
    if items == [] then ""
    else if |items| == 1 then RenderItem(items[0])
    else RenderItem(items[0]) + "," + RenderItems(items[1..])
  }

  function CountItems(items: seq<Block>): nat {
    CountText("[" + RenderItems(items) + "]")
  }

  /** `tools` is the JSON text of the tool schemas. */
  function CountRequest(system: string, tools: string, items: seq<Block>): nat {
    CountText(system) + CountText(tools) + CountItems(items)
  }

  /******* Monotonicity *******/

  /** The bytes a list of items takes, each with a separator. */
  function Weight(items: seq<Block>): nat {
    if items == [] then 0 else Size(RenderItem(items[0])) + 1 + Weight(items[1..])
  }

  lemma AsciiSize(c: char)
    requires c as int < 0x80
    ensures Size([c]) == 1
  {
    assert Encode([c]) == EncodeChar(c) + Encode([c][1..]);
  }

  lemma {:induction false} RenderedWeight(items: seq<Block>)
    requires items != []
    ensures Size(RenderItems(items)) + 1 == Weight(items)
  {
    if |items| == 1 {
      assert Weight(items[1..]) == 0;
    } else {
      RenderedWeight(items[1..]);
      AsciiSize(',');
      SizeOfAppend(RenderItem(items[0]) + ",", RenderItems(items[1..]));
      SizeOfAppend(RenderItem(items[0]), ",");
    }
  }

  /** What a list costs depends on its weight alone. */
  lemma CountByWeight(items: seq<Block>)
    ensures CountItems(items) == if items == [] then 1 else (Weight(items) + 4) / 4
  {
    var inner := RenderItems(items);
    AsciiSize('[');
    AsciiSize(']');
    SizeOfAppend("[" + inner, "]");
    SizeOfAppend("[", inner);
    if items != [] {
      RenderedWeight(items);
    } else {
      assert inner == "";
    }
  }

  lemma CountIsMonotone(system: string, tools: string, few: seq<Block>, many: seq<Block>)
    requires Weight(few) <= Weight(many)
    ensures CountRequest(system, tools, few) <= CountRequest(system, tools, many)
  {
    CountByWeight(few);
    CountByWeight(many);
    assert few == [] || Weight(few) >= 1;
  }

  lemma {:induction false} WeightOfAppend(a: seq<Block>, b: seq<Block>)
    ensures Weight(a + b) == Weight(a) + Weight(b)
  {
    if a == [] {
      assert a + b == b;
    } else {
      assert (a + b)[1..] == a[1..] + b;
      WeightOfAppend(a[1..], b);
    }
  }

  lemma CountOfShortText(value: string, tokens: int)
    requires Size(value) <= Max(4, 4 * tokens)
    ensures CountText(value) <= Max(1, tokens)
  {
  }

  /******* JSON strings can be read back *******/

  lemma HexDigitsDiffer(m: int, n: int)
    requires 0 <= m < 16 && 0 <= n < 16 && HexDigit(m) == HexDigit(n)
    ensures m == n
  {
  }

  lemma EscapedShape(c: char)
    ensures Escaped(c) != []
    ensures Escaped(c)[0] != '\\' ==> Escaped(c) == [c]
    ensures Escaped(c)[0] == '\\' ==> |Escaped(c)| == if Escaped(c)[1] == 'u' then 6 else 2
  {
  }

  /** No escape is the beginning of another. */
  lemma EscapesDiffer(c: char, d: char, x: string, y: string)
    requires Escaped(c) + x == Escaped(d) + y
    ensures c == d && x == y
  {
    var text := Escaped(c) + x;
    EscapedShape(c);
    EscapedShape(d);
    assert Escaped(c)[0] == text[0] == Escaped(d)[0];
    if text[0] == '\\' {
      assert Escaped(c)[1] == text[1] == Escaped(d)[1];
    }
    var n := |Escaped(c)|;
    assert n == |Escaped(d)|;
    assert Escaped(c) == text[..n] == Escaped(d);
    assert x == text[n..] == y;
    SameEscape(c, d);
  }

  lemma SameEscape(c: char, d: char)
    requires Escaped(c) == Escaped(d)
    ensures c == d
  {
    if |Escaped(c)| == 6 {
      var e := Escaped(c);
      assert e[4] == HexDigit(c as int / 16) && e[5] == HexDigit(c as int % 16);
      assert e[4] == HexDigit(d as int / 16) && e[5] == HexDigit(d as int % 16);
      HexDigitsDiffer(c as int / 16, d as int / 16);
      HexDigitsDiffer(c as int % 16, d as int % 16);
    }
  }

  /** Texts that differ stay different as JSON strings. */
  lemma {:induction false} QuotedTextsDiffer(a: string, b: string)
    requires EscapedText(a) == EscapedText(b)
    ensures a == b
  {
    if a != "" && b != "" {
      EscapesDiffer(a[0], b[0], EscapedText(a[1..]), EscapedText(b[1..]));
      QuotedTextsDiffer(a[1..], b[1..]);
    } else if a != "" {
      EscapedShape(a[0]);
    } else if b != "" {
      EscapedShape(b[0]);
    }
  }
}
