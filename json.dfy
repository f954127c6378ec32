/**
 * The two JSON library calls the selection code makes, at their interface.
 *
 * `JSON.parse` is not modelled as a parser: its result is the input datatype `Json`, which keeps
 * exactly what the selection code looks at, namely the `polygonList` member and, when that is an
 * array, whether each element is a string.
 *
 * `JSON.stringify(obj, undefined, 2)` is only ever applied to `{ polygonList: [...strings] }`;
 * `StringifySelection` writes that text out.
 */
module JsonModel {

  /** One element of the `polygonList` array. */
  datatype Entry = Str(s: string) | NonString

  /**
   * The `polygonList` member of the parsed value. `NotArray` is anything else that is present
   * (a string, a number, null, an object); `Missing` also covers a parsed value that is not an
   * object at all, since indexing it yields `undefined` or, for `null`, throws, and either way
   * the selection is rejected.
   */
  datatype Field = Missing | NotArray | Array(items: seq<Entry>)

  /** The outcome of `JSON.parse(text)`: it throws (`NotJson`) or yields a value. */
  datatype Json = NotJson | Document(polygonList: Field)

  /** The characters of one string as JSON.stringify escapes it. */
  function EscapeChar(c: char): string
  {
    if c == '"' then "\\\""
    else if c == '\\' then "\\\\"
    else if c == '\n' then "\\n"
    else if c == '\r' then "\\r"
    else if c == '\t' then "\\t"
    else if c == '\U{0008}' then "\\b"
    else if c == '\U{000C}' then "\\f"
    else if (c as int) < 0x20 then "\\u00" + [HexDigit(c as int / 16), HexDigit(c as int % 16)]
    else [c]
  }

  function HexDigit(d: nat): char
    requires d < 16
  {
    "0123456789abcdef"[d]
  }

  function Escape(s: string): string
  {
    if |s| == 0 then "" else EscapeChar(s[0]) + Escape(s[1..])
  }

  /** A string needs no escaping when it has no quote, backslash or control character. */
  predicate Plain(s: string)
  {
    forall i :: 0 <= i < |s| ==> s[i] != '"' && s[i] != '\\' && (s[i] as int) >= 0x20
  }

  lemma {:induction false} EscapePlain(s: string)
    requires Plain(s)
    ensures Escape(s) == s
  {
    if |s| > 0 {
      EscapePlain(s[1..]);
      assert s == [s[0]] + s[1..];
    }
  }

  const Indent := "    \""
  const Quote := "\""
  const Separator := ",\n"

  /** The array elements, one per line with four spaces of indentation, separated by commas. */
  function Elements(lines: seq<string>): string
    requires |lines| > 0
  {
    var first := Indent + Escape(lines[0]) + Quote;
    if |lines| == 1 then first else first + Separator + Elements(lines[1..])
  }

  /** The text around the array elements: 2-space indentation, one element per line. */
  const EmptySelection := "{\n  \"polygonList\": []\n}"
  const Head := "{\n  \"polygonList\": [\n"
  const Tail := "\n  ]\n}"

  /** `JSON.stringify({ polygonList: lines }, undefined, 2)`. */
  function StringifySelection(lines: seq<string>): (text: string)
    ensures |text| > 0 && text[0] == '{'
  {
    if |lines| == 0 then EmptySelection else Head + Elements(lines) + Tail
  }
}
