/**
 Printed JSON values, with white space wherever RFC 8259 allows it.  The types admit every
 text of the grammar and a little more (any byte after a backslash, any digits in a number).
 */
module JsonText {
  import opened Wrappers
  import opened Bytes

  const QUOTE: byte := 34
  const COMMA: byte := 44
  const COLON: byte := 58
  const OPEN_BRACKET: byte := 91
  const BACKSLASH: byte := 92
  const CLOSE_BRACKET: byte := 93
  const OPEN_BRACE: byte := 123
  const CLOSE_BRACE: byte := 125

  type blank = b: byte | b == 32 || b == 9 || b == 10 || b == 13 witness 32
  type digit = b: byte | 48 <= b <= 57 witness 48
  type plain = b: byte | b != QUOTE && b != BACKSLASH witness 32

  /** A byte of a string, or a backslash with the byte after it. */
  datatype Char = Plain(p: plain) | Escaped(b: byte)

  datatype Exponent = Exponent(upper: bool, sign: Option<bool>, digits: seq<digit>)

  datatype Json =
    | Null
    | False
    | True
    | Number(minus: bool, whole: seq<digit>, frac: seq<digit>, exp: Option<Exponent>)
    | Text(chars: seq<Char>)
    | Array(elements: Elements)
    | Nested(inner: Object)

  datatype Elements =
    | NoElements(space: seq<blank>)
    | LastElement(before: seq<blank>, value: Json, after: seq<blank>)
    | Element(before: seq<blank>, value: Json, after: seq<blank>, rest: Elements)

  datatype Member =
    Member(beforeName: seq<blank>, name: seq<Char>, afterName: seq<blank>,
           beforeValue: seq<blank>, value: Json, afterValue: seq<blank>)

  datatype Object =
    | Empty(space: seq<blank>)
    | Filled(first: Member, rest: Members)

  datatype Members = Done | More(first: Member, rest: Members)

  function PrintNumber(n: Json): seq<byte>
    requires n.Number?
  {
    var sign: seq<byte> := if n.minus then [45] else [];
    var point: seq<byte> := if n.frac == [] then [] else [46];
    sign + n.whole + point + n.frac
    + (if n.exp.None? then [] else PrintExponent(n.exp.value))
  }

  function PrintExponent(e: Exponent): seq<byte> {
    var sign: seq<byte> := if e.sign.None? then [] else if e.sign.value then [45] else [43];
    [if e.upper then 69 else 101] + sign + e.digits
  }

  function PrintChars(chars: seq<Char>): seq<byte> {
    if chars == [] then []
    else (match chars[0] case Plain(p) => [p] case Escaped(b) => [BACKSLASH, b]) + PrintChars(chars[1..])
  }

  function PrintString(chars: seq<Char>): seq<byte> { [QUOTE] + PrintChars(chars) + [QUOTE] }

  function PrintValue(v: Json): seq<byte> {
    match v
    case Null => [110, 117, 108, 108]
    case False => [102, 97, 108, 115, 101]
    case True => [116, 114, 117, 101]
    case Number(_, _, _, _) => PrintNumber(v)
    case Text(chars) => PrintString(chars)
    case Array(elements) => [OPEN_BRACKET] + PrintElements(elements) + [CLOSE_BRACKET]
    case Nested(inner) => PrintObject(inner)
  }

  function PrintElements(es: Elements): seq<byte> {
    match es
    case NoElements(space) => space
    case LastElement(before, value, after) => before + PrintValue(value) + after
    case Element(before, value, after, rest) => before + PrintValue(value) + after + [COMMA] + PrintElements(rest)
  }

  function PrintMember(m: Member): seq<byte> {
    m.beforeName + PrintString(m.name) + m.afterName + [COLON]
    + m.beforeValue + PrintValue(m.value) + m.afterValue
  }

  function PrintMembers(ms: Members): seq<byte> {
    match ms
    case Done => []
    case More(first, rest) => [COMMA] + PrintMember(first) + PrintMembers(rest)
  }

  function PrintInside(o: Object): seq<byte>
    decreases o, 0
  {
    match o
    case Empty(space) => space
    case Filled(first, rest) => PrintMember(first) + PrintMembers(rest)
  }

  function PrintObject(o: Object): seq<byte>
    decreases o, 1
  {
    [OPEN_BRACE] + PrintInside(o) + [CLOSE_BRACE]
  }
}
