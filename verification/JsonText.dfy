/** JSON texts (RFC 8259): values with their white space, strings and escapes, and how they are written. */
module JsonText {
  import opened Text

  /** A character of a string: itself, an escaped one, or four hexadecimal digits after `\u`. */
  datatype StringChar = Plain(c: char) | Escaped(c: char) | Unicode(digits: string)

  /** A value; numbers and literals are atoms. The blank text stands in an array or object without elements. */
  datatype Json =
    | Str(chars: seq<StringChar>)
    | Atom(text: string)
    | Arr(blank: string, items: seq<Item>)
    | Obj(blank: string, members: seq<Member>)

  /** An element of an array, or the value of a member, between white space. */
  datatype Item = Item(before: string, value: Json, after: string)

  datatype Member = Member(before: string, key: seq<StringChar>, between: string, item: Item)

  /** Section 2: the white space of JSON. */
  predicate IsSpace(s: string) {
    forall i | 0 <= i < |s| :: s[i] in {' ', '\t', '\n', '\r'}
  }

  /** Characters that stand for themselves in the grammar. */
  predicate IsStructural(c: char) {
    c in {'{', '}', '[', ']', ':', ',', '"', '\\'}
  }

  predicate IsHexDigit(c: char) {
    '0' <= c <= '9' || 'a' <= c <= 'f' || 'A' <= c <= 'F'
  }

  /** Section 7: quotation marks and backslashes are escaped. */
  predicate ValidChar(c: StringChar) {
    match c
    case Plain(p) => p != '"' && p != '\\' && p as int >= 0x20
    case Escaped(e) => e in {'"', '\\', '/', 'b', 'f', 'n', 'r', 't'}
    case Unicode(digits) => |digits| == 4 && forall i | 0 <= i < 4 :: IsHexDigit(digits[i])
  }

  predicate ValidString(chars: seq<StringChar>) {
    forall i | 0 <= i < |chars| :: ValidChar(chars[i])
  }

  predicate ValidAtom(text: string) {
    text != "" && forall i | 0 <= i < |text| :: !IsStructural(text[i]) && !IsWhitespace(text[i])
  }

  predicate Valid(j: Json)
    decreases j
  {
    match j
    case Str(chars) => ValidString(chars)
    case Atom(text) => ValidAtom(text)
    case Arr(blank, items) => IsSpace(blank) && forall k | 0 <= k < |items| :: ValidItem(items[k])
    case Obj(blank, members) => IsSpace(blank) && forall k | 0 <= k < |members| :: ValidMember(members[k])
  }

  predicate ValidItem(i: Item)
    decreases i
  {
    IsSpace(i.before) && IsSpace(i.after) && Valid(i.value)
  }

  predicate ValidMember(m: Member)
    decreases m
  {
    IsSpace(m.before) && ValidString(m.key) && IsSpace(m.between) && ValidItem(m.item)
  }

  function WriteChar(c: StringChar): string {
    match c
    case Plain(p) => [p]
    case Escaped(e) => ['\\', e]
    case Unicode(digits) => "\\u" + digits
  }

  function WriteChars(chars: seq<StringChar>): string {
    if chars == [] then "" else WriteChars(chars[..|chars| - 1]) + WriteChar(chars[|chars| - 1])
  }

  function WriteString(chars: seq<StringChar>): string {
    "\"" + WriteChars(chars) + "\""
  }

  function Separator(n: nat): string {
    if n == 0 then "" else ","
  }

  /** A value as text. */
  function Write(j: Json): string
    decreases j, 1
  {
    match j
    case Str(chars) => WriteString(chars)
    case Atom(text) => text
    case Arr(blank, items) => "[" + WriteItems(j, |items|) + "]"
    case Obj(blank, members) => "{" + WriteMembers(j, |members|) + "}"
  }

  /** The first items of an array, with commas between them. */
  function WriteItems(j: Json, n: nat): string
    requires j.Arr? && n <= |j.items|
    decreases j, 0, n
  {
    if j.items == [] then j.blank
    else if n == 0 then ""
    else WriteItems(j, n - 1) + Separator(n - 1) + WriteItem(j.items[n - 1])
  }

  function WriteItem(i: Item): string
    decreases i
  {
    i.before + Write(i.value) + i.after
  }

  function WriteMembers(j: Json, n: nat): string
    requires j.Obj? && n <= |j.members|
    decreases j, 0, n
  {
    if j.members == [] then j.blank
    else if n == 0 then ""
    else WriteMembers(j, n - 1) + Separator(n - 1) + WriteMember(j.members[n - 1])
  }

  function WriteMember(m: Member): string
    decreases m
  {
    m.before + WriteString(m.key) + m.between + ":" + WriteItem(m.item)
  }
}
