/** Strings as the gateway sees them: Unicode scalar values with UTF-8 widths, substring search and trimming. */
module Text {
  import opened Wrappers

  /** Number of bytes of a character in UTF-8 (section 3 of RFC 3629). */
  function Utf8Width(c: char): nat {
    var cp := c as int;
    if cp < 0x80 then 1 else if cp < 0x800 then 2 else if cp < 0x10000 then 3 else 4
  }

  /** What `str::len` returns. */
  function ByteLen(s: string): (n: nat)
    ensures |s| <= n <= 4 * |s|
  {
    if s == "" then 0 else Utf8Width(s[0]) + ByteLen(s[1..])
  }

  lemma {:induction false} ByteLenConcat(s: string, t: string)
    ensures ByteLen(s + t) == ByteLen(s) + ByteLen(t)
  {
    if s == "" {
      assert s + t == t;
    } else {
      assert (s + t)[1..] == s[1..] + t;
      ByteLenConcat(s[1..], t);
    }
  }

  predicate IsAscii(s: string) {
    forall i | 0 <= i < |s| :: s[i] as int < 0x80
  }

  lemma {:induction false} ByteLenAscii(s: string)
    requires IsAscii(s)
    ensures ByteLen(s) == |s|
  {
    if s == "" {
    } else {
      ByteLenAscii(s[1..]);
    }
  }

  /** The Unicode White_Space property, which `trim` and `trim_start` remove. */
  predicate IsWhitespace(c: char) {
    var cp := c as int;
    || 0x09 <= cp <= 0x0D || cp == 0x20 || cp == 0x85 || cp == 0xA0 || cp == 0x1680
    || 0x2000 <= cp <= 0x200A || cp == 0x2028 || cp == 0x2029 || cp == 0x202F || cp == 0x205F || cp == 0x3000
  }

  predicate IsBlank(s: string) {
    forall i | 0 <= i < |s| :: IsWhitespace(s[i])
  }

  /** How many white-space characters the text starts with. */
  function Lead(s: string): (n: nat)
    ensures n <= |s|
  {
    if s == "" || !IsWhitespace(s[0]) then 0 else 1 + Lead(s[1..])
  }

  function TrimStart(s: string): string {
    s[Lead(s)..]
  }

  lemma {:induction false} LeadIsMaximal(s: string)
    ensures IsBlank(s[..Lead(s)])
    ensures Lead(s) < |s| ==> !IsWhitespace(s[Lead(s)])
  {
    if s == "" || !IsWhitespace(s[0]) {
    } else {
      LeadIsMaximal(s[1..]);
      assert s[..Lead(s)] == [s[0]] + s[1..][..Lead(s[1..])];
    }
  }

  lemma {:induction false} LeadConcat(s: string, t: string)
    ensures Lead(s + t) == if Lead(s) < |s| then Lead(s) else |s| + Lead(t)
  {
    if s == "" {
      assert s + t == t;
    } else {
      assert (s + t)[1..] == s[1..] + t;
      LeadConcat(s[1..], t);
    }
  }

  /** Once something other than white space has arrived, later text only extends the trimmed text. */
  lemma TrimStartConcat(s: string, t: string)
    ensures TrimStart(s) != "" ==> TrimStart(s + t) == TrimStart(s) + t
    ensures TrimStart(s) == "" ==> TrimStart(s + t) == TrimStart(t)
  {
    LeadConcat(s, t);
  }

  function TrimEnd(s: string): string {
    if s == "" || !IsWhitespace(s[|s| - 1]) then s else TrimEnd(s[..|s| - 1])
  }

  function Trim(s: string): string {
    TrimEnd(TrimStart(s))
  }

  /** Trimming takes away white space at both ends, and all of it. */
  lemma {:induction false} TrimIs(s: string) returns (before: string, after: string)
    ensures s == before + Trim(s) + after && IsBlank(before) && IsBlank(after)
    ensures Trim(s) != "" ==> !IsWhitespace(Trim(s)[0]) && !IsWhitespace(Trim(s)[|Trim(s)| - 1])
  {
    var t := TrimStart(s);
    before := s[..Lead(s)];
    LeadIsMaximal(s);
    after := TrimEndIs(t);
    assert Trim(s) == TrimEnd(t) && s == before + t;
    if Trim(s) != "" {
      assert Trim(s)[0] == t[0] == s[Lead(s)];
    }
    ConcatAssociative(before, TrimEnd(t), after);
  }

  lemma {:induction false} TrimEndIs(s: string) returns (after: string)
    ensures s == TrimEnd(s) + after && IsBlank(after)
    ensures TrimEnd(s) != "" ==> !IsWhitespace(TrimEnd(s)[|TrimEnd(s)| - 1])
  {
    if s == "" || !IsWhitespace(s[|s| - 1]) {
      after := "";
    } else {
      after := TrimEndIs(s[..|s| - 1]);
      after := after + [s[|s| - 1]];
    }
  }

  /** `needle` stands at position `i` of `hay`. */
  predicate OccursAt(hay: string, needle: string, i: nat) {
    i + |needle| <= |hay| && hay[i..i + |needle|] == needle
  }

  /** `str::find`: the first position at which `needle` stands. */
  function Find(hay: string, needle: string): (r: Option<nat>)
    ensures r.Some? ==> OccursAt(hay, needle, r.value) && forall j: nat | j < r.value :: !OccursAt(hay, needle, j)
    ensures r.None? ==> forall j: nat :: !OccursAt(hay, needle, j)
  {
    FindFrom(hay, needle, 0)
  }

  function FindFrom(hay: string, needle: string, from: nat): (r: Option<nat>)
    requires from <= |hay| + 1
    requires forall j: nat | j < from :: !OccursAt(hay, needle, j)
    ensures r.Some? ==> OccursAt(hay, needle, r.value) && forall j: nat | j < r.value :: !OccursAt(hay, needle, j)
    ensures r.None? ==> forall j: nat :: !OccursAt(hay, needle, j)
    decreases |hay| + 1 - from
  {
    if |hay| < from then None
    else if OccursAt(hay, needle, from) then Some(from)
    else FindFrom(hay, needle, from + 1)
  }

  /** The first occurrence is the only answer `Find` can give. */
  lemma FindIs(hay: string, needle: string, i: nat)
    requires OccursAt(hay, needle, i)
    requires forall j: nat | j < i :: !OccursAt(hay, needle, j)
    ensures Find(hay, needle) == Some(i)
  {
    var r := Find(hay, needle);
    assert r.Some?;
    assert !(r.value < i) && !(i < r.value);
  }

  lemma ConcatAssociative(a: string, b: string, c: string)
    ensures a + b + c == a + (b + c)
  {
  }

  /** All pieces of a text, one after the other. */
  function Concat(parts: seq<string>): string {
    if parts == [] then "" else parts[0] + Concat(parts[1..])
  }

  lemma {:induction false} ConcatAppend(a: seq<string>, b: seq<string>)
    ensures Concat(a + b) == Concat(a) + Concat(b)
  {
    if a == [] {
      assert a + b == b;
    } else {
      assert (a + b)[1..] == a[1..] + b;
      ConcatAppend(a[1..], b);
      assert a[0] + (Concat(a[1..]) + Concat(b)) == (a[0] + Concat(a[1..])) + Concat(b);
    }
  }

  lemma ConcatSnoc(a: seq<string>, s: string)
    ensures Concat(a + [s]) == Concat(a) + s
  {
    ConcatAppend(a, [s]);
    assert Concat([s]) == s + Concat([]);
    assert s + "" == s;
  }

  /** `join`: the parts with a separator between neighbours. */
  function Join(parts: seq<string>, sep: string): string {
    if parts == [] then ""
    else if |parts| == 1 then parts[0]
    else parts[0] + sep + Join(parts[1..], sep)
  }

  lemma {:induction false} JoinSnoc(parts: seq<string>, text: string, sep: string)
    requires parts != []
    ensures Join(parts + [text], sep) == Join(parts, sep) + sep + text
  {
    assert (parts + [text])[1..] == parts[1..] + [text];
    if |parts| == 1 {
    } else {
      JoinSnoc(parts[1..], text, sep);
      ConcatAssociative(parts[0] + sep, Join(parts[1..], sep), sep);
      ConcatAssociative(parts[0] + sep, Join(parts[1..], sep) + sep, text);
    }
  }
}
