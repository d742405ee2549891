/** Diagnosing whether a JSON text was cut off. */
module Truncation {
  import opened Text

  datatype Reason =
    | EmptyString
    | NoClosingBrace
    | NoClosingBracket
    | UnbalancedBraces(count: int)
    | UnbalancedBrackets(count: int)
    | UnclosedString(quotes: nat)
    | AllPassed

  datatype TruncationInfo = TruncationInfo(isTruncated: bool, reason: Reason, sizeBytes: nat)

  /** How many more characters open than close. */
  function Net(s: string, opening: char, closing: char): int {
    if s == "" then 0
    else
      var c := s[|s| - 1];
      Net(s[..|s| - 1], opening, closing) + if c == opening then 1 else if c == closing then -1 else 0
  }

  /** Quotation marks; a backslash and the character after it are skipped. */
  function Quotes(s: string): nat {
    if s == "" then 0
    else if s[0] == '\\' then if |s| == 1 then 0 else Quotes(s[2..])
    else (if s[0] == '"' then 1 else 0) + Quotes(s[1..])
  }

  function Diagnosis(s: string): Reason {
    var t := Trim(s);
    if t == "" then EmptyString
    else if t[0] == '{' && t[|t| - 1] != '}' then NoClosingBrace
    else if t[0] == '[' && t[|t| - 1] != ']' then NoClosingBracket
    else if Net(t, '{', '}') != 0 then UnbalancedBraces(Net(t, '{', '}'))
    else if Net(t, '[', ']') != 0 then UnbalancedBrackets(Net(t, '[', ']'))
    else if Quotes(t) % 2 != 0 then UnclosedString(Quotes(t))
    else AllPassed
  }

  predicate IsTruncated(s: string) {
    Diagnosis(s) != EmptyString && Diagnosis(s) != AllPassed
  }

  method DiagnoseJsonTruncation(s: string) returns (info: TruncationInfo)
    ensures info == TruncationInfo(IsTruncated(s), Diagnosis(s), ByteLen(s))
  {
    var size := ByteLen(s);
    var t := Trim(s);
    if t == "" {
      return TruncationInfo(false, EmptyString, size);
    }
    if t[0] == '{' && t[|t| - 1] != '}' {
      return TruncationInfo(true, NoClosingBrace, size);
    }
    if t[0] == '[' && t[|t| - 1] != ']' {
      return TruncationInfo(true, NoClosingBracket, size);
    }
    var braces, brackets := CountNesting(t);
    if braces != 0 {
      return TruncationInfo(true, UnbalancedBraces(braces), size);
    }
    if brackets != 0 {
      return TruncationInfo(true, UnbalancedBrackets(brackets), size);
    }
    var quotes := CountQuotes(t);
    if quotes % 2 != 0 {
      return TruncationInfo(true, UnclosedString(quotes), size);
    }
    return TruncationInfo(false, AllPassed, size);
  }

  method CountNesting(t: string) returns (braces: int, brackets: int)
    ensures braces == Net(t, '{', '}') && brackets == Net(t, '[', ']')
  {
    braces, brackets := 0, 0;
    for i := 0 to |t|
      invariant braces == Net(t[..i], '{', '}') && brackets == Net(t[..i], '[', ']')
    {
      assert t[..i + 1][..i] == t[..i];
      match t[i] {
        case '{' => braces := braces + 1;
        case '}' => braces := braces - 1;
        case '[' => brackets := brackets + 1;
        case ']' => brackets := brackets - 1;
        case _ =>
      }
    }
    assert t[..|t|] == t;
  }

  method CountQuotes(t: string) returns (quotes: nat)
    ensures quotes == Quotes(t)
  {
    quotes := 0;
    var i := 0;
    while i < |t|
      invariant 0 <= i <= |t|
      invariant quotes + Quotes(t[i..]) == Quotes(t)
    {
      var c := t[i];
      if c == '\\' {
        // The escaped character, if there is one, is skipped.
        i := if i + 1 < |t| then i + 2 else i + 1;
        continue;
      }
      if c == '"' {
        quotes := quotes + 1;
      }
      i := i + 1;
    }
  }
}
