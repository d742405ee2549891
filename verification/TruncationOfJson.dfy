/** The diagnosis on JSON texts and on what is left of them when they are cut off. */
module TruncationOfJson {
  import opened Text
  import opened JsonText
  import opened JsonTokens
  import opened JsonQuotes
  import opened Truncation

  // ----- Trimming -----

  lemma {:induction false} TrimEndNet(s: string, opening: char, closing: char)
    requires IsNesting(opening, closing)
    ensures Net(TrimEnd(s), opening, closing) == Net(s, opening, closing)
  {
    if s == "" || !IsWhitespace(s[|s| - 1]) {
    } else {
      TrimEndNet(s[..|s| - 1], opening, closing);
    }
  }

  lemma {:induction false} TrimEndQuotes(s: string)
    ensures Quotes(TrimEnd(s)) == Quotes(s)
  {
    if s == "" || !IsWhitespace(s[|s| - 1]) {
    } else {
      TrimEndQuotes(s[..|s| - 1]);
      LastIsNoQuote(s);
    }
  }

  /** A last character that is no quotation mark, escaped or not, does not count. */
  lemma {:induction false} LastIsNoQuote(s: string)
    requires s != "" && s[|s| - 1] != '"' && s[|s| - 1] != '\\'
    ensures Quotes(s[..|s| - 1]) == Quotes(s)
  {
    var init := s[..|s| - 1];
    if |s| == 1 {
      assert s[1..] == "";
    } else if s[0] != '\\' {
      LastIsNoQuote(s[1..]);
      assert init[1..] == s[1..][..|s| - 2];
    } else if |s| == 2 {
      assert s[2..] == "";
    } else {
      LastIsNoQuote(s[2..]);
      assert init[2..] == s[2..][..|s| - 3];
    }
  }

  lemma {:induction false} TrimEndKeepsStart(s: string)
    requires s != "" && !IsWhitespace(s[0])
    ensures TrimEnd(s) != "" && TrimEnd(s)[0] == s[0]
  {
    if !IsWhitespace(s[|s| - 1]) {
    } else {
      TrimEndKeepsStart(s[..|s| - 1]);
    }
  }

  lemma {:induction false} TrimEndSpace(s: string, space: string)
    requires s != "" && !IsWhitespace(s[|s| - 1]) && IsSpace(space)
    ensures TrimEnd(s + space) == s
    decreases |space|
  {
    if space == "" {
      assert s + space == s;
    } else {
      assert (s + space)[..|s + space| - 1] == s + space[..|space| - 1];
      TrimEndSpace(s, space[..|space| - 1]);
    }
  }

  lemma {:induction false} LeadSpace(space: string, s: string)
    requires IsSpace(space) && (s != "" ==> !IsWhitespace(s[0]))
    ensures TrimStart(space + s) == s
  {
    if space == "" {
      assert space + s == s;
    } else {
      assert (space + s)[1..] == space[1..] + s;
      LeadSpace(space[1..], s);
      assert TrimStart(space + s) == TrimStart(space[1..] + s);
    }
  }

  // ----- The diagnosis -----

  predicate IsContainer(j: Json) {
    Valid(j) && (j.Obj? || j.Arr?)
  }

  /** A document holds an object, an array or a string, with white space before and after. */
  predicate HasEnds(j: Json) {
    Valid(j) && !j.Atom?
  }

  function Document(before: string, j: Json, after: string): string {
    before + Write(j) + after
  }

  lemma ContainerEnds(j: Json)
    requires HasEnds(j)
    ensures |Write(j)| >= 2 && Write(j)[0] == (if j.Obj? then '{' else if j.Arr? then '[' else '"')
    ensures Write(j)[|Write(j)| - 1] == if j.Obj? then '}' else if j.Arr? then ']' else '"'
  {
  }

  /** What is counted before a position: the containers of one kind that are open there, and what the strings hold. */
  function CountAt(j: Json, k: nat, opening: char, closing: char): int {
    OpenAt(Tokens(j), k, opening, closing) + QuotedNet(Tokens(j), k, opening, closing)
  }

  /** The counts are those of the text. */
  lemma CountsAt(j: Json, k: nat)
    requires HasEnds(j) && k <= |Write(j)|
    ensures Net(Write(j)[..k], '{', '}') == CountAt(j, k, '{', '}')
    ensures Net(Write(j)[..k], '[', ']') == CountAt(j, k, '[', ']')
    ensures Quotes(Write(j)[..k]) % 2 == 1 <==> InString(Tokens(j), k)
  {
    TokensWrite(j);
    TokensFine(j);
    NetAt(Tokens(j), k, '{', '}');
    NetAt(Tokens(j), k, '[', ']');
    QuotesAt(Tokens(j), k);
  }

  /** How many more characters of a kind open than close in the strings of a value. */
  function StringsNet(j: Json, opening: char, closing: char): int {
    QuotedNet(Tokens(j), |Write(j)|, opening, closing)
  }

  /**
   * A complete document is diagnosed as not cut off exactly when its strings hold as many opening braces as closing
   * ones, and as many opening brackets as closing ones.
   */
  lemma CompleteIsNotTruncated(before: string, j: Json, after: string)
    requires IsSpace(before) && IsSpace(after) && HasEnds(j)
    ensures !IsTruncated(Document(before, j, after)) <==>
            StringsNet(j, '{', '}') == 0 && StringsNet(j, '[', ']') == 0
  {
    DocumentTrims(before, j, after);
    ContainerEnds(j);
    CountsAtEnd(j);
  }

  /** In the end all containers are closed, and only the strings count. */
  lemma CountsAtEnd(j: Json)
    requires HasEnds(j)
    ensures Net(Write(j), '{', '}') == StringsNet(j, '{', '}') && Net(Write(j), '[', ']') == StringsNet(j, '[', ']')
    ensures Quotes(Write(j)) % 2 == 0
  {
    CountsAt(j, |Write(j)|);
    assert Write(j)[..|Write(j)|] == Write(j);
    TokensNested(j, '{', '}');
    TokensNested(j, '[', ']');
    TokensWrite(j);
    Beyond(Tokens(j), |Write(j)|, '{', '}');
  }

  lemma DocumentTrims(before: string, j: Json, after: string)
    requires IsSpace(before) && IsSpace(after) && HasEnds(j)
    ensures Trim(Document(before, j, after)) == Write(j)
  {
    ContainerEnds(j);
    assert Document(before, j, after) == before + (Write(j) + after);
    LeadSpace(before, Write(j) + after);
    TrimEndSpace(Write(j), after);
  }

  // ----- What is cut off -----

  /** The last character that is not white space. */
  function LastVisible(s: string): (c: char)
    requires TrimEnd(s) != ""
  {
    TrimEnd(s)[|TrimEnd(s)| - 1]
  }

  /** An object ends with a brace, an array with a bracket. */
  predicate EndsLike(j: Json, c: char) {
    (j.Obj? ==> c == '}') && (j.Arr? ==> c == ']')
  }

  /** A cut goes unnoticed: it is behind what might close the value, behind a string, and all counts come to nothing. */
  predicate Unnoticed(j: Json, k: nat)
    requires HasEnds(j) && 1 <= k < |Write(j)|
  {
    && !InString(Tokens(j), k) && CountAt(j, k, '{', '}') == 0 && CountAt(j, k, '[', ']') == 0
    && TrimEnd(Write(j)[..k]) != "" && EndsLike(j, LastVisible(Write(j)[..k]))
  }

  /** The diagnosis of a text that begins with something visible, in terms of that text before it is trimmed. */
  lemma DiagnosisOf(before: string, s: string)
    requires IsSpace(before) && s != "" && !IsWhitespace(s[0])
    ensures TrimEnd(s) != ""
    ensures !IsTruncated(before + s) <==>
            && (s[0] == '{' ==> LastVisible(s) == '}') && (s[0] == '[' ==> LastVisible(s) == ']')
            && Net(s, '{', '}') == 0 && Net(s, '[', ']') == 0 && Quotes(s) % 2 == 0
  {
    LeadSpace(before, s);
    TrimEndKeepsStart(s);
    TrimEndNet(s, '{', '}');
    TrimEndNet(s, '[', ']');
    TrimEndQuotes(s);
  }

  /** A value that is cut off is diagnosed as cut off exactly unless that goes unnoticed. */
  lemma CutIsTruncated(before: string, j: Json, k: nat)
    requires IsSpace(before) && HasEnds(j) && 1 <= k < |Write(j)|
    ensures IsTruncated(before + Write(j)[..k]) <==> !Unnoticed(j, k)
  {
    ContainerEnds(j);
    DiagnosisOf(before, Write(j)[..k]);
    CountsAt(j, k);
  }

  /** And the reason is the first of these that holds; the counts are those of open containers and of strings. */
  lemma CutReason(before: string, j: Json, k: nat)
    requires IsSpace(before) && HasEnds(j) && 1 <= k < |Write(j)|
    ensures TrimEnd(Write(j)[..k]) != ""
    ensures var ends, braces, brackets :=
              EndsLike(j, LastVisible(Write(j)[..k])), CountAt(j, k, '{', '}'), CountAt(j, k, '[', ']');
            match Diagnosis(before + Write(j)[..k])
            case EmptyString => false
            case NoClosingBrace => j.Obj? && !ends
            case NoClosingBracket => j.Arr? && !ends
            case UnbalancedBraces(count) => ends && count == braces && braces != 0
            case UnbalancedBrackets(count) => ends && braces == 0 && count == brackets && brackets != 0
            case UnclosedString(quotes) =>
              ends && braces == 0 && brackets == 0 && InString(Tokens(j), k) && quotes == Quotes(Write(j)[..k])
            case AllPassed => Unnoticed(j, k)
  {
    ContainerEnds(j);
    CountsAt(j, k);
    ReasonOf(before, Write(j)[..k]);
  }

  lemma ReasonOf(before: string, s: string)
    requires IsSpace(before) && s != "" && !IsWhitespace(s[0])
    ensures TrimEnd(s) != ""
    ensures match Diagnosis(before + s)
            case EmptyString => false
            case NoClosingBrace => s[0] == '{' && LastVisible(s) != '}'
            case NoClosingBracket => s[0] == '[' && LastVisible(s) != ']'
            case UnbalancedBraces(count) => count == Net(s, '{', '}')
            case UnbalancedBrackets(count) => Net(s, '{', '}') == 0 && count == Net(s, '[', ']')
            case UnclosedString(quotes) =>
              Net(s, '{', '}') == 0 && Net(s, '[', ']') == 0 && quotes == Quotes(s) && quotes % 2 == 1
            case AllPassed => Net(s, '{', '}') == 0 && Net(s, '[', ']') == 0 && Quotes(s) % 2 == 0
    ensures var d := Diagnosis(before + s);
            && (d == NoClosingBrace <==> s[0] == '{' && LastVisible(s) != '}')
            && (d == NoClosingBracket <==> s[0] == '[' && LastVisible(s) != ']')
            && (d.UnbalancedBraces? ==> d.count != 0) && (d.UnbalancedBrackets? ==> d.count != 0)
  {
    LeadSpace(before, s);
    TrimEndKeepsStart(s);
    TrimEndNet(s, '{', '}');
    TrimEndNet(s, '[', ']');
    TrimEndQuotes(s);
  }

  lemma StringIsNoticed(j: Json, k: nat)
    requires Valid(j) && j.Str? && 1 <= k < |Write(j)|
    ensures !Unnoticed(j, k)
  {
    assert Tokens(j)[..0] == [];
  }

  /** However a string is cut off, escapes included, it is noticed. */
  lemma CutStringIsTruncated(before: string, j: Json, k: nat)
    requires IsSpace(before) && Valid(j) && j.Str? && 1 <= k < |Write(j)|
    ensures IsTruncated(before + Write(j)[..k])
  {
    CutIsTruncated(before, j, k);
    StringIsNoticed(j, k);
  }

  lemma {:induction false} BlankIsNotTruncated(s: string)
    requires IsSpace(s)
    ensures !IsTruncated(s)
  {
    LeadSpace(s, "");
    assert s + "" == s;
  }

  // ----- When the diagnosis is right -----

  /** In an object the strings never close all braces that are open before them, in an array no brackets. */
  predicate StaysOpen(j: Json, k: nat) {
    && (j.Obj? ==> CountAt(j, k, '{', '}') > 0)
    && (j.Arr? ==> CountAt(j, k, '[', ']') > 0)
  }

  /** Strings that stay open everywhere and balance in the end. */
  predicate Harmless(j: Json) {
    && (forall k: nat | 1 <= k < |Write(j)| :: StaysOpen(j, k))
    && StringsNet(j, '{', '}') == 0 && StringsNet(j, '[', ']') == 0
  }

  /** A cut is noticed while something stays open. */
  lemma OpenIsNoticed(j: Json, k: nat)
    requires HasEnds(j) && 1 <= k < |Write(j)| && StaysOpen(j, k)
    ensures !Unnoticed(j, k)
  {
    if j.Str? {
      StringIsNoticed(j, k);
    }
  }

  /** The diagnosis is right for a beginning of a document when it finds just those cut off that end inside its value. */
  predicate IsRight(before: string, j: Json, after: string, k: nat)
    requires k <= |Document(before, j, after)|
  {
    IsTruncated(Document(before, j, after)[..k]) <==> |before| < k < |before + Write(j)|
  }

  /** It is right for all beginnings exactly when no cut goes unnoticed and the strings balance in the end. */
  lemma DiagnosisIsRight(before: string, j: Json, after: string)
    requires IsSpace(before) && IsSpace(after) && HasEnds(j)
    ensures (forall k: nat | k <= |Document(before, j, after)| :: IsRight(before, j, after, k)) <==>
            (forall k: nat | 1 <= k < |Write(j)| :: !Unnoticed(j, k))
            && StringsNet(j, '{', '}') == 0 && StringsNet(j, '[', ']') == 0
  {
    var n := |before + Write(j)|;
    forall k: nat | k <= |Document(before, j, after)|
      ensures IsRight(before, j, after, k) <==>
              if k <= |before| then true
              else if k < n then !Unnoticed(j, k - |before|)
              else StringsNet(j, '{', '}') == 0 && StringsNet(j, '[', ']') == 0
    {
      OneBeginning(before, j, after, k);
    }
    assert forall k: nat | 1 <= k < |Write(j)| :: IsRight(before, j, after, |before| + k) <==> !Unnoticed(j, k);
    assert IsRight(before, j, after, n) <==> StringsNet(j, '{', '}') == 0 && StringsNet(j, '[', ']') == 0 by {
      ContainerEnds(j);
    }
  }

  lemma BlankBeginning(before: string, j: Json, after: string, k: nat)
    requires IsSpace(before) && k <= |before|
    ensures IsRight(before, j, after, k)
  {
    Beginnings(before, Write(j), after, k);
    BlankIsNotTruncated(before[..k]);
  }

  lemma CutText(before: string, j: Json, after: string, k: nat)
    requires |before| < k < |before + Write(j)|
    ensures Document(before, j, after)[..k] == before + Write(j)[..k - |before|]
  {
    Beginnings(before, Write(j), after, k);
  }

  lemma CutBeginning(before: string, j: Json, after: string, k: nat)
    requires IsSpace(before) && HasEnds(j) && |before| < k < |before + Write(j)|
    ensures IsRight(before, j, after, k) <==> !Unnoticed(j, k - |before|)
  {
    CutText(before, j, after, k);
    CutIsTruncated(before, j, k - |before|);
  }

  lemma CompleteBeginning(before: string, j: Json, after: string, k: nat)
    requires IsSpace(before) && IsSpace(after) && HasEnds(j)
    requires |before + Write(j)| <= k <= |Document(before, j, after)|
    ensures IsRight(before, j, after, k) <==> StringsNet(j, '{', '}') == 0 && StringsNet(j, '[', ']') == 0
  {
    Beginnings(before, Write(j), after, k);
    CompleteIsNotTruncated(before, j, after[..k - |before + Write(j)|]);
  }

  lemma OneBeginning(before: string, j: Json, after: string, k: nat)
    requires IsSpace(before) && IsSpace(after) && HasEnds(j) && k <= |Document(before, j, after)|
    ensures IsRight(before, j, after, k) <==>
            if k <= |before| then true
            else if k < |before + Write(j)| then !Unnoticed(j, k - |before|)
            else StringsNet(j, '{', '}') == 0 && StringsNet(j, '[', ']') == 0
  {
    if k <= |before| {
      BlankBeginning(before, j, after, k);
    } else if k < |before + Write(j)| {
      CutBeginning(before, j, after, k);
    } else {
      CompleteBeginning(before, j, after, k);
    }
  }

  /** With harmless strings the diagnosis is exact. */
  lemma DiagnosisIsExact(before: string, j: Json, after: string, k: nat)
    requires IsSpace(before) && IsSpace(after) && HasEnds(j) && k <= |Document(before, j, after)| && Harmless(j)
    ensures IsTruncated(Document(before, j, after)[..k]) <==> |before| < k < |before + Write(j)|
  {
    OneBeginning(before, j, after, k);
    if |before| < k < |before + Write(j)| {
      assert StaysOpen(j, k - |before|);
      OpenIsNoticed(j, k - |before|);
    }
  }

  /** No string of a value, no key either, contains one of two characters. */
  predicate StringsFree(j: Json, opening: char, closing: char) {
    forall t | t in Tokens(j) && t.Quoted? :: Free(WriteChars(t.chars), opening, closing)
  }

  lemma {:induction false} FreeStrings(ts: seq<Token>, k: int, opening: char, closing: char)
    requires forall t | t in ts && t.Quoted? :: Free(WriteChars(t.chars), opening, closing)
    requires IsNesting(opening, closing)
    ensures QuotedNet(ts, k, opening, closing) == 0
  {
    if ts == [] {
    } else {
      var init, last := ts[..|ts| - 1], ts[|ts| - 1];
      FreeStrings(init, k, opening, closing);
      if last.Quoted? {
        assert last in ts;
        var n := Clamped(k - |TextOf(init)|, |TokenText(last)|);
        assert Free(TokenText(last), opening, closing);
        FreeNet(TokenText(last)[..n], opening, closing);
      }
    }
  }

  /** Strings without braces and brackets are harmless. */
  lemma FreeIsHarmless(j: Json)
    requires HasEnds(j) && StringsFree(j, '{', '}') && StringsFree(j, '[', ']')
    ensures Harmless(j)
  {
    TokensNested(j, '{', '}');
    TokensNested(j, '[', ']');
    FreeStrings(Tokens(j), |Write(j)|, '{', '}');
    FreeStrings(Tokens(j), |Write(j)|, '[', ']');
    forall k: nat | 1 <= k < |Write(j)|
      ensures StaysOpen(j, k)
    {
      FreeStrings(Tokens(j), k, '{', '}');
      FreeStrings(Tokens(j), k, '[', ']');
    }
  }

  lemma Beginnings(a: string, b: string, c: string, k: nat)
    requires k <= |a + b + c|
    ensures k <= |a| ==> (a + b + c)[..k] == a[..k]
    ensures |a| <= k <= |a + b| ==> (a + b + c)[..k] == a + b[..k - |a|]
    ensures |a + b| <= k ==> (a + b + c)[..k] == a + b + c[..k - |a + b|]
  {
  }

  /** An object of two members: a brace in a string, and an empty object. */
  function BraceInString(key: seq<StringChar>): Json {
    Obj("", [Member("", key, "", Item("", Str([Plain('}')]), "")), Member("", key, "", Item("", Obj("", []), ""))])
  }

  function AfterKey(key: seq<StringChar>): string {
    WriteString(key) + ":"
  }

  lemma KeyCounts(key: seq<StringChar>, opening: char, closing: char)
    requires ValidString(key) && Free(WriteChars(key), opening, closing) && IsNesting(opening, closing)
    ensures Paired(AfterKey(key)) && Net(AfterKey(key), opening, closing) == 0
  {
    StringPaired(key);
    PlainPaired(":");
    PairedConcat(WriteString(key), ":");
    FreeNet(AfterKey(key), opening, closing);
  }

  lemma BraceText()
    ensures WriteString([Plain('}')]) == "\"}\"" && Write(Obj("", [])) == "{}"
  {
    assert [Plain('}')][..0] == [];
    assert WriteChars([Plain('}')]) == "" + "}" == "}";
  }

  lemma MemberText(key: seq<StringChar>, value: Json)
    ensures WriteMember(Member("", key, "", Item("", value, ""))) == AfterKey(key) + Write(value)
  {
    assert WriteItem(Item("", value, "")) == Write(value);
    assert "" + WriteString(key) + "" + ":" == AfterKey(key);
  }

  lemma TwoMembers(a: Member, b: Member)
    ensures Write(Obj("", [a, b])) == "{" + (WriteMember(a) + "," + WriteMember(b)) + "}"
  {
    var j := Obj("", [a, b]);
    assert WriteMembers(j, 1) == "" + "" + WriteMember(a) == WriteMember(a);
    assert WriteMembers(j, 2) == WriteMembers(j, 1) + "," + WriteMember(b);
  }

  lemma BraceInStringText(key: seq<StringChar>)
    ensures Write(BraceInString(key)) == "{" + AfterKey(key) + "\"}\"," + AfterKey(key) + "{}" + "}"
  {
    var j, k := BraceInString(key), AfterKey(key);
    BraceText();
    MemberText(key, Str([Plain('}')]));
    MemberText(key, Obj("", []));
    TwoMembers(j.members[0], j.members[1]);
    Regrouped("{", k, "\"}\"", ",", "{}", "}");
    assert "\"}\"" + "," == "\"}\",";
  }

  lemma Regrouped(a: string, k: string, s: string, b: string, t: string, c: string)
    ensures a + ((k + s) + b + (k + t)) + c == a + k + (s + b) + k + t + c
  {
  }

  lemma BraceInStringIsValid(key: seq<StringChar>)
    requires ValidString(key)
    ensures IsContainer(BraceInString(key))
  {
    var members := BraceInString(key).members;
    assert ValidChar(Plain('}')) && IsSpace("");
    assert Valid(Str([Plain('}')])) && Valid(Obj("", []));
    assert ValidItem(members[0].item) && ValidItem(members[1].item);
    assert ValidMember(members[0]) && ValidMember(members[1]);
  }

  /** With a brace in a string the diagnosis is not exact: without its last character this object passes as complete. */
  lemma BracesInStringsHideACut(key: seq<StringChar>)
    requires ValidString(key) && Free(WriteChars(key), '{', '}') && Free(WriteChars(key), '[', ']')
    ensures IsContainer(BraceInString(key))
    ensures var text := Write(BraceInString(key)); |text| > 0 && !IsTruncated(text[..|text| - 1])
  {
    var k := AfterKey(key);
    var cut := "{" + k + "\"}\"," + k + "{}";
    BraceInStringIsValid(key);
    BraceInStringText(key);
    assert Write(BraceInString(key)) == cut + "}";
    KeyCounts(key, '{', '}');
    KeyCounts(key, '[', ']');
    BraceCounts(k);
    BraceTrims(cut);
  }

  lemma BraceTrims(s: string)
    requires |s| >= 2 && s[0] == '{' && s[|s| - 1] == '}'
    ensures Trim(s) == s
  {
  }

  lemma BraceCounts(k: string)
    requires Paired(k) && Net(k, '{', '}') == 0 && Net(k, '[', ']') == 0
    ensures var cut := "{" + k + "\"}\"," + k + "{}"; Net(cut, '{', '}') == 0 && Net(cut, '[', ']') == 0 && Paired(cut)
  {
    var quoted := "\"}\",";
    forall opening, closing | IsNesting(opening, closing)
      ensures Net("{" + k + quoted + k + "{}", opening, closing) == 0
    {
      NetConcat("{" + k + quoted + k, "{}", opening, closing);
      NetConcat("{" + k + quoted, k, opening, closing);
      NetConcat("{" + k, quoted, opening, closing);
      NetConcat("{", k, opening, closing);
      ShortNets(opening, closing);
    }
    PlainPaired("{");
    PlainPaired("{}");
    QuotedPaired();
    PairedConcat("{", k);
    PairedConcat("{" + k, quoted);
    PairedConcat("{" + k + quoted, k);
    PairedConcat("{" + k + quoted + k, "{}");
  }

  lemma QuotedPaired()
    ensures Paired("\"}\",")
  {
    var s := "\"}\",";
    assert s[1..] == "}\"," && s[1..][1..] == "\"," && s[1..][1..][1..] == "," && s[1..][1..][1..][1..] == "";
  }

  lemma ShortNets(opening: char, closing: char)
    requires IsNesting(opening, closing)
    ensures Net("{", opening, closing) + Net("\"}\",", opening, closing) + Net("{}", opening, closing) == 0
  {
    NetOne('{', opening, closing);
    NetOne('}', opening, closing);
    NetConcat("{", "}", opening, closing);
    assert "{" + "}" == "{}" && "\"" + "}" + "\"," == "\"}\",";
    NetConcat("\"" + "}", "\",", opening, closing);
    NetConcat("\"", "}", opening, closing);
    FreeNet("\"", opening, closing);
    FreeNet("\",", opening, closing);
  }
}
