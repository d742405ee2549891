/** Quotation marks in JSON texts: they come in pairs, and an odd number tells of a string that is cut off. */
module JsonQuotes {
  import opened JsonText
  import opened JsonTokens
  import opened Truncation

  /** The text does not end in the middle of an escape. */
  predicate Closed(s: string) {
    s == "" || if s[0] == '\\' then |s| > 1 && Closed(s[2..]) else Closed(s[1..])
  }

  /** The text does not end in an escape, and its quotation marks come in pairs. */
  predicate Paired(s: string) {
    Closed(s) && Quotes(s) % 2 == 0
  }

  lemma {:induction false} QuotesConcat(a: string, b: string)
    requires Closed(a)
    ensures Quotes(a + b) == Quotes(a) + Quotes(b) && (Closed(b) ==> Closed(a + b))
  {
    if a == "" {
      assert a + b == b;
    } else if a[0] == '\\' {
      assert (a + b)[2..] == a[2..] + b;
      QuotesConcat(a[2..], b);
    } else {
      assert (a + b)[1..] == a[1..] + b;
      QuotesConcat(a[1..], b);
    }
  }

  lemma PairedConcat(a: string, b: string)
    requires Paired(a) && Paired(b)
    ensures Paired(a + b)
  {
    QuotesConcat(a, b);
  }

  /** A text without quotation marks and backslashes. */
  lemma {:induction false} PlainPaired(s: string)
    requires forall i | 0 <= i < |s| :: s[i] != '"' && s[i] != '\\'
    ensures Closed(s) && Quotes(s) == 0
  {
    if s == "" {
    } else {
      PlainPaired(s[1..]);
    }
  }

  lemma CharQuotes(c: StringChar)
    requires ValidChar(c)
    ensures Closed(WriteChar(c)) && Quotes(WriteChar(c)) == 0
  {
    match c
    case Plain(_) => PlainPaired(WriteChar(c));
    case Escaped(e) => assert WriteChar(c)[2..] == "";
    case Unicode(digits) =>
      assert WriteChar(c)[2..] == digits;
      PlainPaired(digits);
  }

  lemma {:induction false} CharsQuotes(chars: seq<StringChar>)
    requires ValidString(chars)
    ensures Closed(WriteChars(chars)) && Quotes(WriteChars(chars)) == 0
  {
    if chars == [] {
    } else {
      var init := chars[..|chars| - 1];
      CharsQuotes(init);
      CharQuotes(chars[|chars| - 1]);
      QuotesConcat(WriteChars(init), WriteChar(chars[|chars| - 1]));
    }
  }

  lemma StringPaired(chars: seq<StringChar>)
    requires ValidString(chars)
    ensures Paired(WriteString(chars))
  {
    CharsQuotes(chars);
    var quote := "\"";
    assert quote[1..] == "" && Closed(quote) && Quotes(quote) == 1;
    QuotesConcat(quote, WriteChars(chars));
    QuotesConcat(quote + WriteChars(chars), quote);
  }

  // ----- Strings that are cut off -----

  lemma PartOfChar(c: StringChar, n: nat)
    requires ValidChar(c) && n <= |WriteChar(c)|
    ensures Quotes(WriteChar(c)[..n]) == 0
  {
    var part := WriteChar(c)[..n];
    match c
    case Plain(_) => PlainPaired(part);
    case Escaped(_) =>
      if n == 2 {
        assert part[2..] == "";
      }
    case Unicode(digits) =>
      if n >= 2 {
        assert part[2..] == digits[..n - 2];
        PlainPaired(digits[..n - 2]);
      }
  }

  /** However the characters of a string are cut off, escapes included, no quotation mark is seen. */
  lemma {:induction false} PartOfChars(chars: seq<StringChar>, n: nat)
    requires ValidString(chars) && n <= |WriteChars(chars)|
    ensures Quotes(WriteChars(chars)[..n]) == 0
  {
    if chars == [] {
    } else {
      var init, last := chars[..|chars| - 1], chars[|chars| - 1];
      var before := WriteChars(init);
      if n <= |before| {
        PartOfChars(init, n);
        assert WriteChars(chars)[..n] == before[..n];
      } else {
        CharsQuotes(init);
        PartOfChar(last, n - |before|);
        QuotesConcat(before, WriteChar(last)[..n - |before|]);
        assert WriteChars(chars)[..n] == before + WriteChar(last)[..n - |before|];
      }
    }
  }

  lemma PartOfString(chars: seq<StringChar>, k: nat)
    requires ValidString(chars) && 1 <= k < |WriteString(chars)|
    ensures Quotes(WriteString(chars)[..k]) == 1
  {
    PartOfChars(chars, k - 1);
    var quote := "\"";
    assert quote[1..] == "" && Closed(quote) && Quotes(quote) == 1;
    QuotesConcat(quote, WriteChars(chars)[..k - 1]);
    assert WriteString(chars)[..k] == quote + WriteChars(chars)[..k - 1];
  }

  // ----- Texts that are cut off -----

  lemma TokenPaired(t: Token)
    requires Fine(t)
    ensures Paired(TokenText(t))
  {
    match t
    case Opens(c) => PlainPaired([c]);
    case Closes(c) => PlainPaired([c]);
    case Quoted(chars) => StringPaired(chars);
    case Filler(text) => PlainPaired(text);
  }

  lemma {:induction false} TextPaired(ts: seq<Token>)
    requires AllFine(ts)
    ensures Paired(TextOf(ts))
  {
    if ts == [] {
    } else {
      TextPaired(ts[..|ts| - 1]);
      TokenPaired(ts[|ts| - 1]);
      PairedConcat(TextOf(ts[..|ts| - 1]), TokenText(ts[|ts| - 1]));
    }
  }

  /** Of a token that is cut off, only a string shows an odd number of quotation marks. */
  lemma TokenQuotes(t: Token, n: nat)
    requires Fine(t) && n <= |TokenText(t)|
    ensures Quotes(TokenText(t)[..n]) % 2 == 1 <==> t.Quoted? && 0 < n < |TokenText(t)|
  {
    var part := TokenText(t)[..n];
    if n == 0 {
      assert part == "";
    } else if n == |TokenText(t)| {
      assert part == TokenText(t);
      TokenPaired(t);
    } else if t.Quoted? {
      PartOfString(t.chars, n);
    } else {
      PlainPaired(part);
    }
  }

  lemma QuotesBeginning(a: string, b: string, k: nat)
    requires Closed(a) && |a| < k <= |a + b|
    ensures Quotes((a + b)[..k]) == Quotes(a) + Quotes(b[..k - |a|])
  {
    Beginning(a, b, k);
    QuotesConcat(a, b[..k - |a|]);
  }

  /** Before a position there is an odd number of quotation marks. */
  predicate OddAt(ts: seq<Token>, k: nat)
    requires k <= |TextOf(ts)|
  {
    Quotes(TextOf(ts)[..k]) % 2 == 1
  }

  /** That is so exactly when the position is in the middle of a string. */
  lemma {:induction false} QuotesAt(ts: seq<Token>, k: nat)
    requires AllFine(ts) && k <= |TextOf(ts)|
    ensures OddAt(ts, k) <==> InString(ts, k)
  {
    if ts == [] {
    } else {
      var init, last := ts[..|ts| - 1], ts[|ts| - 1];
      assert ts == init + [last];
      if k <= |TextOf(init)| {
        QuotesAt(init, k);
        QuotesBefore(init, last, ts, k);
      } else {
        QuotesBehind(init, last, ts, k);
      }
    }
  }

  lemma InStringSnoc(init: seq<Token>, last: Token, k: nat)
    ensures InString(init + [last], k) <==>
            InString(init, k) || (last.Quoted? && 0 < k - |TextOf(init)| < |TokenText(last)|)
  {
    assert (init + [last])[..|init|] == init;
  }

  lemma QuotesBefore(init: seq<Token>, last: Token, ts: seq<Token>, k: nat)
    requires k <= |TextOf(init)| && ts == init + [last]
    ensures k <= |TextOf(ts)| && OddAt(ts, k) == OddAt(init, k) && InString(ts, k) == InString(init, k)
  {
    TextSnoc(init, last);
    InStringSnoc(init, last, k);
    assert TextOf(ts)[..k] == TextOf(init)[..k];
  }

  /** Behind a text with all its strings closed only what follows counts. */
  lemma OddBehind(a: string, b: string, k: nat)
    requires Paired(a) && |a| < k <= |a + b|
    ensures Quotes((a + b)[..k]) % 2 == Quotes(b[..k - |a|]) % 2
  {
    QuotesBeginning(a, b, k);
  }

  lemma QuotesBehind(init: seq<Token>, last: Token, ts: seq<Token>, k: nat)
    requires AllFine(init) && Fine(last) && ts == init + [last] && |TextOf(init)| < k <= |TextOf(ts)|
    ensures OddAt(ts, k) <==> InString(ts, k)
  {
    TextSnoc(init, last);
    TextPaired(init);
    OddBehind(TextOf(init), TokenText(last), k);
    TokenQuotes(last, k - |TextOf(init)|);
    InStringSnoc(init, last, k);
    Beyond(init, k, '{', '}');
  }
}
