/** JSON texts as tokens: what stands at a position of a text, and how braces, brackets and quotation marks balance. */
module JsonTokens {
  import opened JsonText
  import opened Truncation

  /** Containers open and close; strings are quoted; all else is spaces, atoms, commas and colons. */
  datatype Token = Opens(c: char) | Closes(c: char) | Quoted(chars: seq<StringChar>) | Filler(text: string)

  function TokenText(t: Token): string {
    match t
    case Opens(c) => [c]
    case Closes(c) => [c]
    case Quoted(chars) => WriteString(chars)
    case Filler(text) => text
  }

  function TextOf(ts: seq<Token>): string {
    if ts == [] then "" else TextOf(ts[..|ts| - 1]) + TokenText(ts[|ts| - 1])
  }

  function Tokens(j: Json): seq<Token>
    decreases j, 1
  {
    match j
    case Str(chars) => [Quoted(chars)]
    case Atom(text) => [Filler(text)]
    case Arr(_, items) => [Opens('[')] + ItemsTokens(j, |items|) + [Closes(']')]
    case Obj(_, members) => [Opens('{')] + MembersTokens(j, |members|) + [Closes('}')]
  }

  function Pushed(ts: seq<Token>, n: nat, more: seq<Token>): seq<Token> {
    ts + [Filler(Separator(n))] + more
  }

  function ItemsTokens(j: Json, n: nat): seq<Token>
    requires j.Arr? && n <= |j.items|
    decreases j, 0, n
  {
    if j.items == [] then [Filler(j.blank)]
    else if n == 0 then []
    else Pushed(ItemsTokens(j, n - 1), n - 1, ItemTokens(j.items[n - 1]))
  }

  function ItemTokens(i: Item): seq<Token>
    decreases i
  {
    [Filler(i.before)] + Tokens(i.value) + [Filler(i.after)]
  }

  function MembersTokens(j: Json, n: nat): seq<Token>
    requires j.Obj? && n <= |j.members|
    decreases j, 0, n
  {
    if j.members == [] then [Filler(j.blank)]
    else if n == 0 then []
    else Pushed(MembersTokens(j, n - 1), n - 1, MemberTokens(j.members[n - 1]))
  }

  function MemberTokens(m: Member): seq<Token>
    decreases m
  {
    [Filler(m.before), Quoted(m.key), Filler(m.between), Filler(":")] + ItemTokens(m.item)
  }

  // ----- The tokens make up the text -----

  lemma TextSnoc(ts: seq<Token>, t: Token)
    ensures TextOf(ts + [t]) == TextOf(ts) + TokenText(t)
  {
    assert (ts + [t])[..|ts|] == ts;
  }

  lemma Associates(a: string, b: string, c: string)
    ensures a + (b + c) == a + b + c
  {
  }

  lemma TextOneMore(a: seq<Token>, b: seq<Token>, t: Token, more: seq<Token>)
    requires TextOf(a + b) == TextOf(a) + TextOf(b) && more == b + [t]
    ensures TextOf(a + more) == TextOf(a) + TextOf(more)
  {
    assert a + more == a + b + [t];
    LastText(a + b, t, a + more);
    LastText(b, t, more);
    Associates(TextOf(a), TextOf(b), TokenText(t));
  }

  lemma LastText(ts: seq<Token>, t: Token, more: seq<Token>)
    requires more == ts + [t]
    ensures TextOf(more) == TextOf(ts) + TokenText(t)
  {
    TextSnoc(ts, t);
  }

  lemma {:induction false} TextAppend(a: seq<Token>, b: seq<Token>)
    ensures TextOf(a + b) == TextOf(a) + TextOf(b)
  {
    if b == [] {
      assert a + b == a;
    } else {
      TextAppend(a, b[..|b| - 1]);
      TextOneMore(a, b[..|b| - 1], b[|b| - 1], b);
    }
  }

  lemma TextOne(t: Token)
    ensures TextOf([t]) == TokenText(t)
  {
    assert [t][..0] == [];
  }

  lemma TextWrapped(a: Token, ts: seq<Token>, b: Token)
    ensures TextOf([a] + ts + [b]) == TokenText(a) + TextOf(ts) + TokenText(b)
  {
    TextAppend([a] + ts, [b]);
    TextAppend([a], ts);
    TextOne(a);
    TextOne(b);
  }

  lemma TextPushed(ts: seq<Token>, n: nat, more: seq<Token>)
    ensures TextOf(Pushed(ts, n, more)) == TextOf(ts) + Separator(n) + TextOf(more)
  {
    var comma := Filler(Separator(n));
    TextAppend(ts + [comma], more);
    TextAppend(ts, [comma]);
    TextOne(comma);
  }

  lemma {:induction false} TokensWrite(j: Json)
    ensures TextOf(Tokens(j)) == Write(j)
    decreases j, 1
  {
    match j
    case Str(chars) => TextOne(Quoted(chars));
    case Atom(text) => TextOne(Filler(text));
    case Arr(_, items) =>
      ItemsWrite(j, |items|);
      TextWrapped(Opens('['), ItemsTokens(j, |items|), Closes(']'));
    case Obj(_, members) =>
      MembersWrite(j, |members|);
      TextWrapped(Opens('{'), MembersTokens(j, |members|), Closes('}'));
  }

  predicate ItemText(i: Item) {
    TextOf(ItemTokens(i)) == WriteItem(i)
  }

  predicate ItemsText(j: Json, n: nat)
    requires j.Arr? && n <= |j.items|
  {
    TextOf(ItemsTokens(j, n)) == WriteItems(j, n)
  }

  lemma {:induction false} ItemsWrite(j: Json, n: nat)
    requires j.Arr? && n <= |j.items|
    ensures ItemsText(j, n)
    decreases j, 0, n
  {
    if j.items == [] || n == 0 {
      NoItems(j, n);
    } else {
      ItemsWrite(j, n - 1);
      ItemWrites(j.items[n - 1]);
      ItemPushed(j, n);
    }
  }

  lemma {:induction false} NoItems(j: Json, n: nat)
    requires j.Arr? && n <= |j.items| && (j.items == [] || n == 0)
    ensures ItemsText(j, n)
  {
    TextOne(Filler(j.blank));
  }

  lemma {:induction false} ItemPushed(j: Json, n: nat)
    requires j.Arr? && 0 < n <= |j.items| && ItemsText(j, n - 1)
    requires ItemText(j.items[n - 1])
    ensures ItemsText(j, n)
  {
    TextPushed(ItemsTokens(j, n - 1), n - 1, ItemTokens(j.items[n - 1]));
  }

  lemma {:induction false} ItemWrites(i: Item)
    ensures ItemText(i)
    decreases i
  {
    TokensWrite(i.value);
    TextWrapped(Filler(i.before), Tokens(i.value), Filler(i.after));
  }

  predicate MemberText(m: Member) {
    TextOf(MemberTokens(m)) == WriteMember(m)
  }

  predicate MembersText(j: Json, n: nat)
    requires j.Obj? && n <= |j.members|
  {
    TextOf(MembersTokens(j, n)) == WriteMembers(j, n)
  }

  lemma {:induction false} MembersWrite(j: Json, n: nat)
    requires j.Obj? && n <= |j.members|
    ensures MembersText(j, n)
    decreases j, 0, n
  {
    if j.members == [] || n == 0 {
      NoMembers(j, n);
    } else {
      MembersWrite(j, n - 1);
      MemberWrites(j.members[n - 1]);
      MemberPushed(j, n);
    }
  }

  lemma {:induction false} NoMembers(j: Json, n: nat)
    requires j.Obj? && n <= |j.members| && (j.members == [] || n == 0)
    ensures MembersText(j, n)
  {
    TextOne(Filler(j.blank));
  }

  lemma {:induction false} MemberPushed(j: Json, n: nat)
    requires j.Obj? && 0 < n <= |j.members| && MembersText(j, n - 1)
    requires MemberText(j.members[n - 1])
    ensures MembersText(j, n)
  {
    TextPushed(MembersTokens(j, n - 1), n - 1, MemberTokens(j.members[n - 1]));
  }

  lemma {:induction false} MemberWrites(m: Member)
    ensures MemberText(m)
    decreases m
  {
    var before, key, between, colon := Filler(m.before), Quoted(m.key), Filler(m.between), Filler(":");
    ItemWrites(m.item);
    TextOne(before);
    assert [before, key, between, colon] == [before] + [key] + [between] + [colon];
    TextAppend([before], [key]);
    TextOne(key);
    TextAppend([before] + [key], [between]);
    TextOne(between);
    TextAppend([before] + [key] + [between], [colon]);
    TextOne(colon);
    TextAppend([before, key, between, colon], ItemTokens(m.item));
    assert m.before + WriteString(m.key) + m.between + ":" + WriteItem(m.item) == WriteMember(m);
  }

  // ----- What the tokens of a valid value are like -----

  /** Spaces, atoms, commas and colons. */
  predicate IsPlain(s: string) {
    forall i | 0 <= i < |s| :: s[i] !in {'{', '}', '[', ']', '"', '\\'}
  }

  predicate Fine(t: Token) {
    match t
    case Opens(c) => c in {'{', '['}
    case Closes(c) => c in {'}', ']'}
    case Quoted(chars) => ValidString(chars)
    case Filler(text) => IsPlain(text)
  }

  predicate AllFine(ts: seq<Token>) {
    forall k | 0 <= k < |ts| :: Fine(ts[k])
  }

  lemma {:induction false} TokensFine(j: Json)
    requires Valid(j)
    ensures AllFine(Tokens(j))
    decreases j, 1
  {
    match j
    case Str(_) =>
    case Atom(_) =>
    case Arr(_, items) => ItemsFine(j, |items|);
    case Obj(_, members) => MembersFine(j, |members|);
  }

  lemma {:induction false} ItemsFine(j: Json, n: nat)
    requires Valid(j) && j.Arr? && n <= |j.items|
    ensures AllFine(ItemsTokens(j, n))
    decreases j, 0, n
  {
    if j.items == [] || n == 0 {
    } else {
      ItemsFine(j, n - 1);
      assert ValidItem(j.items[n - 1]);
      ItemFine(j.items[n - 1]);
    }
  }

  lemma {:induction false} ItemFine(i: Item)
    requires ValidItem(i)
    ensures AllFine(ItemTokens(i))
    decreases i
  {
    TokensFine(i.value);
  }

  lemma {:induction false} MembersFine(j: Json, n: nat)
    requires Valid(j) && j.Obj? && n <= |j.members|
    ensures AllFine(MembersTokens(j, n))
    decreases j, 0, n
  {
    if j.members == [] || n == 0 {
    } else {
      MembersFine(j, n - 1);
      assert ValidMember(j.members[n - 1]);
      MemberFine(j.members[n - 1]);
    }
  }

  lemma {:induction false} MemberFine(m: Member)
    requires ValidMember(m)
    ensures AllFine(MemberTokens(m))
    decreases m
  {
    ItemFine(m.item);
  }

  // ----- What stands before a position -----

  /** Braces or brackets. */
  predicate IsNesting(opening: char, closing: char) {
    (opening == '{' && closing == '}') || (opening == '[' && closing == ']')
  }

  function Clamped(k: int, n: nat): nat {
    if k < 0 then 0 else if k > n then n else k
  }

  /** The containers of one kind that are open at a position: opened before it, and not yet closed. */
  function OpenAt(ts: seq<Token>, k: int, opening: char, closing: char): int {
    if ts == [] then 0
    else
      var init, last := ts[..|ts| - 1], ts[|ts| - 1];
      OpenAt(init, k, opening, closing)
      + if k <= |TextOf(init)| then 0
        else if last == Opens(opening) then 1
        else if last == Closes(closing) then -1
        else 0
  }

  /** How many more characters open than close in the strings, as far as they stand before a position. */
  function QuotedNet(ts: seq<Token>, k: int, opening: char, closing: char): int {
    if ts == [] then 0
    else
      var init, last := ts[..|ts| - 1], ts[|ts| - 1];
      QuotedNet(init, k, opening, closing)
      + if !last.Quoted? then 0
        else Net(TokenText(last)[..Clamped(k - |TextOf(init)|, |TokenText(last)|)], opening, closing)
  }

  /** A position in the middle of a string: behind its first quotation mark, not behind its last. */
  predicate InString(ts: seq<Token>, k: int) {
    ts != [] &&
    var init, last := ts[..|ts| - 1], ts[|ts| - 1];
    InString(init, k) || (last.Quoted? && 0 < k - |TextOf(init)| < |TokenText(last)|)
  }

  // ----- Counting -----

  lemma {:induction false} NetConcat(a: string, b: string, opening: char, closing: char)
    ensures Net(a + b, opening, closing) == Net(a, opening, closing) + Net(b, opening, closing)
    decreases |b|
  {
    if b == "" {
      assert a + b == a;
    } else {
      assert (a + b)[..|a + b| - 1] == a + b[..|b| - 1];
      NetConcat(a, b[..|b| - 1], opening, closing);
    }
  }

  /** Neither of two characters occurs. */
  predicate Free(s: string, opening: char, closing: char) {
    forall i | 0 <= i < |s| :: s[i] != opening && s[i] != closing
  }

  lemma {:induction false} FreeNet(s: string, opening: char, closing: char)
    requires Free(s, opening, closing)
    ensures Net(s, opening, closing) == 0
  {
    if s == "" {
    } else {
      FreeNet(s[..|s| - 1], opening, closing);
    }
  }

  lemma NetOne(c: char, opening: char, closing: char)
    ensures Net([c], opening, closing) == if c == opening then 1 else if c == closing then -1 else 0
  {
    assert [c][..0] == "";
  }

  /** The beginning of two texts, one after the other. */
  lemma Beginning(a: string, b: string, k: nat)
    requires k <= |a + b|
    ensures (a + b)[..k] == if k <= |a| then a[..k] else a + b[..k - |a|]
  {
  }

  lemma NetBeginning(a: string, b: string, k: nat, opening: char, closing: char)
    requires k <= |a + b|
    ensures Net((a + b)[..k], opening, closing) ==
            Net(a[..Clamped(k, |a|)], opening, closing) + Net(b[..Clamped(k - |a|, |b|)], opening, closing)
  {
    Beginning(a, b, k);
    assert a[..|a|] == a;
    if k > |a| {
      NetConcat(a, b[..k - |a|], opening, closing);
    }
  }

  lemma TokenNet(t: Token, n: nat, opening: char, closing: char)
    requires Fine(t) && n <= |TokenText(t)| && IsNesting(opening, closing)
    ensures Net(TokenText(t)[..n], opening, closing) ==
            if n == 0 then 0
            else if t == Opens(opening) then 1
            else if t == Closes(closing) then -1
            else if t.Quoted? then Net(TokenText(t)[..n], opening, closing)
            else 0
  {
    match t
    case Opens(c) => NetOne(c, opening, closing); assert n == 1 ==> [c][..1] == [c];
    case Closes(c) => NetOne(c, opening, closing); assert n == 1 ==> [c][..1] == [c];
    case Quoted(_) =>
    case Filler(text) => FreeNet(text[..n], opening, closing);
  }

  /** Beyond the text nothing changes. */
  lemma {:induction false} Beyond(ts: seq<Token>, k: int, opening: char, closing: char)
    requires k >= |TextOf(ts)|
    ensures QuotedNet(ts, k, opening, closing) == QuotedNet(ts, |TextOf(ts)|, opening, closing)
    ensures !InString(ts, k)
  {
    if ts == [] {
    } else {
      var init := ts[..|ts| - 1];
      Beyond(init, k, opening, closing);
      Beyond(init, |TextOf(ts)|, opening, closing);
    }
  }

  /** The count of one kind before a position is that of open containers and that of the strings. */
  lemma {:induction false} NetAt(ts: seq<Token>, k: nat, opening: char, closing: char)
    requires AllFine(ts) && k <= |TextOf(ts)| && IsNesting(opening, closing)
    ensures Net(TextOf(ts)[..k], opening, closing) == OpenAt(ts, k, opening, closing) + QuotedNet(ts, k, opening, closing)
  {
    if ts == [] {
    } else {
      var init, last := ts[..|ts| - 1], ts[|ts| - 1];
      NetAt(init, Clamped(k, |TextOf(init)|), opening, closing);
      NetStep(init, last, k, opening, closing);
      assert ts == init + [last];
    }
  }

  lemma {:induction false} NetStep(init: seq<Token>, last: Token, k: nat, opening: char, closing: char)
    requires Fine(last) && k <= |TextOf(init + [last])| && IsNesting(opening, closing)
    requires var at := Clamped(k, |TextOf(init)|);
             Net(TextOf(init)[..at], opening, closing) ==
             OpenAt(init, at, opening, closing) + QuotedNet(init, at, opening, closing)
    ensures Net(TextOf(init + [last])[..k], opening, closing) ==
            OpenAt(init + [last], k, opening, closing) + QuotedNet(init + [last], k, opening, closing)
  {
    var n := |TextOf(init)|;
    assert (init + [last])[..|init|] == init;
    NetBeginning(TextOf(init), TokenText(last), k, opening, closing);
    TokenNet(last, Clamped(k - n, |TokenText(last)|), opening, closing);
    if k > n {
      OpenBeyond(init, k, opening, closing);
      Beyond(init, k, opening, closing);
    }
  }

  /** Beyond the end the containers of a text that does not end in an empty token are those open at the end. */
  lemma {:induction false} OpenBeyond(ts: seq<Token>, k: int, opening: char, closing: char)
    requires k > |TextOf(ts)|
    ensures OpenAt(ts, k, opening, closing) == OpenAt(ts, |TextOf(ts)|, opening, closing)
  {
    if ts == [] {
    } else {
      var init, last := ts[..|ts| - 1], ts[|ts| - 1];
      OpenBeyond(init, k, opening, closing);
      if |TextOf(ts)| > |TextOf(init)| {
        OpenBeyond(init, |TextOf(ts)|, opening, closing);
      }
    }
  }

  // ----- Nesting -----

  function Weight(t: Token, opening: char, closing: char): int {
    if t == Opens(opening) then 1 else if t == Closes(closing) then -1 else 0
  }

  lemma OpenSnoc(ts: seq<Token>, t: Token, k: int, opening: char, closing: char)
    ensures OpenAt(ts + [t], k, opening, closing) ==
            OpenAt(ts, k, opening, closing) + if k <= |TextOf(ts)| then 0 else Weight(t, opening, closing)
  {
    assert (ts + [t])[..|ts|] == ts;
  }

  /** What is open at a position of two texts is open in either. */
  predicate OpensTogether(a: seq<Token>, b: seq<Token>, k: int, opening: char, closing: char) {
    OpenAt(a + b, k, opening, closing) == OpenAt(a, k, opening, closing) + OpenAt(b, k - |TextOf(a)|, opening, closing)
  }

  lemma LengthAppend(a: seq<Token>, b: seq<Token>)
    ensures |TextOf(a + b)| == |TextOf(a)| + |TextOf(b)|
  {
    TextAppend(a, b);
  }

  lemma {:induction false} OpenOneMore(a: seq<Token>, b: seq<Token>, t: Token, k: int, opening: char, closing: char)
    requires OpensTogether(a, b, k, opening, closing)
    ensures OpensTogether(a, b + [t], k, opening, closing)
  {
    LengthAppend(a, b);
    OpenSnoc(a + b, t, k, opening, closing);
    OpenSnoc(b, t, k - |TextOf(a)|, opening, closing);
    assert a + (b + [t]) == a + b + [t];
  }

  lemma {:induction false} OpenAppend(a: seq<Token>, b: seq<Token>, k: int, opening: char, closing: char)
    ensures OpensTogether(a, b, k, opening, closing)
  {
    if b == [] {
      assert a + b == a;
    } else {
      OpenAppend(a, b[..|b| - 1], k, opening, closing);
      OpenOneMore(a, b[..|b| - 1], b[|b| - 1], k, opening, closing);
      assert b == b[..|b| - 1] + [b[|b| - 1]];
    }
  }

  /** Nothing is closed that has not been opened, and in the end all is closed. */
  ghost predicate Nested(ts: seq<Token>, opening: char, closing: char) {
    forall k: int {:trigger OpenAt(ts, k, opening, closing)} ::
      OpenAt(ts, k, opening, closing) >= 0 && (k >= |TextOf(ts)| ==> OpenAt(ts, k, opening, closing) == 0)
  }

  lemma NestedConcat(a: seq<Token>, b: seq<Token>, opening: char, closing: char)
    requires Nested(a, opening, closing) && Nested(b, opening, closing)
    ensures Nested(a + b, opening, closing)
  {
    TextAppend(a, b);
    forall k: int
      ensures OpenAt(a + b, k, opening, closing) >= 0
      ensures k >= |TextOf(a + b)| ==> OpenAt(a + b, k, opening, closing) == 0
    {
      OpenAppend(a, b, k, opening, closing);
    }
  }

  lemma NestedOne(t: Token, opening: char, closing: char)
    requires t.Quoted? || t.Filler?
    ensures Nested([t], opening, closing)
  {
    assert [t][..0] == [];
  }

  lemma NestedPushed(ts: seq<Token>, n: nat, more: seq<Token>, opening: char, closing: char)
    requires Nested(ts, opening, closing) && Nested(more, opening, closing)
    ensures Nested(Pushed(ts, n, more), opening, closing)
  {
    NestedOne(Filler(Separator(n)), opening, closing);
    NestedConcat(ts, [Filler(Separator(n))], opening, closing);
    NestedConcat(ts + [Filler(Separator(n))], more, opening, closing);
  }

  lemma {:induction false} NestedNone(opening: char, closing: char)
    ensures Nested([], opening, closing)
  {
  }

  lemma OpenOne(t: Token, k: int, opening: char, closing: char)
    ensures OpenAt([t], k, opening, closing) ==
            if k <= 0 then 0 else if t == Opens(opening) then 1 else if t == Closes(closing) then -1 else 0
  {
    assert [t][..0] == [];
  }

  lemma WrappedLength(a: char, ts: seq<Token>, b: char)
    ensures |TextOf([Opens(a)] + ts)| == |TextOf(ts)| + 1
    ensures |TextOf([Opens(a)] + ts + [Closes(b)])| == |TextOf(ts)| + 2 && |TextOf([Opens(a)])| == 1
  {
    TextOne(Opens(a));
    TextOne(Closes(b));
    TextAppend([Opens(a)], ts);
    TextAppend([Opens(a)] + ts, [Closes(b)]);
  }

  lemma {:induction false} OpenWrapped(a: char, ts: seq<Token>, b: char, k: int, opening: char, closing: char)
    requires IsNesting(a, b) && IsNesting(opening, closing)
    ensures var all, one := [Opens(a)] + ts + [Closes(b)], if a == opening then 1 else 0;
            && |TextOf(all)| == |TextOf(ts)| + 2
            && OpenAt(all, k, opening, closing) ==
               OpenAt(ts, k - 1, opening, closing) + (if k > 0 then one else 0) - (if k >= |TextOf(all)| then one else 0)
  {
    var before := [Opens(a)] + ts;
    WrappedLength(a, ts, b);
    OpenAppend(before, [Closes(b)], k, opening, closing);
    OpenAppend([Opens(a)], ts, k, opening, closing);
    OpenOne(Opens(a), k, opening, closing);
    OpenOne(Closes(b), k - |TextOf(before)|, opening, closing);
  }

  /** In brackets: inside those of its own kind there is always one open. */
  lemma {:induction false} NestedWrapped(a: char, ts: seq<Token>, b: char, opening: char, closing: char)
    requires Nested(ts, opening, closing) && IsNesting(a, b) && IsNesting(opening, closing)
    ensures Nested([Opens(a)] + ts + [Closes(b)], opening, closing)
    ensures a == opening ==>
              forall k: int | 1 <= k < |TextOf([Opens(a)] + ts + [Closes(b)])| ::
                OpenAt([Opens(a)] + ts + [Closes(b)], k, opening, closing) >= 1
  {
    var all := [Opens(a)] + ts + [Closes(b)];
    forall k: int
      ensures OpenAt(all, k, opening, closing) >= 0
      ensures k >= |TextOf(all)| ==> OpenAt(all, k, opening, closing) == 0
      ensures a == opening && 1 <= k < |TextOf(all)| ==> OpenAt(all, k, opening, closing) >= 1
    {
      OpenWrapped(a, ts, b, k, opening, closing);
    }
  }

  lemma {:induction false} TokensNested(j: Json, opening: char, closing: char)
    requires IsNesting(opening, closing)
    ensures Nested(Tokens(j), opening, closing)
    ensures (j.Obj? && opening == '{') || (j.Arr? && opening == '[') ==>
              forall k: int | 1 <= k < |Write(j)| :: OpenAt(Tokens(j), k, opening, closing) >= 1
    decreases j, 1
  {
    TokensWrite(j);
    match j
    case Str(chars) => NestedOne(Quoted(chars), opening, closing);
    case Atom(text) => NestedOne(Filler(text), opening, closing);
    case Arr(_, items) =>
      ItemsNested(j, |items|, opening, closing);
      NestedWrapped('[', ItemsTokens(j, |items|), ']', opening, closing);
    case Obj(_, members) =>
      MembersNested(j, |members|, opening, closing);
      NestedWrapped('{', MembersTokens(j, |members|), '}', opening, closing);
  }

  lemma {:induction false} ItemsNested(j: Json, n: nat, opening: char, closing: char)
    requires j.Arr? && n <= |j.items| && IsNesting(opening, closing)
    ensures Nested(ItemsTokens(j, n), opening, closing)
    decreases j, 0, n
  {
    if j.items == [] {
      NestedOne(Filler(j.blank), opening, closing);
    } else if n == 0 {
      NestedNone(opening, closing);
    } else {
      ItemsNested(j, n - 1, opening, closing);
      ItemNested(j.items[n - 1], opening, closing);
      NestedPushed(ItemsTokens(j, n - 1), n - 1, ItemTokens(j.items[n - 1]), opening, closing);
    }
  }

  lemma {:induction false} ItemNested(i: Item, opening: char, closing: char)
    requires IsNesting(opening, closing)
    ensures Nested(ItemTokens(i), opening, closing)
    decreases i
  {
    NestedOne(Filler(i.before), opening, closing);
    TokensNested(i.value, opening, closing);
    NestedOne(Filler(i.after), opening, closing);
    NestedConcat([Filler(i.before)], Tokens(i.value), opening, closing);
    NestedConcat([Filler(i.before)] + Tokens(i.value), [Filler(i.after)], opening, closing);
  }

  lemma {:induction false} MembersNested(j: Json, n: nat, opening: char, closing: char)
    requires j.Obj? && n <= |j.members| && IsNesting(opening, closing)
    ensures Nested(MembersTokens(j, n), opening, closing)
    decreases j, 0, n
  {
    if j.members == [] {
      NestedOne(Filler(j.blank), opening, closing);
    } else if n == 0 {
      NestedNone(opening, closing);
    } else {
      MembersNested(j, n - 1, opening, closing);
      MemberNested(j.members[n - 1], opening, closing);
      NestedPushed(MembersTokens(j, n - 1), n - 1, MemberTokens(j.members[n - 1]), opening, closing);
    }
  }

  lemma {:induction false} MemberNested(m: Member, opening: char, closing: char)
    requires IsNesting(opening, closing)
    ensures Nested(MemberTokens(m), opening, closing)
    decreases m
  {
    var before, key, between, colon := [Filler(m.before)], [Quoted(m.key)], [Filler(m.between)], [Filler(":")];
    NestedOne(Filler(m.before), opening, closing);
    NestedOne(Quoted(m.key), opening, closing);
    NestedOne(Filler(m.between), opening, closing);
    NestedOne(Filler(":"), opening, closing);
    ItemNested(m.item, opening, closing);
    NestedConcat(before, key, opening, closing);
    NestedConcat(before + key, between, opening, closing);
    NestedConcat(before + key + between, colon, opening, closing);
    assert before + key + between + colon == [Filler(m.before), Quoted(m.key), Filler(m.between), Filler(":")];
    NestedConcat(before + key + between + colon, ItemTokens(m.item), opening, closing);
  }
}
