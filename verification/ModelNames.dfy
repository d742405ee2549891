/** Normalising model names: the four patterns, read as lists of the segments between dashes. */
module ModelNames {
  /**
   * What Unicode says of characters: which are decimal digits, how a string is lower-cased, and which characters
   * lower-casing leaves as they are.
   */
  datatype Unicode = Unicode(digit: char -> bool, lower: string -> string, stable: char -> bool)

  predicate IsAsciiLower(c: char) {
    'a' <= c <= 'z'
  }

  predicate Stable(u: Unicode, s: string) {
    forall i | 0 <= i < |s| :: u.stable(s[i])
  }

  /** Digits have no case, lower-cased text stays as it is, and a stable text after a dash is not touched. */
  ghost predicate Lawful(u: Unicode) {
    && (forall c: char :: u.digit(c) ==> u.stable(c) && c != '-' && c != '.' && !IsAsciiLower(c))
    && (forall c: char :: IsAsciiLower(c) || c == '-' || c == '.' ==> u.stable(c))
    && (forall s: string :: Stable(u, u.lower(s)))
    && (forall s: string :: Stable(u, s) ==> u.lower(s) == s)
    && (forall s: string, t: string {:trigger u.lower(s + t)} ::
          t != "" && t[0] == '-' && Stable(u, t) ==> u.lower(s + t) == u.lower(s) + t)
    && (forall s: string :: u.lower(s) == "" <==> s == "")
  }

  // ----- Segments -----

  predicate DashFree(s: string) {
    forall i | 0 <= i < |s| :: s[i] != '-'
  }

  /** The parts of a text between dashes. */
  function Segments(s: string): (p: seq<string>)
    ensures p != []
  {
    if s == "" then [""]
    else
      var c, init := s[|s| - 1], Segments(s[..|s| - 1]);
      if c == '-' then init + [""] else init[|init| - 1 := init[|init| - 1] + [c]]
  }

  /** The parts with dashes between them. */
  function Dashed(p: seq<string>): string
    requires p != []
  {
    if |p| == 1 then p[0] else Dashed(p[..|p| - 1]) + "-" + p[|p| - 1]
  }

  predicate AllDashFree(p: seq<string>) {
    forall k | 0 <= k < |p| :: DashFree(p[k])
  }

  lemma {:induction false} SegmentsAreDashFree(s: string)
    ensures AllDashFree(Segments(s))
  {
    if s == "" {
    } else {
      SegmentsAreDashFree(s[..|s| - 1]);
    }
  }

  lemma {:induction false} SegmentsOfMore(s: string, t: string)
    requires DashFree(t)
    ensures var p := Segments(s); Segments(s + t) == p[|p| - 1 := p[|p| - 1] + t]
    decreases |t|
  {
    var p := Segments(s);
    if t == "" {
      assert s + t == s && p[|p| - 1] + t == p[|p| - 1];
    } else {
      var init := t[..|t| - 1];
      assert (s + t)[..|s + t| - 1] == s + init;
      SegmentsOfMore(s, init);
      assert p[|p| - 1] + init + [t[|t| - 1]] == p[|p| - 1] + t;
    }
  }

  /** A dash and a further part. */
  lemma SegmentsOfNext(s: string, t: string)
    requires DashFree(t)
    ensures Segments(s + "-" + t) == Segments(s) + [t]
  {
    assert (s + "-")[..|s|] == s;
    SegmentsOfMore(s + "-", t);
    assert "" + t == t;
  }

  lemma SegmentsOfOne(t: string)
    requires DashFree(t)
    ensures Segments(t) == [t]
  {
    SegmentsOfMore("", t);
    assert "" + t == t;
  }

  lemma {:induction false} SegmentsOfDashed(p: seq<string>)
    requires p != [] && AllDashFree(p)
    ensures Segments(Dashed(p)) == p
  {
    if |p| == 1 {
      SegmentsOfOne(p[0]);
    } else {
      SegmentsOfDashed(p[..|p| - 1]);
      SegmentsOfNext(Dashed(p[..|p| - 1]), p[|p| - 1]);
    }
  }

  lemma {:induction false} DashedSegments(s: string)
    ensures Dashed(Segments(s)) == s
  {
    if s == "" {
    } else {
      DashedSegments(s[..|s| - 1]);
      assert s == s[..|s| - 1] + [s[|s| - 1]];
      if s[|s| - 1] == '-' {
        DashedNext(Segments(s[..|s| - 1]));
      } else {
        DashedGrows(Segments(s[..|s| - 1]), s[|s| - 1]);
      }
    }
  }

  lemma DashedNext(p: seq<string>)
    requires p != []
    ensures Dashed(p + [""]) == Dashed(p) + "-"
  {
    assert (p + [""])[..|p|] == p;
    assert Dashed(p) + "-" + "" == Dashed(p) + "-";
  }

  lemma DashedGrows(p: seq<string>, c: char)
    requires p != []
    ensures Dashed(p[|p| - 1 := p[|p| - 1] + [c]]) == Dashed(p) + [c]
  {
    var grown := p[|p| - 1 := p[|p| - 1] + [c]];
    assert grown[..|p| - 1] == p[..|p| - 1];
    if |p| > 1 {
      assert Dashed(p[..|p| - 1]) + "-" + (p[|p| - 1] + [c]) == Dashed(p[..|p| - 1]) + "-" + p[|p| - 1] + [c];
    }
  }

  // ----- The patterns -----

  const CLAUDE := "claude"
  const AUTO := "auto"
  const LATEST := "latest"

  predicate Family(s: string) {
    s == "haiku" || s == "sonnet" || s == "opus"
  }

  predicate Digits(u: Unicode, s: string) {
    s != "" && forall i | 0 <= i < |s| :: u.digit(s[i])
  }

  predicate Date(u: Unicode, s: string) {
    Digits(u, s) && |s| == 8
  }

  /** A date, `latest`, or any digits. */
  predicate Suffix(u: Unicode, s: string) {
    Digits(u, s) || s == LATEST
  }

  /** Digits, a dot, digits. */
  predicate Dotted(u: Unicode, s: string) {
    exists i | 0 < i < |s| - 1 :: s[i] == '.' && Digits(u, s[..i]) && Digits(u, s[i + 1..])
  }

  /** `claude-{family}-{major}-{minor}`, with or without a suffix. */
  predicate Standard(u: Unicode, p: seq<string>) {
    && (|p| == 4 || (|p| == 5 && Suffix(u, p[4])))
    && p[0] == CLAUDE && Family(p[1]) && Digits(u, p[2]) && Digits(u, p[3]) && |p[3]| <= 2
  }

  /** `claude-{family}-{major}`, with or without a date. */
  predicate NoMinor(u: Unicode, p: seq<string>) {
    (|p| == 3 || (|p| == 4 && Date(u, p[3]))) && p[0] == CLAUDE && Family(p[1]) && Digits(u, p[2])
  }

  /** `claude-{major}-{minor}-{family}`, with or without a suffix. */
  predicate Legacy(u: Unicode, p: seq<string>) {
    && (|p| == 4 || (|p| == 5 && Suffix(u, p[4])))
    && p[0] == CLAUDE && Digits(u, p[1]) && Digits(u, p[2]) && Family(p[3])
  }

  /** `claude`, a family, and versions with dots before or after it. */
  predicate DotName(u: Unicode, p: seq<string>) {
    && |p| >= 2 && p[0] == CLAUDE
    && if Family(p[1]) then |p| == 2 || (|p| == 3 && Dotted(u, p[2]))
       else Dotted(u, p[1]) && |p| >= 3 && Family(p[2]) && (|p| == 3 || (|p| == 4 && Dotted(u, p[3])))
  }

  predicate DotWithDate(u: Unicode, p: seq<string>) {
    p != [] && Date(u, p[|p| - 1]) && DotName(u, p[..|p| - 1])
  }

  /** `normalize_model_name`. */
  function Normalized(u: Unicode, name: string): string {
    var l := u.lower(name);
    var p := Segments(l);
    if name == "" then name
    else if Standard(u, p) then Dashed(p[..3]) + "." + p[3]
    else if NoMinor(u, p) then Dashed(p[..3])
    else if Legacy(u, p) then Dashed([p[0], p[1] + "." + p[2], p[3]])
    else if DotWithDate(u, p) then Dashed(p[..|p| - 1])
    else if CLAUDE <= l || l == AUTO then name
    else AUTO
  }

  // ----- Idempotence -----

  /** None of the patterns applies. */
  predicate Unmatched(u: Unicode, p: seq<string>) {
    !Standard(u, p) && !NoMinor(u, p) && !Legacy(u, p) && !DotWithDate(u, p)
  }

  lemma FamilyIsNoVersion(u: Unicode, s: string)
    requires Lawful(u) && Family(s)
    ensures !Digits(u, s) && !Dotted(u, s) && DashFree(s)
  {
    assert IsAsciiLower(s[0]);
    assert !u.digit(s[0]);
  }

  lemma DottedIsNoNumber(u: Unicode, s: string)
    requires Lawful(u) && Dotted(u, s)
    ensures !Digits(u, s)
  {
  }

  lemma DottedFromParts(u: Unicode, a: string, b: string)
    requires Digits(u, a) && Digits(u, b)
    ensures Dotted(u, a + "." + b)
  {
    var s := a + "." + b;
    assert s[..|a|] == a && s[|a| + 1..] == b && s[|a|] == '.';
  }

  /** A name with dots and no date matches no pattern. */
  lemma DotNameIsUnmatched(u: Unicode, p: seq<string>)
    requires Lawful(u) && DotName(u, p)
    ensures Unmatched(u, p)
  {
    forall k | 0 <= k < |p|
      ensures Family(p[k]) ==> !Digits(u, p[k]) && !Dotted(u, p[k])
      ensures Dotted(u, p[k]) ==> !Digits(u, p[k])
    {
      if Family(p[k]) {
        FamilyIsNoVersion(u, p[k]);
      }
      if Dotted(u, p[k]) {
        DottedIsNoNumber(u, p[k]);
      }
    }
  }

  lemma {:induction false} StableDashed(u: Unicode, p: seq<string>)
    requires Lawful(u) && p != [] && forall k | 0 <= k < |p| :: Stable(u, p[k])
    ensures Stable(u, Dashed(p))
  {
    if |p| == 1 {
    } else {
      StableDashed(u, p[..|p| - 1]);
    }
  }

  lemma {:induction false} StableSegments(u: Unicode, s: string)
    requires Stable(u, s)
    ensures forall k | 0 <= k < |Segments(s)| :: Stable(u, Segments(s)[k])
  {
    if s == "" {
    } else {
      StableSegments(u, s[..|s| - 1]);
    }
  }

  lemma {:induction false} StartsWithFirst(p: seq<string>)
    requires p != []
    ensures p[0] <= Dashed(p)
  {
    if |p| == 1 {
    } else {
      StartsWithFirst(p[..|p| - 1]);
    }
  }

  /** Parts that make a name, in lower case and without dashes. */
  predicate Proper(u: Unicode, p: seq<string>) {
    p != [] && p[0] == CLAUDE && forall k | 0 <= k < |p| :: DashFree(p[k]) && Stable(u, p[k])
  }

  lemma SegmentsAreProper(u: Unicode, name: string)
    requires Lawful(u) && Segments(u.lower(name))[0] == CLAUDE
    ensures Proper(u, Segments(u.lower(name)))
  {
    SegmentsAreDashFree(u.lower(name));
    StableSegments(u, u.lower(name));
  }

  /** Such parts are read again from the name they make. */
  lemma ProperIsRead(u: Unicode, p: seq<string>)
    requires Lawful(u) && Proper(u, p)
    ensures u.lower(Dashed(p)) == Dashed(p) && Segments(Dashed(p)) == p && CLAUDE <= Dashed(p) && Dashed(p) != ""
  {
    StableDashed(u, p);
    SegmentsOfDashed(p);
    StartsWithFirst(p);
  }

  /** What becomes of a name made of such parts. */
  lemma ProperNormalizes(u: Unicode, p: seq<string>)
    requires Lawful(u) && Proper(u, p)
    ensures Unmatched(u, p) ==> Normalized(u, Dashed(p)) == Dashed(p)
    ensures NoMinor(u, p) && |p| == 3 ==> Normalized(u, Dashed(p)) == Dashed(p)
  {
    ProperIsRead(u, p);
    if |p| == 3 {
      assert p[..3] == p;
    }
  }

  /** A name with a version in dots stays as it is. */
  lemma DotNameStays(u: Unicode, p: seq<string>)
    requires Lawful(u) && Proper(u, p) && DotName(u, p)
    ensures Normalized(u, Dashed(p)) == Dashed(p)
  {
    DotNameIsUnmatched(u, p);
    ProperNormalizes(u, p);
  }

  lemma StandardResult(u: Unicode, p: seq<string>)
    requires Lawful(u) && Proper(u, p) && Standard(u, p)
    ensures var q := [p[0], p[1], p[2] + "." + p[3]];
            Dashed(p[..3]) + "." + p[3] == Dashed(q) && Proper(u, q) && DotName(u, q)
  {
    var q := [p[0], p[1], p[2] + "." + p[3]];
    DottedFromParts(u, p[2], p[3]);
    assert q[..2] == p[..3][..2];
    assert Dashed(q[..2]) + "-" + (p[2] + "." + p[3]) == Dashed(p[..3][..2]) + "-" + p[2] + "." + p[3];
  }

  lemma LegacyResult(u: Unicode, p: seq<string>)
    requires Lawful(u) && Proper(u, p) && Legacy(u, p)
    ensures var q := [p[0], p[1] + "." + p[2], p[3]]; Proper(u, q) && DotName(u, q)
  {
    DottedFromParts(u, p[1], p[2]);
    if Family(p[1] + "." + p[2]) {
      FamilyIsNoVersion(u, p[1] + "." + p[2]);
    }
  }

  lemma AutoStays(u: Unicode)
    requires Lawful(u)
    ensures Normalized(u, AUTO) == AUTO
  {
    assert DashFree(AUTO) && Stable(u, AUTO);
    SegmentsOfOne(AUTO);
  }

  /** Normalising a second time changes nothing, whatever the name. */
  lemma NormalizingIsIdempotent(u: Unicode, name: string)
    requires Lawful(u)
    ensures Normalized(u, Normalized(u, name)) == Normalized(u, name)
  {
    var p := Segments(u.lower(name));
    AutoStays(u);
    if name != "" && !Unmatched(u, p) {
      SegmentsAreProper(u, name);
      if Standard(u, p) {
        StandardResult(u, p);
        DotNameStays(u, [p[0], p[1], p[2] + "." + p[3]]);
      } else if NoMinor(u, p) {
        ProperNormalizes(u, p[..3]);
      } else if Legacy(u, p) {
        LegacyResult(u, p);
        DotNameStays(u, [p[0], p[1] + "." + p[2], p[3]]);
      } else {
        DotNameStays(u, p[..|p| - 1]);
      }
    }
  }

  lemma FirstIsNoClaude(l: string)
    requires !(CLAUDE <= l)
    ensures Segments(l)[0] != CLAUDE
  {
    DashedSegments(l);
    StartsWithFirst(Segments(l));
  }

  lemma NoClaudeIsUnmatched(u: Unicode, p: seq<string>)
    requires p != [] && p[0] != CLAUDE
    ensures Unmatched(u, p)
  {
    assert |p| > 1 ==> p[..|p| - 1][0] == p[0];
  }

  /** A name outside the family, which does not begin with "claude", becomes "auto" unless it is that already. */
  lemma NamesOutsideAreAuto(u: Unicode, name: string)
    requires name != "" && !("claude" <= u.lower(name))
    ensures Normalized(u, name) == if u.lower(name) == "auto" then name else "auto"
  {
    FirstIsNoClaude(u.lower(name));
    NoClaudeIsUnmatched(u, Segments(u.lower(name)));
  }

  // ----- Canonical names -----

  predicate Optional(u: Unicode, suffix: seq<string>) {
    suffix == [] || (|suffix| == 1 && Suffix(u, suffix[0]))
  }

  lemma NameIsProper(u: Unicode, p: seq<string>, suffix: seq<string>)
    requires Lawful(u) && p != [] && p[0] == CLAUDE && Optional(u, suffix)
    requires forall k | 0 < k < |p| :: Family(p[k]) || Digits(u, p[k])
    ensures Proper(u, p + suffix)
  {
    forall k | 0 < k < |p|
      ensures DashFree(p[k]) && Stable(u, p[k])
    {
      if Family(p[k]) {
        FamilyIsNoVersion(u, p[k]);
      }
    }
    if suffix != [] {
      SuffixIsStable(u, suffix[0]);
    }
  }

  /** `claude-{family}-{major}-{minor}` becomes `claude-{family}-{major}.{minor}`, whatever accepted suffix follows. */
  lemma StandardName(u: Unicode, family: string, major: string, minor: string, suffix: seq<string>)
    requires Lawful(u) && Family(family) && Digits(u, major) && Digits(u, minor) && |minor| <= 2 && Optional(u, suffix)
    ensures Normalized(u, Dashed([CLAUDE, family, major, minor] + suffix)) == Dashed([CLAUDE, family, major + "." + minor])
  {
    var p := [CLAUDE, family, major, minor] + suffix;
    NameIsProper(u, [CLAUDE, family, major, minor], suffix);
    ProperIsRead(u, p);
    StandardResult(u, p);
  }

  /** `claude-{major}-{minor}-{family}` becomes `claude-{major}.{minor}-{family}`. */
  lemma LegacyName(u: Unicode, major: string, minor: string, family: string, suffix: seq<string>)
    requires Lawful(u) && Family(family) && Digits(u, major) && Digits(u, minor) && Optional(u, suffix)
    ensures Normalized(u, Dashed([CLAUDE, major, minor, family] + suffix)) == Dashed([CLAUDE, major + "." + minor, family])
  {
    var p := [CLAUDE, major, minor, family] + suffix;
    NameIsProper(u, [CLAUDE, major, minor, family], suffix);
    ProperIsRead(u, p);
    FamilyIsNoVersion(u, family);
  }

  /** Without a minor version a date is dropped. */
  lemma NameWithoutMinor(u: Unicode, family: string, major: string, date: string)
    requires Lawful(u) && Family(family) && Digits(u, major) && Date(u, date)
    ensures Normalized(u, Dashed([CLAUDE, family, major, date])) == Dashed([CLAUDE, family, major])
  {
    var p := [CLAUDE, family, major, date];
    NameIsProper(u, [CLAUDE, family, major], [date]);
    assert [CLAUDE, family, major] + [date] == p && p[..3] == [CLAUDE, family, major];
    ProperIsRead(u, p);
    assert !Standard(u, p) && NoMinor(u, p);
  }

  // ----- Suffixes -----

  lemma SuffixIsStable(u: Unicode, s: string)
    requires Lawful(u) && Suffix(u, s)
    ensures DashFree(s) && Stable(u, s) && Stable(u, "-" + s)
  {
  }

  /** What a name is lower-cased to with a suffix, and its parts. */
  lemma WithSuffix(u: Unicode, name: string, s: string)
    requires Lawful(u) && Suffix(u, s)
    ensures u.lower(name + ("-" + s)) == u.lower(name) + "-" + s
    ensures Segments(u.lower(name + ("-" + s))) == Segments(u.lower(name)) + [s]
  {
    SuffixIsStable(u, s);
    SegmentsOfNext(u.lower(name), s);
    assert u.lower(name) + ("-" + s) == u.lower(name) + "-" + s;
  }

  /** A name with its minor version after a dash. */
  predicate Dashing(u: Unicode, p: seq<string>) {
    |p| == 4 && (Standard(u, p) || Legacy(u, p))
  }

  /** To a name with a minor version after a dash, every accepted suffix may be added. */
  lemma SuffixIsDropped(u: Unicode, name: string, s: string)
    requires Lawful(u) && Dashing(u, Segments(u.lower(name))) && Suffix(u, s)
    ensures Normalized(u, name + ("-" + s)) == Normalized(u, name)
  {
    var p := Segments(u.lower(name));
    WithSuffix(u, name, s);
    var longer := p + [s];
    assert longer[..3] == p[..3];
    assert Segments("") == [""];
    if Family(p[1]) {
      FamilyIsNoVersion(u, p[1]);
    }
  }

  /** To a name with its version in dots a date may be added, exactly when the name is in lower case. */
  lemma DateIsDropped(u: Unicode, name: string, s: string)
    requires Lawful(u) && DotName(u, Segments(u.lower(name))) && |Segments(u.lower(name))| >= 3 && Date(u, s)
    ensures Normalized(u, name + ("-" + s)) == u.lower(name)
    ensures Normalized(u, name + ("-" + s)) == Normalized(u, name) <==> name == u.lower(name)
  {
    var p := Segments(u.lower(name));
    WithSuffix(u, name, s);
    DashedSegments(u.lower(name));
    DotNameIsUnmatched(u, p);
    DatedIsMatched(u, p, s);
    StartsWithFirst(p);
  }

  /** After a family alone a date counts as the major version. */
  lemma FamilyKeepsDate(u: Unicode, name: string, s: string)
    requires Lawful(u) && DotName(u, Segments(u.lower(name))) && |Segments(u.lower(name))| == 2 && Date(u, s)
    ensures Normalized(u, name + ("-" + s)) == u.lower(name) + "-" + s
  {
    var p := Segments(u.lower(name));
    WithSuffix(u, name, s);
    DashedSegments(u.lower(name) + "-" + s);
    var longer := p + [s];
    assert longer[..3] == longer;
  }

  lemma DatedIsMatched(u: Unicode, p: seq<string>, s: string)
    requires Lawful(u) && DotName(u, p) && |p| >= 3 && Date(u, s)
    ensures var q := p + [s];
            !Standard(u, q) && !NoMinor(u, q) && !Legacy(u, q) && DotWithDate(u, q) && q[..|q| - 1] == p
  {
    var q := p + [s];
    assert q[..|q| - 1] == p;
    forall k | 0 <= k < |p|
      ensures Family(p[k]) ==> !Digits(u, p[k]) && !Dotted(u, p[k])
      ensures Dotted(u, p[k]) ==> !Digits(u, p[k])
    {
      if Family(p[k]) {
        FamilyIsNoVersion(u, p[k]);
      }
      if Dotted(u, p[k]) {
        DottedIsNoNumber(u, p[k]);
      }
    }
  }

  /** Any other suffix of a name with its version in dots stays. */
  lemma OtherSuffixStays(u: Unicode, name: string, s: string)
    requires Lawful(u) && DotName(u, Segments(u.lower(name))) && |Segments(u.lower(name))| >= 3
    requires Suffix(u, s) && !Date(u, s)
    ensures Normalized(u, name + ("-" + s)) == name + ("-" + s)
  {
    var p := Segments(u.lower(name));
    WithSuffix(u, name, s);
    DashedSegments(u.lower(name));
    StartsWithFirst(p);
    OtherIsUnmatched(u, p, s);
  }

  lemma OtherIsUnmatched(u: Unicode, p: seq<string>, s: string)
    requires Lawful(u) && DotName(u, p) && |p| >= 3 && Suffix(u, s) && !Date(u, s)
    ensures Unmatched(u, p + [s])
  {
    forall k | 0 <= k < |p|
      ensures Family(p[k]) ==> !Digits(u, p[k]) && !Dotted(u, p[k])
      ensures Dotted(u, p[k]) ==> !Digits(u, p[k])
    {
      if Family(p[k]) {
        FamilyIsNoVersion(u, p[k]);
      }
      if Dotted(u, p[k]) {
        DottedIsNoNumber(u, p[k]);
      }
    }
  }

  // ----- An instance of the laws -----

  function LowerChar(c: char): char {
    if 'A' <= c <= 'Z' then (c as int + 32) as char else c
  }

  function AsciiLower(s: string): string {
    seq(|s|, i requires 0 <= i < |s| => LowerChar(s[i]))
  }

  const ASCII := Unicode(c => '0' <= c <= '9', AsciiLower, c => !('A' <= c <= 'Z'))

  lemma AsciiLowerStable(s: string)
    ensures Stable(ASCII, AsciiLower(s)) && (Stable(ASCII, s) ==> AsciiLower(s) == s)
  {
    assert forall c: char :: ASCII.stable(c) ==> LowerChar(c) == c;
  }

  lemma AsciiLowerConcat(s: string, t: string)
    ensures AsciiLower(s + t) == AsciiLower(s) + AsciiLower(t)
  {
  }

  /** The laws hold when only ASCII letters and digits are told apart. */
  lemma AsciiIsLawful()
    ensures Lawful(ASCII)
  {
    forall s: string
      ensures Stable(ASCII, ASCII.lower(s)) && (Stable(ASCII, s) ==> ASCII.lower(s) == s)
    {
      AsciiLowerStable(s);
    }
    forall s: string, t: string
      ensures Stable(ASCII, t) ==> ASCII.lower(s + t) == ASCII.lower(s) + t
    {
      AsciiLowerConcat(s, t);
      AsciiLowerStable(t);
    }
  }
}
