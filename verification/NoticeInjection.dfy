/** Injecting notices into a list of messages: the two passes of the source and the single pass they amount to. */
module NoticeInjection {
  /** What is remembered of truncated tool calls, by identifier, and of truncated contents, by digest. */
  datatype Cache = Cache(tools: set<string>, contents: set<string>)

  /** What becomes of one message; a notice follows it when it is matched. */
  datatype Visit<M> = Visit(cache: Cache, message: M, matched: bool)

  /** After the first pass: the edited messages, and where notices are to be inserted. */
  datatype Scan<M> = Scan(cache: Cache, edited: seq<M>, positions: seq<nat>)

  datatype Injection<M> = Injection(cache: Cache, messages: seq<M>)

  function Scanned<M>(visit: (Cache, M) -> Visit<M>, cache: Cache, ms: seq<M>): Scan<M> {
    if ms == [] then Scan(cache, [], [])
    else
      var s := Scanned(visit, cache, ms[..|ms| - 1]);
      var v := visit(s.cache, ms[|ms| - 1]);
      Scan(v.cache, s.edited + [v.message], if v.matched then s.positions + [|ms|] else s.positions)
  }

  /** The insertions are applied from the last to the first; one beyond the end would be left out. */
  function InsertedInReverse<M>(ms: seq<M>, positions: seq<nat>, notice: M): seq<M>
    decreases |positions|
  {
    if positions == [] then ms
    else
      var p := positions[|positions| - 1];
      var inserted := if p <= |ms| then ms[..p] + [notice] + ms[p..] else ms;
      InsertedInReverse(inserted, positions[..|positions| - 1], notice)
  }

  method InsertInReverse<M>(ms: seq<M>, positions: seq<nat>, notice: M) returns (result: seq<M>)
    ensures result == InsertedInReverse(ms, positions, notice)
  {
    result := ms;
    var i := |positions|;
    assert positions[..i] == positions;
    while i > 0
      invariant 0 <= i <= |positions|
      invariant InsertedInReverse(result, positions[..i], notice) == InsertedInReverse(ms, positions, notice)
    {
      i := i - 1;
      var p := positions[i];
      assert positions[..i + 1][..i] == positions[..i];
      if p <= |result| {
        result := result[..p] + [notice] + result[p..];
      }
    }
  }

  /** The single pass: each matched message is followed by a notice at once. */
  function Injected<M>(visit: (Cache, M) -> Visit<M>, notice: M, cache: Cache, ms: seq<M>): Injection<M> {
    if ms == [] then Injection(cache, [])
    else
      var before := Injected(visit, notice, cache, ms[..|ms| - 1]);
      var v := visit(before.cache, ms[|ms| - 1]);
      Injection(v.cache, before.messages + if v.matched then [v.message, notice] else [v.message])
  }

  // ----- Two passes are one -----

  predicate Within(positions: seq<nat>, n: nat) {
    forall k | 0 <= k < |positions| :: positions[k] <= n
  }

  /** Insertions before the end leave what follows alone. */
  lemma {:induction false} InsertBefore<M>(ms: seq<M>, more: seq<M>, positions: seq<nat>, notice: M)
    requires Within(positions, |ms|)
    ensures InsertedInReverse(ms + more, positions, notice) == InsertedInReverse(ms, positions, notice) + more
    decreases |positions|
  {
    if positions == [] {
    } else {
      var p, init := positions[|positions| - 1], positions[..|positions| - 1];
      var inserted := ms[..p] + [notice] + ms[p..];
      assert (ms + more)[..p] + [notice] + (ms + more)[p..] == inserted + more;
      InsertBefore(inserted, more, init, notice);
    }
  }

  lemma {:induction false} ScanIsWithin<M>(visit: (Cache, M) -> Visit<M>, cache: Cache, ms: seq<M>)
    ensures |Scanned(visit, cache, ms).edited| == |ms| && Within(Scanned(visit, cache, ms).positions, |ms|)
  {
    if ms == [] {
    } else {
      ScanIsWithin(visit, cache, ms[..|ms| - 1]);
    }
  }

  lemma InsertAtEnd<M>(ms: seq<M>, m: M, positions: seq<nat>, notice: M)
    requires Within(positions, |ms|)
    ensures InsertedInReverse(ms + [m], positions + [|ms| + 1], notice) ==
            InsertedInReverse(ms, positions, notice) + [m, notice]
  {
    var longer := positions + [|ms| + 1];
    assert longer[..|longer| - 1] == positions;
    assert (ms + [m])[..|ms| + 1] + [notice] + (ms + [m])[|ms| + 1..] == ms + [m, notice];
    InsertBefore(ms, [m, notice], positions, notice);
  }

  /** Collecting positions and inserting from the last to the first is the same as one pass that inserts at once. */
  lemma {:induction false} TwoPassesAreOne<M>(visit: (Cache, M) -> Visit<M>, notice: M, cache: Cache, ms: seq<M>)
    ensures var s := Scanned(visit, cache, ms);
            Injected(visit, notice, cache, ms) == Injection(s.cache, InsertedInReverse(s.edited, s.positions, notice))
  {
    if ms == [] {
    } else {
      var init := ms[..|ms| - 1];
      var s := Scanned(visit, cache, init);
      var v := visit(s.cache, ms[|ms| - 1]);
      TwoPassesAreOne(visit, notice, cache, init);
      ScanIsWithin(visit, cache, init);
      if v.matched {
        InsertAtEnd(s.edited, v.message, s.positions, notice);
      } else {
        InsertBefore(s.edited, [v.message], s.positions, notice);
      }
    }
  }

  // ----- The original messages -----

  function Before(positions: seq<nat>, k: nat): nat {
    if positions == [] then 0
    else Before(positions[..|positions| - 1], k) + if positions[|positions| - 1] <= k then 1 else 0
  }

  lemma {:induction false} AllBefore(positions: seq<nat>, k: nat)
    requires Within(positions, k)
    ensures Before(positions, k) == |positions|
  {
    if positions == [] {
    } else {
      AllBefore(positions[..|positions| - 1], k);
    }
  }

  lemma {:induction false} InjectedLength<M>(visit: (Cache, M) -> Visit<M>, notice: M, cache: Cache, ms: seq<M>)
    ensures |Injected(visit, notice, cache, ms).messages| == |ms| + |Scanned(visit, cache, ms).positions|
    ensures Injected(visit, notice, cache, ms).cache == Scanned(visit, cache, ms).cache
  {
    if ms == [] {
    } else {
      InjectedLength(visit, notice, cache, ms[..|ms| - 1]);
    }
  }

  /** Every message stays in place, moved on only by the notices inserted before it. */
  lemma {:induction false} OrderIsKept<M>(visit: (Cache, M) -> Visit<M>, notice: M, cache: Cache, ms: seq<M>, k: nat)
    requires k < |ms|
    ensures var s, result := Scanned(visit, cache, ms), Injected(visit, notice, cache, ms).messages;
            && k < |s.edited| && k + Before(s.positions, k) < |result|
            && result[k + Before(s.positions, k)] == s.edited[k]
  {
    var init, m := ms[..|ms| - 1], ms[|ms| - 1];
    var s := Scanned(visit, cache, init);
    InjectedLength(visit, notice, cache, init);
    ScanIsWithin(visit, cache, init);
    if k < |init| {
      OrderIsKept(visit, notice, cache, init, k);
    } else {
      AllBefore(s.positions, k);
    }
    if visit(s.cache, m).matched {
      assert (s.positions + [|ms|])[..|s.positions|] == s.positions;
    }
  }
}
