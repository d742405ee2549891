/** What an injection of notices takes from the cache, and that nothing is left for a second one. */
module NoticeCache {
  import opened NoticeInjection

  /**
   * A visit takes its own keys from the cache, edits a message only when one of them was there, and leaves the keys of
   * the message as they are.
   */
  ghost predicate Lawful<M(!new)>(visit: (Cache, M) -> Visit<M>, tools: M -> set<string>, contents: M -> set<string>) {
    forall c: Cache, m: M {:trigger visit(c, m)} ::
      var v := visit(c, m);
      && v.cache == Cache(c.tools - tools(m), c.contents - contents(m))
      && tools(v.message) == tools(m) && contents(v.message) == contents(m)
      && (v.matched <==> contents(m) * c.contents != {}) && |contents(m)| <= 1
      && (tools(m) * c.tools == {} && contents(m) * c.contents == {} ==> v.message == m)
  }

  ghost predicate IsNotice<M>(notice: M, tools: M -> set<string>, contents: M -> set<string>) {
    tools(notice) == {} && contents(notice) == {}
  }

  function Union<M>(keys: M -> set<string>, ms: seq<M>): set<string> {
    if ms == [] then {} else Union(keys, ms[..|ms| - 1]) + keys(ms[|ms| - 1])
  }

  /** Exactly the keys of the messages are taken from the cache: every entry is used once at most. */
  lemma {:induction false} KeysAreConsumed<M(!new)>(visit: (Cache, M) -> Visit<M>, notice: M, tools: M -> set<string>,
                                                    contents: M -> set<string>, cache: Cache, ms: seq<M>)
    requires Lawful(visit, tools, contents)
    ensures Injected(visit, notice, cache, ms).cache ==
            Cache(cache.tools - Union(tools, ms), cache.contents - Union(contents, ms))
  {
    if ms == [] {
      assert cache.tools - {} == cache.tools && cache.contents - {} == cache.contents;
    } else {
      var init, m := ms[..|ms| - 1], ms[|ms| - 1];
      KeysAreConsumed(visit, notice, tools, contents, cache, init);
      assert cache.tools - Union(tools, init) - tools(m) == cache.tools - Union(tools, ms);
      assert cache.contents - Union(contents, init) - contents(m) == cache.contents - Union(contents, ms);
    }
  }

  /** The entries that are still there for a message: those that no earlier message has used. */
  function Remaining<M>(tools: M -> set<string>, contents: M -> set<string>, cache: Cache, earlier: seq<M>): Cache {
    Cache(cache.tools - Union(tools, earlier), cache.contents - Union(contents, earlier))
  }

  /** Every message is visited with what the messages before it have left, and marked when it is matched. */
  lemma {:induction false} EachIsVisited<M(!new)>(visit: (Cache, M) -> Visit<M>, notice: M, tools: M -> set<string>,
                                                  contents: M -> set<string>, cache: Cache, ms: seq<M>, k: nat)
    requires Lawful(visit, tools, contents) && k < |ms|
    ensures var s, v := Scanned(visit, cache, ms), visit(Remaining(tools, contents, cache, ms[..k]), ms[k]);
            && k < |s.edited| && s.edited[k] == v.message && (k + 1 in s.positions <==> v.matched)
  {
    var init := ms[..|ms| - 1];
    ScanIsWithin(visit, cache, init);
    if k < |init| {
      EachIsVisited(visit, notice, tools, contents, cache, init, k);
      assert init[..k] == ms[..k];
    } else {
      KeysAreConsumed(visit, notice, tools, contents, cache, init);
      InjectedLength(visit, notice, cache, init);
    }
  }

  /** A notice for every content entry that is used, and no other message. */
  lemma {:induction false} OneNoticePerEntry<M(!new)>(visit: (Cache, M) -> Visit<M>, notice: M, tools: M -> set<string>,
                                                      contents: M -> set<string>, cache: Cache, ms: seq<M>)
    requires Lawful(visit, tools, contents)
    ensures var after := Injected(visit, notice, cache, ms);
            |after.messages| + |after.cache.contents| == |ms| + |cache.contents|
  {
    if ms == [] {
    } else {
      var init, m := ms[..|ms| - 1], ms[|ms| - 1];
      OneNoticePerEntry(visit, notice, tools, contents, cache, init);
      var before := Injected(visit, notice, cache, init).cache;
      assert visit(before, m).cache.contents == before.contents - contents(m);
      OneAtMost(before.contents, contents(m));
    }
  }

  lemma OneAtMost(s: set<string>, t: set<string>)
    requires |t| <= 1
    ensures |s| == |s - t| + if t * s != {} then 1 else 0
  {
    if t * s != {} {
      var x :| x in t * s;
      if exists y :: y in t && y != x {
        var y :| y in t && y != x;
        assert {x, y} <= t && |{x, y}| == 2;
        Smaller({x, y}, t);
      }
      assert t == {x} && s == (s - t) + {x};
    } else {
      NothingTaken(s, t);
    }
  }

  lemma Smaller(a: set<string>, b: set<string>)
    requires a <= b
    ensures |a| <= |b|
  {
    assert b == a + (b - a);
  }

  // ----- Running again -----

  predicate Idle<M>(tools: M -> set<string>, contents: M -> set<string>, cache: Cache, m: M) {
    tools(m) * cache.tools == {} && contents(m) * cache.contents == {}
  }

  /** No key of any message is in the cache. */
  predicate Spent<M>(tools: M -> set<string>, contents: M -> set<string>, cache: Cache, ms: seq<M>) {
    ms != [] ==> Spent(tools, contents, cache, ms[..|ms| - 1]) && Idle(tools, contents, cache, ms[|ms| - 1])
  }

  lemma NothingTaken(s: set<string>, t: set<string>)
    requires t * s == {}
    ensures s - t == s
  {
    assert forall x | x in s :: x !in t * s;
  }

  lemma VisitIsIdle<M(!new)>(visit: (Cache, M) -> Visit<M>, tools: M -> set<string>, contents: M -> set<string>,
                             cache: Cache, m: M)
    requires Lawful(visit, tools, contents) && Idle(tools, contents, cache, m)
    ensures visit(cache, m) == Visit(cache, m, false)
  {
    var v := visit(cache, m);
    NothingTaken(cache.tools, tools(m));
    NothingTaken(cache.contents, contents(m));
    assert v.cache == Cache(cache.tools - tools(m), cache.contents - contents(m));
  }

  lemma {:induction false} NothingHappens<M(!new)>(visit: (Cache, M) -> Visit<M>, notice: M, tools: M -> set<string>,
                                                   contents: M -> set<string>, cache: Cache, ms: seq<M>)
    requires Lawful(visit, tools, contents) && Spent(tools, contents, cache, ms)
    ensures Injected(visit, notice, cache, ms) == Injection(cache, ms)
  {
    if ms == [] {
    } else {
      NothingHappens(visit, notice, tools, contents, cache, ms[..|ms| - 1]);
      VisitIsIdle(visit, tools, contents, cache, ms[|ms| - 1]);
      assert ms[..|ms| - 1] + [ms[|ms| - 1]] == ms;
    }
  }

  lemma {:induction false} SpentShrinks<M>(tools: M -> set<string>, contents: M -> set<string>, cache: Cache,
                                           less: Cache,
                                           ms: seq<M>)
    requires Spent(tools, contents, cache, ms) && less.tools <= cache.tools && less.contents <= cache.contents
    ensures Spent(tools, contents, less, ms)
  {
    if ms == [] {
    } else {
      var m := ms[|ms| - 1];
      SpentShrinks(tools, contents, cache, less, ms[..|ms| - 1]);
      assert tools(m) * less.tools <= tools(m) * cache.tools && contents(m) * less.contents <= contents(m) * cache.contents;
    }
  }

  lemma SpentSnoc<M>(tools: M -> set<string>, contents: M -> set<string>, cache: Cache, ms: seq<M>, m: M)
    requires Spent(tools, contents, cache, ms) && Idle(tools, contents, cache, m)
    ensures Spent(tools, contents, cache, ms + [m])
  {
    assert (ms + [m])[..|ms|] == ms;
  }

  lemma {:induction false} ResultIsSpent<M(!new)>(visit: (Cache, M) -> Visit<M>, notice: M, tools: M -> set<string>,
                                                  contents: M -> set<string>, cache: Cache, ms: seq<M>)
    requires Lawful(visit, tools, contents) && IsNotice(notice, tools, contents)
    ensures var after := Injected(visit, notice, cache, ms); Spent(tools, contents, after.cache, after.messages)
  {
    if ms == [] {
    } else {
      var before := Injected(visit, notice, cache, ms[..|ms| - 1]);
      var v := visit(before.cache, ms[|ms| - 1]);
      ResultIsSpent(visit, notice, tools, contents, cache, ms[..|ms| - 1]);
      SpentShrinks(tools, contents, before.cache, v.cache, before.messages);
      SpentSnoc(tools, contents, v.cache, before.messages, v.message);
      SpentSnoc(tools, contents, v.cache, before.messages + [v.message], notice);
      assert before.messages + [v.message] + [notice] == before.messages + [v.message, notice];
    }
  }

  /** Running the injection again on its own result changes neither the messages nor the cache. */
  lemma AgainIsIdentity<M(!new)>(visit: (Cache, M) -> Visit<M>, notice: M, tools: M -> set<string>,
                                 contents: M -> set<string>, cache: Cache, ms: seq<M>)
    requires Lawful(visit, tools, contents) && IsNotice(notice, tools, contents)
    ensures var after := Injected(visit, notice, cache, ms);
            Injected(visit, notice, after.cache, after.messages) == after
  {
    ResultIsSpent(visit, notice, tools, contents, cache, ms);
    var after := Injected(visit, notice, cache, ms);
    NothingHappens(visit, notice, tools, contents, after.cache, after.messages);
  }
}
