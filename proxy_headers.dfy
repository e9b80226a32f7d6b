/** How rendered proxy headers are attached to the proxied request: the rendered headers
    are collected into an `HttpHeaders` multimap, and for each of its keys, in the order the
    keys first occur, one header carrying that key's first value is attached. */
module ProxyHeaders {
  import opened Http

  /** One (key, value) pair of a header multimap. */
  type Pair = (string, string)

  /** The pairs of one header, one per value, in order. */
  function ValuePairs(h: Header): (ps: seq<Pair>)
    ensures |ps| == |h.values|
    ensures forall i :: 0 <= i < |ps| ==> ps[i] == (h.key, h.values[i])
  {
    seq(|h.values|, i requires 0 <= i < |h.values| => (h.key, h.values[i]))
  }

  /** The multimap's pairs: every value of every header, headers in order. */
  function Pairs(hs: seq<Header>): (ps: seq<Pair>)
    ensures forall j, v :: 0 <= j < |hs| && v in hs[j].values ==> (hs[j].key, v) in ps
    decreases |hs|
  {
    if hs == [] then [] else ValuePairs(hs[0]) + Pairs(hs[1..])
  }

  /** Some pair has key `key`. */
  predicate HasPairKey(ps: seq<Pair>, key: string) {
    exists i :: 0 <= i < |ps| && ps[i].0 == key
  }

  /** Some header in `hs` has key `key`. */
  predicate HasHeaderKey(hs: seq<Header>, key: string) {
    exists i :: 0 <= i < |hs| && hs[i].key == key
  }

  /** `(k, v)` is the first pair with key `k`. */
  predicate FirstPairFor(ps: seq<Pair>, k: string, v: string) {
    exists i :: 0 <= i < |ps| && ps[i] == (k, v) && forall j :: 0 <= j < i ==> ps[j].0 != k
  }

  /** No two headers share a key. */
  predicate DistinctHeaderKeys(hs: seq<Header>) {
    forall i, j :: 0 <= i < j < |hs| ==> hs[i].key != hs[j].key
  }

  /** The headers attached for the pairs: `keys()` in first-occurrence order, each with
      `getHeader(key).firstValue()`. */
  function FirstValues(ps: seq<Pair>): (f: seq<Header>)
    ensures |f| <= |ps|
    ensures f == [] <==> ps == []
    decreases |ps|
  {
    if ps == [] then []
    else
      var front, last := FirstValues(ps[..|ps| - 1]), ps[|ps| - 1];
      if HasHeaderKey(front, last.0) then front else front + [Header(last.0, [last.1])]
  }

  /** The headers attached for rendered proxy headers `hs`. */
  function Folded(hs: seq<Header>): (f: seq<Header>)
    ensures DistinctHeaderKeys(f)
    ensures forall i :: 0 <= i < |f| ==> |f[i].values| == 1
  {
    FirstValuesShape(Pairs(hs));
    FirstValues(Pairs(hs))
  }

  /** The attached headers have distinct keys, carry exactly one value each, and mention
      exactly the keys that have at least one value. */
  lemma {:induction false} FirstValuesShape(ps: seq<Pair>)
    ensures var f := FirstValues(ps);
            && DistinctHeaderKeys(f)
            && (forall i :: 0 <= i < |f| ==> |f[i].values| == 1)
            && (forall k :: HasHeaderKey(f, k) <==> HasPairKey(ps, k))
    decreases |ps|
  {
    if ps != [] {
      var n := |ps|;
      var init, last := ps[..n - 1], ps[n - 1];
      var front := FirstValues(init);
      FirstValuesShape(init);
      assert forall i :: 0 <= i < n - 1 ==> ps[i] == init[i];
      var f := FirstValues(ps);
      forall k ensures HasPairKey(ps, k) <==> HasPairKey(init, k) || k == last.0 {
        if HasPairKey(ps, k) {
          var i :| 0 <= i < n && ps[i].0 == k;
          if i < n - 1 {
            assert init[i].0 == k;
          }
        }
        if HasPairKey(init, k) {
          var i :| 0 <= i < |init| && init[i].0 == k;
          assert ps[i].0 == k;
        }
      }
      if !HasHeaderKey(front, last.0) {
        assert f == front + [Header(last.0, [last.1])];
        forall i, j | 0 <= i < j < |f| ensures f[i].key != f[j].key {
          if j < |front| {
            assert f[i] == front[i] && f[j] == front[j];
          } else {
            assert f[i] == front[i];
          }
        }
        forall k ensures HasHeaderKey(f, k) <==> HasHeaderKey(front, k) || k == last.0 {
          if HasHeaderKey(f, k) {
            var i :| 0 <= i < |f| && f[i].key == k;
            if i < |front| {
              assert front[i].key == k;
            }
          }
          if HasHeaderKey(front, k) {
            var i :| 0 <= i < |front| && front[i].key == k;
            assert f[i].key == k;
          }
          assert f[|f| - 1].key == last.0;
        }
        forall i | 0 <= i < |f| ensures |f[i].values| == 1 {
          if i < |front| {
            assert f[i] == front[i];
          }
        }
      }
    }
  }

  /** Each attached header carries the first value given for its key. */
  lemma {:induction false} FirstValuesAreFirst(ps: seq<Pair>)
    ensures var f := FirstValues(ps);
            forall i :: 0 <= i < |f| ==> |f[i].values| > 0 && FirstPairFor(ps, f[i].key, f[i].values[0])
    decreases |ps|
  {
    FirstValuesShape(ps);
    if ps != [] {
      var n := |ps|;
      var init, last := ps[..n - 1], ps[n - 1];
      var front := FirstValues(init);
      FirstValuesAreFirst(init);
      FirstValuesShape(init);
      assert forall i :: 0 <= i < n - 1 ==> ps[i] == init[i];
      var f := FirstValues(ps);
      forall i | 0 <= i < |front| ensures FirstPairFor(ps, front[i].key, front[i].values[0]) {
        var w :| 0 <= w < |init| && init[w] == (front[i].key, front[i].values[0]) && forall j :: 0 <= j < w ==> init[j].0 != front[i].key;
        assert ps[w] == init[w];
      }
      if !HasHeaderKey(front, last.0) {
        assert f == front + [Header(last.0, [last.1])];
        assert FirstPairFor(ps, last.0, last.1) by {
          assert ps[n - 1] == (last.0, last.1);
          assert forall j :: 0 <= j < n - 1 ==> ps[j].0 != last.0;
        }
        forall i | 0 <= i < |f| ensures FirstPairFor(ps, f[i].key, f[i].values[0]) {
          if i < |front| {
            assert f[i] == front[i];
          }
        }
      }
    }
  }

  /** A header key has a pair exactly when that header has at least one value. */
  lemma {:induction false} PairsKeys(hs: seq<Header>, k: string)
    ensures HasPairKey(Pairs(hs), k) <==> exists i :: 0 <= i < |hs| && hs[i].key == k && |hs[i].values| > 0
    decreases |hs|
  {
    if hs != [] {
      PairsKeys(hs[1..], k);
      var head, rest := ValuePairs(hs[0]), Pairs(hs[1..]);
      assert Pairs(hs) == head + rest;
      if HasPairKey(Pairs(hs), k) {
        var i :| 0 <= i < |Pairs(hs)| && Pairs(hs)[i].0 == k;
        if i >= |head| {
          assert rest[i - |head|].0 == k;
          var j :| 0 <= j < |hs[1..]| && hs[1..][j].key == k && |hs[1..][j].values| > 0;
          assert hs[j + 1] == hs[1..][j];
        }
      }
      if exists i :: 0 <= i < |hs| && hs[i].key == k && |hs[i].values| > 0 {
        var i :| 0 <= i < |hs| && hs[i].key == k && |hs[i].values| > 0;
        if i == 0 {
          assert Pairs(hs)[0] == head[0];
        } else {
          assert hs[1..][i - 1] == hs[i];
          var j :| 0 <= j < |rest| && rest[j].0 == k;
          assert Pairs(hs)[|head| + j] == rest[j];
        }
      }
    }
  }

  /** For rendered proxy headers with distinct keys (as an `HttpHeaders` holds them), the
      attached headers are exactly those with at least one value, in order, each cut down
      to its first value. */
  lemma {:induction false} FoldedOfDistinct(hs: seq<Header>)
    requires DistinctHeaderKeys(hs)
    ensures Folded(hs) == FirstOfEach(hs)
    decreases |hs|
  {
    if hs != [] {
      var n := |hs|;
      var init := hs[..n - 1];
      assert hs == init + [hs[n - 1]];
      FoldedOfDistinct(init);
      FoldedAppend(init, hs[n - 1]);
    }
  }

  /** One more header, whose key is new, adds its first value, if it has one. */
  lemma FoldedAppend(init: seq<Header>, last: Header)
    requires DistinctHeaderKeys(init + [last])
    ensures |last.values| == 0 ==> Folded(init + [last]) == Folded(init)
    ensures |last.values| > 0 ==> Folded(init + [last]) == Folded(init) + [Header(last.key, [last.values[0]])]
  {
    var ps := Pairs(init);
    var more := ValuePairs(last);
    PairsOfAppend(init, last);
    FirstValuesAfterKnownKey(ps, more, last.key);
    if |last.values| > 0 {
      PairsKeys(init, last.key);
      forall i | 0 <= i < |init| ensures init[i].key != last.key {
        assert init[i] == (init + [last])[i];
        assert last == (init + [last])[|init|];
      }
      assert more[..1] == [more[0]];
      FirstValuesAppendNew(ps, more[0]);
    }
  }

  /** A pair whose key is new adds one header carrying that pair's value. */
  lemma FirstValuesAppendNew(ps: seq<Pair>, p: Pair)
    requires !HasPairKey(ps, p.0)
    ensures FirstValues(ps + [p]) == FirstValues(ps) + [Header(p.0, [p.1])]
  {
    FirstValuesShape(ps);
    assert (ps + [p])[..|ps|] == ps;
  }

  /** Headers in order, each with only its first value; headers without values dropped. */
  function FirstOfEach(hs: seq<Header>): seq<Header>
    decreases |hs|
  {
    if hs == [] then []
    else
      var front, last := FirstOfEach(hs[..|hs| - 1]), hs[|hs| - 1];
      if |last.values| == 0 then front else front + [Header(last.key, [last.values[0]])]
  }

  lemma {:induction false} PairsOfAppend(hs: seq<Header>, h: Header)
    ensures Pairs(hs + [h]) == Pairs(hs) + ValuePairs(h)
    decreases |hs|
  {
    if hs == [] {
      assert Pairs([h]) == ValuePairs(h) + Pairs([]);
    } else {
      PairsOfAppend(hs[1..], h);
      assert (hs + [h])[1..] == hs[1..] + [h];
    }
  }

  /** Once `key` is known, more pairs with that key change nothing; so the attached
      headers of `ps + more` are those of `ps + more[..1]` when every pair of `more` has
      `key`. */
  lemma {:induction false} FirstValuesAfterKnownKey(ps: seq<Pair>, more: seq<Pair>, key: string)
    requires forall i :: 0 <= i < |more| ==> more[i].0 == key
    ensures |more| > 0 ==> FirstValues(ps + more) == FirstValues(ps + more[..1])
    ensures |more| == 0 ==> FirstValues(ps + more) == FirstValues(ps)
    decreases |more|
  {
    if |more| == 0 {
      assert ps + more == ps;
    } else if |more| > 1 {
      var m := |more|;
      FirstValuesAfterKnownKey(ps, more[..m - 1], key);
      var all := ps + more;
      assert all[..|all| - 1] == ps + more[..m - 1];
      assert (ps + more[..m - 1])[..|ps| + 1] == ps + more[..1];
      FirstValuesShape(ps + more[..1]);
      var f := FirstValues(ps + more[..1]);
      assert HasPairKey(ps + more[..1], key) by {
        assert (ps + more[..1])[|ps|].0 == key;
      }
      assert HasHeaderKey(f, key);
      assert all[|all| - 1].0 == key;
    }
  }
}
