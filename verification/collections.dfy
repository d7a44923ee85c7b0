/** `null`-or-value and the order-keeping filter-and-map that both extraction
    paths perform: the fallback extractor pushes at most one offer per
    container, the live path maps cards and keeps the valid ones. */
module Collections {

  /** `null`/`undefined` versus a value. */
  datatype Option<T> = None | Some(value: T)

  /** Visit `s` from left to right and append `f(x)` whenever it is a value. */
  function FilterMap<A, B>(f: A -> Option<B>, s: seq<A>): (r: seq<B>)
    ensures |r| <= |s|
  {
    if s == [] then []
    else
      var rest := FilterMap(f, s[..|s| - 1]);
      match f(s[|s| - 1])
      case Some(b) => rest + [b]
      case None => rest
  }

  /** FilterMap distributes over concatenation, so it keeps the input order. */
  lemma {:induction false} FilterMapAppend<A, B>(f: A -> Option<B>, a: seq<A>, b: seq<A>)
    ensures FilterMap(f, a + b) == FilterMap(f, a) + FilterMap(f, b)
    decreases |b|
  {
    if b == [] {
      assert a + b == a;
    } else {
      var b' := b[..|b| - 1];
      assert (a + b)[..|a + b| - 1] == a + b';
      assert (a + b)[|a + b| - 1] == b[|b| - 1];
      FilterMapAppend(f, a, b');
    }
  }

  /** `y` is in the result exactly when some element of the input maps to it. */
  lemma {:induction false} FilterMapMembers<A, B>(f: A -> Option<B>, s: seq<A>, y: B)
    ensures y in FilterMap(f, s) <==> exists k | 0 <= k < |s| :: f(s[k]) == Some(y)
  {
    if s != [] {
      var init := s[..|s| - 1];
      FilterMapMembers(f, init, y);
      if exists k | 0 <= k < |s| :: f(s[k]) == Some(y) {
        var k :| 0 <= k < |s| && f(s[k]) == Some(y);
        if k < |s| - 1 {
          assert init[k] == s[k];
        }
      }
      if y in FilterMap(f, init) {
        var k :| 0 <= k < |init| && f(init[k]) == Some(y);
        assert s[k] == init[k];
      }
    }
  }

  /** An element that maps to nothing contributes nothing. */
  lemma FilterMapSkip<A, B>(f: A -> Option<B>, s: seq<A>, k: nat)
    requires k < |s| && f(s[k]).None?
    ensures FilterMap(f, s) == FilterMap(f, s[..k] + s[k + 1..])
  {
    var pre, post := s[..k], s[k + 1..];
    assert s == pre + [s[k]] + post;
    FilterMapAppend(f, pre + [s[k]], post);
    FilterMapAppend(f, pre, [s[k]]);
    assert [s[k]][..0] == [];
    FilterMapAppend(f, pre, post);
  }

  /** An element that maps to a value contributes that value. */
  lemma FilterMapHas<A, B>(f: A -> Option<B>, s: seq<A>, k: nat, y: B)
    requires k < |s| && f(s[k]) == Some(y)
    ensures y in FilterMap(f, s)
  {
    var pre, post := s[..k], s[k + 1..];
    assert s == pre + [s[k]] + post;
    FilterMapAppend(f, pre + [s[k]], post);
    FilterMapAppend(f, pre, [s[k]]);
    assert [s[k]][..0] == [];
  }
}
