/** String helpers: Python's `str.join` and substring containment. */
module Text {

  /** `sep.join(items)`: the items in order with `sep` between neighbours. */
  function Join(sep: string, items: seq<string>): (r: string)
  {
    if |items| == 0 then ""
    else if |items| == 1 then items[0]
    else items[0] + sep + Join(sep, items[1..])
  }

  /** `t in s` for Python strings: `t` occurs in `s` as a contiguous piece. */
  ghost predicate Contains(s: string, t: string)
  {
    exists k :: OccursAt(s, t, k)
  }

  /** `t` occurs in `s` starting at index `k`. */
  ghost predicate OccursAt(s: string, t: string, k: int)
  {
    0 <= k <= |s| - |t| && s[k..k + |t|] == t
  }

  lemma ContainsMiddle(a: string, t: string, b: string)
    ensures Contains(a + t + b, t)
  {
    var s := a + t + b;
    assert OccursAt(s, t, |a|);
  }

  lemma ContainsSuffix(a: string, t: string)
    ensures Contains(a + t, t)
  {
    assert (a + t)[|a|..|a| + |t|] == t;
    assert OccursAt(a + t, t, |a|);
  }

  /** What a string contains, every string it is a prefix of contains. */
  lemma PrefixContains(s: string, u: string, t: string)
    requires Contains(s, t) && s <= u
    ensures Contains(u, t)
  {
    var k :| OccursAt(s, t, k);
    assert u[k..k + |t|] == s[k..k + |t|];
    assert OccursAt(u, t, k);
  }

  lemma ContainsPrepend(a: string, s: string, t: string)
    requires Contains(s, t)
    ensures Contains(a + s, t)
  {
    var k :| OccursAt(s, t, k);
    assert (a + s)[|a| + k..|a| + k + |t|] == s[k..k + |t|];
    assert OccursAt(a + s, t, |a| + k);
  }

  lemma ContainsAppend(s: string, b: string, t: string)
    requires Contains(s, t)
    ensures Contains(s + b, t)
  {
    var k :| OccursAt(s, t, k);
    assert (s + b)[k..k + |t|] == s[k..k + |t|];
    assert OccursAt(s + b, t, k);
  }

  /** Every item of a joined list can be found in the joined string. */
  lemma {:induction false} JoinContains(sep: string, items: seq<string>, i: nat)
    requires i < |items|
    ensures Contains(Join(sep, items), items[i])
  {
    if |items| == 1 {
      ContainsMiddle("", items[0], "");
      assert "" + items[0] + "" == items[0];
    } else if i == 0 {
      ContainsMiddle("", items[0], sep + Join(sep, items[1..]));
      assert "" + items[0] + (sep + Join(sep, items[1..])) == Join(sep, items);
    } else {
      JoinContains(sep, items[1..], i - 1);
      ContainsPrepend(items[0] + sep, Join(sep, items[1..]), items[i]);
    }
  }
}
