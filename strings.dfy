/** String helpers with the meaning JavaScript gives them. */
module Strings {

  /** `needle` occurs in `hay` starting at index `i`. */
  predicate OccursAt(needle: string, hay: string, i: nat)
  {
    i + |needle| <= |hay| && hay[i..i + |needle|] == needle
  }

  /** JavaScript's `hay.includes(needle)`. */
  predicate Contains(hay: string, needle: string)
  {
    exists i: nat | i <= |hay| :: OccursAt(needle, hay, i)
  }

  /** JavaScript's `parts.join(sep)`: the parts in order with `sep` between neighbours. */
  function Join(parts: seq<string>, sep: string): string
  {
    if |parts| == 0 then ""
    else if |parts| == 1 then parts[0]
    else parts[0] + sep + Join(parts[1..], sep)
  }

  /** Joining three parts puts the separator between each pair of neighbours. */
  lemma JoinThree(a: string, b: string, c: string, sep: string)
    ensures Join([a, b, c], sep) == a + sep + b + sep + c
  {
    assert [a, b, c][1..] == [b, c];
    assert [b, c][1..] == [c];
    assert Join([b, c], sep) == b + sep + c;
  }

  /** An occurrence in `b` is still an occurrence once `a` is put in front. */
  lemma OccursAfterPrefix(needle: string, a: string, b: string, i: nat)
    requires OccursAt(needle, b, i)
    ensures OccursAt(needle, a + b, |a| + i)
  {
    assert (a + b)[|a| + i..|a| + i + |needle|] == b[i..i + |needle|];
  }

  /** An occurrence in `a` is still an occurrence once `b` is put behind. */
  lemma OccursBeforeSuffix(needle: string, a: string, b: string, i: nat)
    requires OccursAt(needle, a, i)
    ensures OccursAt(needle, a + b, i)
  {
    assert (a + b)[i..i + |needle|] == a[i..i + |needle|];
  }

  /** Every string is found at the front of anything that starts with it. */
  lemma OccursAtFront(needle: string, rest: string)
    ensures OccursAt(needle, needle + rest, 0)
  {
    assert (needle + rest)[..|needle|] == needle;
  }

  /** Every part of a join occurs in the joined string. */
  lemma {:induction false} JoinContainsEach(parts: seq<string>, sep: string, k: nat)
    requires k < |parts|
    ensures Contains(Join(parts, sep), parts[k])
  {
    if |parts| == 1 {
      OccursAtFront(parts[0], "");
      assert parts[0] + "" == parts[0];
    } else if k == 0 {
      OccursAtFront(parts[0], sep + Join(parts[1..], sep));
      assert parts[0] + sep + Join(parts[1..], sep) == parts[0] + (sep + Join(parts[1..], sep));
    } else {
      JoinContainsEach(parts[1..], sep, k - 1);
      var i: nat :| OccursAt(parts[k], Join(parts[1..], sep), i);
      OccursAfterPrefix(parts[k], parts[0] + sep, Join(parts[1..], sep), i);
    }
  }

  /** Whatever occurs in the middle of a concatenation occurs in the whole. */
  lemma ContainsMiddle(a: string, b: string, c: string, needle: string)
    requires Contains(b, needle)
    ensures Contains(a + b + c, needle)
  {
    var i: nat :| OccursAt(needle, b, i);
    OccursBeforeSuffix(needle, b, c, i);
    OccursAfterPrefix(needle, a, b + c, i);
    assert a + b + c == a + (b + c);
  }
}
