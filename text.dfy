/** Sequence and string helpers shared by the analyzer and the report builders. */
module Text {

  /** No element of `s` occurs twice. */
  predicate NoDuplicates<T(==)>(s: seq<T>) {
    forall i, j :: 0 <= i < j < |s| ==> s[i] != s[j]
  }

  /** The set of the elements of `s`, as `HashSet.addAll` collects them. */
  function Elements(s: seq<string>): (r: set<string>)
    ensures forall x :: x in r <==> x in s
    ensures |r| <= |s|
    ensures NoDuplicates(s) ==> |r| == |s|
  {
    if s == [] then {}
    else
      assert s == [s[0]] + s[1..];
      assert NoDuplicates(s) ==> NoDuplicates(s[1..]) && s[0] !in s[1..];
      {s[0]} + Elements(s[1..])
  }

  /** `new ArrayList<>(set)`: the elements of a set, once each, in an order the set chooses. */
  method ListOfSet<T(==)>(s: set<T>) returns (r: seq<T>)
    ensures NoDuplicates(r)
    ensures forall x :: x in r <==> x in s
    ensures |r| == |s|
  {
    r := [];
    var rest := s;
    while rest != {}
      invariant rest <= s
      invariant forall x :: x in r <==> x in s && x !in rest
      invariant NoDuplicates(r)
      invariant |r| + |rest| == |s|
      decreases |rest|
    {
      var x :| x in rest;
      r := r + [x];
      rest := rest - {x};
    }
  }

  /** The number of occurrences of `x` in `s`. */
  function Count<T(==)>(s: seq<T>, x: T): (n: nat)
    ensures n <= |s|
    ensures n == 0 <==> x !in s
  {
    if s == [] then 0
    else
      assert s == [s[0]] + s[1..];
      (if s[0] == x then 1 else 0) + Count(s[1..], x)
  }

  /** `String.contains`: `sub` occurs somewhere in `s` as a contiguous piece. */
  predicate Contains(s: string, sub: string): (r: bool)
    ensures r ==> |sub| <= |s|
    ensures sub == [] ==> r
    decreases |s|
  {
    |sub| <= |s| && (s[..|sub|] == sub || Contains(s[1..], sub))
  }

  /** `sub` starts at position `i` of `s`. */
  predicate OccursAt(s: string, sub: string, i: int) {
    0 <= i && i + |sub| <= |s| && s[i..i + |sub|] == sub
  }

  /** `Contains` finds exactly the pieces that start at some position of the string. */
  lemma {:induction false} ContainsIffOccurs(s: string, sub: string)
    ensures Contains(s, sub) <==> exists i :: OccursAt(s, sub, i)
    decreases |s|
  {
    if |sub| <= |s| {
      if s[..|sub|] == sub {
        assert OccursAt(s, sub, 0);
      } else {
        ContainsIffOccurs(s[1..], sub);
        if exists i :: OccursAt(s[1..], sub, i) {
          var i :| OccursAt(s[1..], sub, i);
          assert s[i + 1..i + 1 + |sub|] == s[1..][i..i + |sub|];
          assert OccursAt(s, sub, i + 1);
        }
        if exists i :: OccursAt(s, sub, i) {
          var i :| OccursAt(s, sub, i);
          assert i != 0;
          assert s[1..][i - 1..i - 1 + |sub|] == s[i..i + |sub|];
          assert OccursAt(s[1..], sub, i - 1);
        }
      }
    }
  }

  /** The strings `items` with `sep` between each two consecutive ones, built left to right
      as a `StringBuilder` loop that appends a separator after every item but the last does. */
  function Join(items: seq<string>, sep: string): string
    decreases |items|
  {
    if |items| == 0 then ""
    else if |items| == 1 then items[0]
    else Join(items[..|items| - 1], sep) + sep + items[|items| - 1]
  }

  /** The sum of the lengths of `items`. */
  function TotalLength(items: seq<string>): nat
    decreases |items|
  {
    if items == [] then 0 else TotalLength(items[..|items| - 1]) + |items[|items| - 1]|
  }

  /** Joining `n` items inserts exactly `n - 1` separators and nothing else. */
  lemma {:induction false} JoinLength(items: seq<string>, sep: string)
    requires |items| > 0
    ensures |Join(items, sep)| == TotalLength(items) + (|items| - 1) * |sep|
    decreases |items|
  {
    if |items| > 1 {
      var init := items[..|items| - 1];
      JoinLength(init, sep);
      assert init[..|init| - 1] == items[..|items| - 2];
      assert |Join(items, sep)| == |Join(init, sep)| + |sep| + |items[|items| - 1]|;
      assert (|items| - 1) * |sep| == (|init| - 1) * |sep| + |sep|;
    } else {
      assert items[..0] == [];
    }
  }

  /** Read from the front, a join is the first item, then a separator and the join of
      the rest: the first item is emitted alone and every later one after one separator. */
  lemma {:induction false} JoinFront(x: string, rest: seq<string>, sep: string)
    ensures Join([x] + rest, sep) == if rest == [] then x else x + sep + Join(rest, sep)
    decreases |rest|
  {
    var all := [x] + rest;
    if |rest| == 1 {
      assert all[..1] == [x];
    } else if |rest| > 1 {
      var init := rest[..|rest| - 1];
      assert all[..|all| - 1] == [x] + init;
      JoinFront(x, init, sep);
    }
  }

  /** The text a separator-after-all-but-the-last loop has built after `i` of `items`. */
  function JoinedSoFar(items: seq<string>, i: nat, sep: string): string
    requires i <= |items|
  {
    Join(items[..i], sep) + (if 0 < i < |items| then sep else "")
  }

  /** One turn of that loop: append item `i`, then a separator unless it is the last. */
  lemma JoinedSoFarStep(prefix: string, items: seq<string>, i: nat, sep: string)
    requires i < |items|
    ensures prefix + JoinedSoFar(items, i, sep) + items[i] + (if i < |items| - 1 then sep else "")
            == prefix + JoinedSoFar(items, i + 1, sep)
  {
    assert items[..i + 1][..i] == items[..i];
    if i == 0 {
      assert items[..1] == [items[0]];
    }
  }

  /** When the loop is done it has built the whole join. */
  lemma JoinedSoFarDone(items: seq<string>, sep: string)
    ensures JoinedSoFar(items, |items|, sep) == Join(items, sep)
  {
    assert items[..|items|] == items;
  }
}
