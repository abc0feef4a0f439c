/**
 The category chips of a shop page (`Components/CardDetailsScreen/CategorySelector/index.jsx`).
 Pressing a chip passes the category's id to the state updater, which deselects an id that is
 already selected or appends one that is not; a chip is highlighted when its id is selected.
 */
module CategorySelector {

  /** No id occurs twice. */
  predicate Distinct(sel: seq<int>) {
    forall i, j :: 0 <= i < j < |sel| ==> sel[i] != sel[j]
  }

  /** `selectedCategories.includes(item.id)`: the chip is highlighted. */
  predicate Highlighted(sel: seq<int>, id: int) {
    id in sel
  }

  /** The updater as written. The deselect branch keeps the elements with
      `item?.id !== category?.id`; the elements and the argument are numbers, so both sides are
      `undefined`, the test is false for every element, and nothing is kept. */
  function ToggleAsWritten(prev: seq<int>, id: int): seq<int> {
    if id in prev then [] else prev + [id]
  }

  /** `filter((item) => item !== id)`. */
  function Remove(s: seq<int>, id: int): (r: seq<int>)
    ensures forall x :: x in r <==> x in s && x != id
  {
    if |s| == 0 then [] else if s[0] == id then Remove(s[1..], id) else [s[0]] + Remove(s[1..], id)
  }

  /** The filter distributes over concatenation, so the kept ids stay in their order. */
  lemma {:induction false} RemoveConcat(a: seq<int>, b: seq<int>, id: int)
    ensures Remove(a + b, id) == Remove(a, id) + Remove(b, id)
  {
    if |a| == 0 {
      assert a + b == b;
    } else {
      assert (a + b)[1..] == a[1..] + b;
      RemoveConcat(a[1..], b, id);
    }
  }

  /** One id: the pressed id is dropped, any other kept. */
  lemma RemoveSingle(x: int, id: int)
    ensures Remove([x], id) == (if x == id then [] else [x])
  {
    assert [x][1..] == [];
  }

  /** The evidently intended updater: deselect removes just that id. */
  function Toggle(prev: seq<int>, id: int): seq<int> {
    if id in prev then Remove(prev, id) else prev + [id]
  }

  /** Selecting an absent id appends it and keeps the earlier selection in order, in both
      versions of the updater. */
  lemma SelectAppends(prev: seq<int>, id: int)
    requires id !in prev
    ensures Toggle(prev, id) == prev + [id] && ToggleAsWritten(prev, id) == prev + [id]
    ensures Highlighted(Toggle(prev, id), id)
  {
  }

  lemma {:induction false} RemoveKeepsDistinct(s: seq<int>, id: int)
    requires Distinct(s)
    ensures Distinct(Remove(s, id))
  {
    if |s| > 0 {
      assert Distinct(s[1..]) by {
        forall i, j | 0 <= i < j < |s[1..]| ensures s[1..][i] != s[1..][j] {
          assert s[1..][i] == s[i + 1] && s[1..][j] == s[j + 1];
        }
      }
      RemoveKeepsDistinct(s[1..], id);
      if s[0] != id {
        var t := Remove(s[1..], id);
        assert s[0] !in s[1..] by {
          forall j | 0 <= j < |s[1..]| ensures s[1..][j] != s[0] { assert s[1..][j] == s[j + 1]; }
        }
        var r := [s[0]] + t;
        forall i, j | 0 <= i < j < |r| ensures r[i] != r[j] {
          if i == 0 { assert r[j] == t[j - 1] && t[j - 1] in t; } else { assert r[i] == t[i - 1] && r[j] == t[j - 1]; }
        }
      }
    }
  }

  /** A duplicate-free selection stays duplicate-free, whichever updater runs. */
  lemma ToggleKeepsDistinct(prev: seq<int>, id: int)
    requires Distinct(prev)
    ensures Distinct(Toggle(prev, id)) && Distinct(ToggleAsWritten(prev, id))
  {
    if id in prev {
      RemoveKeepsDistinct(prev, id);
    } else {
      var r := prev + [id];
      forall i, j | 0 <= i < j < |r| ensures r[i] != r[j] {
        if j == |prev| { assert r[i] == prev[i]; } else { assert r[i] == prev[i] && r[j] == prev[j]; }
      }
    }
  }

  /** Toggling flips the pressed chip's highlight and leaves every other chip as it was. */
  lemma ToggleFlipsOnlyPressed(prev: seq<int>, id: int, other: int)
    ensures Highlighted(Toggle(prev, id), id) <==> !Highlighted(prev, id)
    ensures other != id ==> (Highlighted(Toggle(prev, id), other) <==> Highlighted(prev, other))
  {
  }

  /** As written, pressing a selected chip clears every highlight, not just its own. */
  lemma AsWrittenDeselectClearsAll(prev: seq<int>, id: int, other: int)
    requires Highlighted(prev, id)
    ensures !Highlighted(ToggleAsWritten(prev, id), other)
  {
  }

  /** As written, deselecting one of two chips clears both. */
  lemma DeselectClearsAll()
    ensures ToggleAsWritten([3, 5], 3) == [] && Toggle([3, 5], 3) == [5]
    ensures Highlighted([3, 5], 5) && !Highlighted(ToggleAsWritten([3, 5], 3), 5)
  {
    assert 3 in [3, 5];
    assert [3, 5][1..] == [5];
    assert Remove([5], 3) == [5] by { assert [5][1..] == []; }
  }
}
