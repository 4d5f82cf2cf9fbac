/** The amenity checkbox toggle shared by the property form and the search
    panel: `list.includes(a) ? list.filter(x => x !== a) : [...list, a]`. */
module Amenities {

  /** `list.filter(x => x !== a)`: every occurrence of `a` removed, every
      other element kept as often as it occurred. */
  function Without(list: seq<string>, a: string): (r: seq<string>)
    ensures multiset(r) == multiset(list)[a := 0]
    ensures a !in r
    ensures forall x :: x != a ==> (x in r <==> x in list)
    ensures a !in list ==> r == list
  {
    if list == [] then []
    else
      assert list == [list[0]] + list[1..];
      if list[0] == a then Without(list[1..], a)
      else [list[0]] + Without(list[1..], a)
  }

  /** The checkbox toggle. */
  function Toggle(list: seq<string>, a: string): (r: seq<string>)
    ensures a in r <==> a !in list
    ensures forall x :: x != a ==> (x in r <==> x in list)
    ensures a !in list ==> r == list + [a]
  {
    if a in list then Without(list, a) else list + [a]
  }

  /** Toggling the same amenity twice restores which amenities are selected;
      when it was not selected to begin with, the list itself comes back. */
  lemma {:induction false} ToggleTwice(list: seq<string>, a: string)
    ensures forall x :: x in Toggle(Toggle(list, a), a) <==> x in list
    ensures a !in list ==> Toggle(Toggle(list, a), a) == list
  {
    if a !in list {
      WithoutAppended(list, a);
    }
  }

  lemma {:induction false} WithoutAppended(list: seq<string>, a: string)
    requires a !in list
    ensures Without(list + [a], a) == list
  {
    if list == [] {
      assert [] + [a] == [a];
      assert Without([a], a) == Without([a][1..], a);
    } else {
      assert (list + [a])[1..] == list[1..] + [a];
      WithoutAppended(list[1..], a);
      assert list == [list[0]] + list[1..];
    }
  }

  /** No amenity appears twice. */
  predicate Distinct(list: seq<string>) {
    forall i, j :: 0 <= i < j < |list| ==> list[i] != list[j]
  }

  lemma {:induction false} WithoutDistinct(list: seq<string>, a: string)
    requires Distinct(list)
    ensures Distinct(Without(list, a))
  {
    if list != [] {
      var tail := list[1..];
      assert Distinct(tail) by {
        forall i, j | 0 <= i < j < |tail| ensures tail[i] != tail[j] {
          assert tail[i] == list[i + 1] && tail[j] == list[j + 1];
        }
      }
      WithoutDistinct(tail, a);
      if list[0] != a {
        assert list[0] !in tail by {
          forall k | 0 <= k < |tail| ensures tail[k] != list[0] {
            assert tail[k] == list[k + 1];
          }
        }
        ConsDistinct(list[0], Without(tail, a));
      }
    }
  }

  lemma ConsDistinct(x: string, r: seq<string>)
    requires Distinct(r) && x !in r
    ensures Distinct([x] + r)
  {
    var s := [x] + r;
    forall i, j | 0 <= i < j < |s| ensures s[i] != s[j] {
      if i == 0 {
        assert s[j] == r[j - 1] && s[j] in r;
      } else {
        assert s[i] == r[i - 1] && s[j] == r[j - 1];
      }
    }
  }

  /** Toggling keeps a list of distinct amenities distinct. */
  lemma ToggleDistinct(list: seq<string>, a: string)
    requires Distinct(list)
    ensures Distinct(Toggle(list, a))
  {
    if a in list {
      WithoutDistinct(list, a);
    } else {
      var r := list + [a];
      forall i, j | 0 <= i < j < |r| ensures r[i] != r[j] {
        if j == |list| {
          assert r[i] == list[i] && r[i] in list;
        } else {
          assert r[i] == list[i] && r[j] == list[j];
        }
      }
    }
  }
}
