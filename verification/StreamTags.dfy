/** Tags on the items of a stream buffer, with the bookkeeping of src/runtime/mocker.rs. */
module StreamTags {

  datatype ItemTag<T> = ItemTag(index: nat, tag: T)

  predicate Sorted<T>(tags: seq<ItemTag<T>>) {
    forall i, j :: 0 <= i < j < |tags| ==> tags[i].index <= tags[j].index
  }

  predicate InRange<T>(tags: seq<ItemTag<T>>, len: nat) {
    forall k :: 0 <= k < |tags| ==> tags[k].index < len
  }

  /** Tags as the reader shows them after n items were consumed. */
  function Rebased<T>(tags: seq<ItemTag<T>>, n: nat): seq<ItemTag<T>> {
    if tags == [] then []
    else (if tags[0].index >= n then [tags[0].(index := tags[0].index - n)] else []) + Rebased(tags[1..], n)
  }

  lemma RebasedCons<T>(t: ItemTag<T>, rest: seq<ItemTag<T>>, n: nat)
    ensures Rebased([t] + rest, n) == (if t.index >= n then [t.(index := t.index - n)] else []) + Rebased(rest, n)
  {
    assert ([t] + rest)[1..] == rest;
  }

  lemma {:induction false} RebasedTwice<T>(tags: seq<ItemTag<T>>, m: nat, n: nat)
    ensures Rebased(Rebased(tags, m), n) == Rebased(tags, m + n)
  {
    if tags != [] {
      RebasedTwice(tags[1..], m, n);
      var t, rest := tags[0], Rebased(tags[1..], m);
      if t.index >= m {
        assert Rebased(tags, m) == [t.(index := t.index - m)] + rest;
        RebasedCons(t.(index := t.index - m), rest, n);
      } else {
        assert Rebased(tags, m) == rest;
        assert Rebased(tags, m + n) == Rebased(tags[1..], m + n);
      }
    }
  }

  lemma {:induction false} RebasedConcat<T>(a: seq<ItemTag<T>>, b: seq<ItemTag<T>>, n: nat)
    ensures Rebased(a + b, n) == Rebased(a, n) + Rebased(b, n)
  {
    if a == [] {
      assert a + b == b;
    } else {
      assert (a + b)[1..] == a[1..] + b;
      RebasedConcat(a[1..], b, n);
    }
  }

  lemma SortedConcat<T>(a: seq<ItemTag<T>>, b: seq<ItemTag<T>>, m: nat, n: nat)
    requires Sorted(a) && Sorted(b) && InRange(a, m) && InRange(b, n) && m <= n
    requires forall k :: 0 <= k < |b| ==> b[k].index >= m
    ensures Sorted(a + b) && InRange(a + b, n)
  {
  }

  /** Tags of a chunk at its place in the stream. */
  function Placed<T>(tags: seq<ItemTag<T>>, offset: nat): seq<ItemTag<T>> {
    if tags == [] then [] else [tags[0].(index := tags[0].index + offset)] + Placed(tags[1..], offset)
  }

  lemma {:induction false} PlacedFits<T>(tags: seq<ItemTag<T>>, offset: nat, len: nat)
    requires Sorted(tags) && InRange(tags, len)
    ensures var r := Placed(tags, offset);
            && |r| == |tags| && (forall k :: 0 <= k < |r| ==> r[k].index == tags[k].index + offset)
            && Sorted(r) && InRange(r, offset + len) && (forall k :: 0 <= k < |r| ==> r[k].index >= offset)
  {
    if tags != [] {
      PlacedFits(tags[1..], offset, len);
    }
  }

  lemma {:induction false} RebasedPlaced<T>(tags: seq<ItemTag<T>>, offset: nat, n: nat)
    requires n <= offset
    ensures Rebased(Placed(tags, offset), n) == Placed(tags, offset - n)
  {
    if tags != [] {
      RebasedPlaced(tags[1..], offset, n);
      assert Placed(tags, offset)[1..] == Placed(tags[1..], offset);
    }
  }

  /** `Reader` of src/runtime/mocker.rs: unread items and the tags on them. */
  class Reader<D, T> {
    var data: seq<D>
    var tags: seq<ItemTag<T>>

    constructor (data: seq<D>, tags: seq<ItemTag<T>>)
      ensures this.data == data && this.tags == tags
    {
      this.data, this.tags := data, tags;
    }

    /** Drops n items; tags on them go too, the others move with their items. */
    method Consume(n: nat)
      requires n <= |data|
      modifies this
      ensures data == old(data)[n..] && tags == Rebased(old(tags), n)
    {
      data := data[n..];
      var kept := Retain(tags, n);
      tags := Shift(kept, n);
      RetainShift(old(tags), n, kept, tags);
    }
  }

  function Retained<T>(tags: seq<ItemTag<T>>, n: nat): seq<ItemTag<T>> {
    if tags == [] then []
    else
      var t := tags[|tags| - 1];
      Retained(tags[..|tags| - 1], n) + if t.index >= n then [t] else []
  }

  /** `tags.retain(|x| x.index >= n)` */
  method Retain<T>(tags: seq<ItemTag<T>>, n: nat) returns (kept: seq<ItemTag<T>>)
    ensures kept == Retained(tags, n) && forall k :: 0 <= k < |kept| ==> kept[k].index >= n
  {
    kept := [];
    for k := 0 to |tags|
      invariant kept == Retained(tags[..k], n) && forall j :: 0 <= j < |kept| ==> kept[j].index >= n
    {
      assert tags[..k + 1][..k] == tags[..k];
      if tags[k].index >= n {
        kept := kept + [tags[k]];
      }
    }
    assert tags[..|tags|] == tags;
  }

  /** `for t in tags { t.index -= n }` */
  method Shift<T>(tags: seq<ItemTag<T>>, n: nat) returns (moved: seq<ItemTag<T>>)
    requires forall k :: 0 <= k < |tags| ==> tags[k].index >= n
    ensures |moved| == |tags| && forall k :: 0 <= k < |tags| ==> moved[k] == tags[k].(index := tags[k].index - n)
  {
    moved := tags;
    for k := 0 to |tags|
      invariant |moved| == |tags|
      invariant forall j :: 0 <= j < |tags| ==>
                moved[j] == if j < k then tags[j].(index := tags[j].index - n) else tags[j]
    {
      moved := moved[k := moved[k].(index := moved[k].index - n)];
    }
  }

  lemma {:induction false} RetainShift<T>(tags: seq<ItemTag<T>>, n: nat, kept: seq<ItemTag<T>>, moved: seq<ItemTag<T>>)
    requires kept == Retained(tags, n) && |moved| == |kept| && forall k :: 0 <= k < |kept| ==> kept[k].index >= n
    requires forall k :: 0 <= k < |kept| ==> moved[k] == kept[k].(index := kept[k].index - n)
    ensures moved == Rebased(tags, n)
  {
    if tags != [] {
      var q, t := tags[..|tags| - 1], tags[|tags| - 1];
      assert tags == q + [t];
      RebasedSnoc(q, t, n);
      if t.index >= n {
        var last := |kept| - 1;
        RetainShift(q, n, kept[..last], moved[..last]);
        assert moved == moved[..last] + [moved[last]];
      } else {
        RetainShift(q, n, kept, moved);
      }
    }
  }

  lemma RebasedSnoc<T>(q: seq<ItemTag<T>>, t: ItemTag<T>, n: nat)
    ensures Rebased(q + [t], n) == Rebased(q, n) + if t.index >= n then [t.(index := t.index - n)] else []
  {
    RebasedConcat(q, [t], n);
    assert [t][1..] == [];
  }
}
