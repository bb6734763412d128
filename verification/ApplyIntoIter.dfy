/** `ApplyIntoIter` of src/blocks/applyintoiter.rs: each sample becomes a finite run of samples, carried over from
    call to call where the output ends. The function may have a state, as a Rust `FnMut` does. */
module ApplyIntoIter {
  import opened Wrappers
  import opened StreamTags

  /** A call of the function: its new state and the items of the iterator it returns. */
  datatype Reply<K, B> = Reply(state: K, items: seq<B>)

  /** A tag of the output, at an absolute position. */
  datatype OutTag<T> = OutTag(index: nat, tag: T)

  /** The function's state after the samples of x. */
  function StateAfter<K, A, B>(f: (K, A) -> Reply<K, B>, k: K, x: seq<A>): K {
    if x == [] then k else f(StateAfter(f, k, x[..|x| - 1]), x[|x| - 1]).state
  }

  /** All items for the samples of x, in order. */
  function Flat<K, A, B>(f: (K, A) -> Reply<K, B>, k: K, x: seq<A>): seq<B> {
    if x == [] then [] else Flat(f, k, x[..|x| - 1]) + f(StateAfter(f, k, x[..|x| - 1]), x[|x| - 1]).items
  }

  /** The tag found for a sample: the first with its index. */
  function TagAt<T>(tags: seq<ItemTag<T>>, i: nat): Option<T> {
    if tags == [] then None else if tags[0].index == i then Some(tags[0].tag) else TagAt(tags[1..], i)
  }

  /** There is none only if no tag has the index. */
  lemma {:induction false} TagAtIsFirst<T>(tags: seq<ItemTag<T>>, i: nat)
    ensures TagAt(tags, i).None? <==> forall k :: 0 <= k < |tags| ==> tags[k].index != i
    ensures TagAt(tags, i).Some? ==>
              exists k :: 0 <= k < |tags| && tags[k] == ItemTag(i, TagAt(tags, i).value)
                          && forall j :: 0 <= j < k ==> tags[j].index != i
  {
    if tags != [] && tags[0].index != i {
      TagAtIsFirst(tags[1..], i);
      var r := TagAt(tags[1..], i);
      if r.Some? {
        var k :| 0 <= k < |tags[1..]| && tags[1..][k] == ItemTag(i, r.value)
                 && forall j :: 0 <= j < k ==> tags[1..][j].index != i;
        assert tags[k + 1] == ItemTag(i, r.value);
        assert forall j :: 0 < j < k + 1 ==> tags[j] == tags[1..][j - 1];
      } else {
        assert forall j :: 0 < j < |tags| ==> tags[j] == tags[1..][j - 1];
      }
    }
  }

  /** A sample's tag goes to where its first item goes. */
  function FlatTags<K, A, B, T>(f: (K, A) -> Reply<K, B>, k: K, x: seq<A>, tags: seq<ItemTag<T>>): seq<OutTag<T>> {
    if x == [] then []
    else
      var before := x[..|x| - 1];
      FlatTags(f, k, before, tags)
      + match TagAt(tags, |before|)
        case None => []
        case Some(t) => [OutTag(|Flat(f, k, before)|, t)]
  }

  lemma FlatSnoc<K, A, B>(f: (K, A) -> Reply<K, B>, k: K, x: seq<A>, a: A)
    ensures StateAfter(f, k, x + [a]) == f(StateAfter(f, k, x), a).state
    ensures Flat(f, k, x + [a]) == Flat(f, k, x) + f(StateAfter(f, k, x), a).items
  {
    assert (x + [a])[..|x|] == x;
  }

  lemma FlatTagsSnoc<K, A, B, T>(f: (K, A) -> Reply<K, B>, k: K, x: seq<A>, a: A, tags: seq<ItemTag<T>>)
    ensures FlatTags(f, k, x + [a], tags)
         == FlatTags(f, k, x, tags)
            + match TagAt(tags, |x|) { case None => [] case Some(t) => [OutTag(|Flat(f, k, x)|, t)] }
  {
    assert (x + [a])[..|x|] == x;
  }

  /** The tag found for a sample is in the output, where the items of the sample begin. */
  lemma {:induction false} TagBeginsItems<K, A, B, T>(f: (K, A) -> Reply<K, B>, k: K, x: seq<A>,
                                                      tags: seq<ItemTag<T>>, n: nat)
    requires n < |x| && TagAt(tags, n).Some?
    ensures OutTag(|Flat(f, k, x[..n])|, TagAt(tags, n).value) in FlatTags(f, k, x, tags)
  {
    var last := |x| - 1;
    if n < last {
      TagBeginsItems(f, k, x[..last], tags, n);
      assert x[..last][..n] == x[..n];
    }
  }

  /** And every tag of the output is one of these. */
  lemma {:induction false} TagOfSample<K, A, B, T>(f: (K, A) -> Reply<K, B>, k: K, x: seq<A>,
                                                   tags: seq<ItemTag<T>>, o: OutTag<T>) returns (n: nat)
    requires o in FlatTags(f, k, x, tags)
    ensures n < |x| && TagAt(tags, n) == Some(o.tag) && o.index == |Flat(f, k, x[..n])|
  {
    var before := x[..|x| - 1];
    n := |before|;
    if o in FlatTags(f, k, before, tags) {
      n := TagOfSample(f, k, before, tags, o);
      assert before[..n] == x[..n];
    }
  }

  lemma {:induction false} FlatConcat<K, A, B>(f: (K, A) -> Reply<K, B>, k: K, x: seq<A>, y: seq<A>)
    ensures StateAfter(f, k, x + y) == StateAfter(f, StateAfter(f, k, x), y)
    ensures Flat(f, k, x + y) == Flat(f, k, x) + Flat(f, StateAfter(f, k, x), y)
  {
    if y == [] {
      assert x + y == x;
    } else {
      var q, a := y[..|y| - 1], y[|y| - 1];
      FlatConcat(f, k, x, q);
      assert x + y == (x + q) + [a];
      FlatSnoc(f, k, x + q, a);
    }
  }

  lemma {:induction false} TagAtRebased<T>(tags: seq<ItemTag<T>>, n: nat, i: nat)
    ensures TagAt(Rebased(tags, n), i) == TagAt(tags, n + i)
  {
    if tags != [] {
      TagAtRebased(tags[1..], n, i);
      if tags[0].index >= n {
        assert Rebased(tags, n)[1..] == Rebased(tags[1..], n);
      } else {
        assert Rebased(tags, n) == Rebased(tags[1..], n);
      }
    }
  }

  lemma {:induction false} TagAtExtends<T>(tags: seq<ItemTag<T>>, more: seq<ItemTag<T>>, i: nat)
    requires forall k :: 0 <= k < |more| ==> more[k].index > i
    ensures TagAt(tags + more, i) == TagAt(tags, i)
  {
    if tags == [] {
      assert tags + more == more;
      NoTagAt(more, i);
    } else {
      assert (tags + more)[1..] == tags[1..] + more;
      TagAtExtends(tags[1..], more, i);
    }
  }

  lemma {:induction false} NoTagAt<T>(tags: seq<ItemTag<T>>, i: nat)
    requires forall k :: 0 <= k < |tags| ==> tags[k].index > i
    ensures TagAt(tags, i) == None
  {
    if tags != [] {
      NoTagAt(tags[1..], i);
    }
  }

  lemma {:induction false} FlatTagsExtend<K, A, B, T>(f: (K, A) -> Reply<K, B>, k: K, x: seq<A>, tags: seq<ItemTag<T>>,
                                                      more: seq<ItemTag<T>>)
    requires forall j :: 0 <= j < |more| ==> more[j].index >= |x|
    ensures FlatTags(f, k, x, tags + more) == FlatTags(f, k, x, tags)
  {
    if x != [] {
      FlatTagsExtend(f, k, x[..|x| - 1], tags, more);
      TagAtExtends(tags, more, |x| - 1);
    }
  }

  // ---- the block

  /** Everything about the samples read: the output and the rest of the current iterator are their items, the tags
      theirs. */
  predicate Told<K(==), A(==), B(==), T(==)>(f: (K, A) -> Reply<K, B>, k0: K, x: seq<A>, tags: seq<ItemTag<T>>,
                                             taken: nat, state: K, out: seq<B>, current: seq<B>,
                                             outTags: seq<OutTag<T>>)
  {
    && taken <= |x| && state == StateAfter(f, k0, x[..taken]) && out + current == Flat(f, k0, x[..taken])
    && outTags == FlatTags(f, k0, x[..taken], tags)
  }

  lemma TakeKeeps<K, A, B, T>(f: (K, A) -> Reply<K, B>, k0: K, x: seq<A>, tags: seq<ItemTag<T>>, taken: nat,
                              state: K, out: seq<B>, outTags: seq<OutTag<T>>, outTags': seq<OutTag<T>>)
    requires Told(f, k0, x, tags, taken, state, out, [], outTags) && taken < |x|
    requires outTags' == outTags + match TagAt(tags, taken) { case None => [] case Some(t) => [OutTag(|out|, t)] }
    ensures Told(f, k0, x, tags, taken + 1, f(state, x[taken]).state, out, f(state, x[taken]).items, outTags')
  {
    assert out + [] == out && x[..taken + 1] == x[..taken] + [x[taken]];
    FlatSnoc(f, k0, x[..taken], x[taken]);
    FlatTagsSnoc(f, k0, x[..taken], x[taken], tags);
  }

  lemma EmitKeeps<K, A, B, T>(f: (K, A) -> Reply<K, B>, k0: K, x: seq<A>, tags: seq<ItemTag<T>>, taken: nat,
                              state: K, out: seq<B>, current: seq<B>, outTags: seq<OutTag<T>>)
    requires Told(f, k0, x, tags, taken, state, out, current, outTags) && current != []
    ensures Told(f, k0, x, tags, taken, state, out + [current[0]], current[1..], outTags)
  {
    assert (out + [current[0]]) + current[1..] == out + current;
  }

  lemma FeedKeeps<K, A, B, T>(f: (K, A) -> Reply<K, B>, k0: K, x: seq<A>, more: seq<A>, tags: seq<ItemTag<T>>,
                              moreTags: seq<ItemTag<T>>, taken: nat, state: K, out: seq<B>, current: seq<B>,
                              outTags: seq<OutTag<T>>)
    requires Told(f, k0, x, tags, taken, state, out, current, outTags) && Sorted(moreTags) && InRange(moreTags, |more|)
    ensures var placed := Placed(moreTags, |x|);
            && Told(f, k0, x + more, tags + placed, taken, state, out, current, outTags)
            && (x + more)[taken..] == x[taken..] + more
            && Rebased(tags + placed, taken) == Rebased(tags, taken) + Placed(moreTags, |x| - taken)
  {
    TagsExtend(f, k0, x[..taken], |x|, |more|, tags, moreTags);
    PlacedBehind(tags, moreTags, |x|, taken);
    SplitsAt(x, more, taken);
    ToldAgain(f, k0, x, x + more, tags, tags + Placed(moreTags, |x|), taken, state, out, current, outTags);
  }

  lemma SplitsAt<A>(x: seq<A>, more: seq<A>, taken: nat)
    requires taken <= |x|
    ensures (x + more)[..taken] == x[..taken] && (x + more)[taken..] == x[taken..] + more
  {
  }

  lemma ToldAgain<K, A, B, T>(f: (K, A) -> Reply<K, B>, k0: K, x: seq<A>, x': seq<A>, tags: seq<ItemTag<T>>,
                              tags': seq<ItemTag<T>>, taken: nat, state: K, out: seq<B>, current: seq<B>,
                              outTags: seq<OutTag<T>>)
    requires Told(f, k0, x, tags, taken, state, out, current, outTags)
    requires taken <= |x'| && x'[..taken] == x[..taken]
    requires FlatTags(f, k0, x[..taken], tags') == FlatTags(f, k0, x[..taken], tags)
    ensures Told(f, k0, x', tags', taken, state, out, current, outTags)
  {
  }

  lemma TagsExtend<K, A, B, T>(f: (K, A) -> Reply<K, B>, k0: K, taken: seq<A>, len: nat, more: nat,
                               tags: seq<ItemTag<T>>,
                               moreTags: seq<ItemTag<T>>)
    requires |taken| <= len && Sorted(moreTags) && InRange(moreTags, more)
    ensures FlatTags(f, k0, taken, tags + Placed(moreTags, len)) == FlatTags(f, k0, taken, tags)
  {
    PlacedFits(moreTags, len, more);
    FlatTagsExtend(f, k0, taken, tags, Placed(moreTags, len));
  }

  lemma PlacedBehind<T>(tags: seq<ItemTag<T>>, moreTags: seq<ItemTag<T>>, len: nat, taken: nat)
    requires taken <= len
    ensures Rebased(tags + Placed(moreTags, len), taken) == Rebased(tags, taken) + Placed(moreTags, len - taken)
  {
    RebasedConcat(tags, Placed(moreTags, len), taken);
    RebasedPlaced(moreTags, len, taken);
  }

  lemma RestOf<A>(x: seq<A>, m: nat, n: nat)
    requires m + n <= |x|
    ensures x[m..][n..] == x[m + n..]
  {
  }

  class ApplyIntoIter<K, A, B, T> {
    const f: (K, A) -> Reply<K, B>
    var state: K
    var currentIt: seq<B>
    var input: seq<A>
    var tags: seq<ItemTag<T>>
    var output: seq<B>
    var outTags: seq<OutTag<T>>
    var inputFinished: bool
    var finished: bool
    ghost const start: K
    ghost var fed: seq<A>
    ghost var fedTags: seq<ItemTag<T>>
    ghost var taken: nat

    ghost predicate Valid()
      reads this
    {
      && Told(f, start, fed, fedTags, taken, state, output, currentIt, outTags)
      && input == fed[taken..] && tags == Rebased(fedTags, taken)
      && (finished ==> inputFinished && input == [] && currentIt == [])
    }

    constructor (f: (K, A) -> Reply<K, B>, state: K)
      ensures Valid() && this.f == f && start == state && fed == [] && fedTags == [] && output == [] && !inputFinished
              && !finished
    {
      this.f, this.state, start := f, state, state;
      currentIt, input, tags, output, outTags, inputFinished, finished := [], [], [], [], [], false, false;
      fed, fedTags, taken := [], [], 0;
    }

    /** The output so far is a prefix of the flattened stream, and all of it when the block has finished. */
    lemma OutputIsFlat()
      requires Valid()
      ensures output <= Flat(f, start, fed) && (finished ==> output == Flat(f, start, fed))
      ensures finished ==> outTags == FlatTags(f, start, fed, fedTags)
    {
      assert fed == fed[..taken] + fed[taken..];
      FlatConcat(f, start, fed[..taken], fed[taken..]);
      if finished {
        assert fed[taken..] == [] && output + [] == output && fed[..taken] == fed;
      }
    }

    method Feed(more: seq<A>, moreTags: seq<ItemTag<T>>)
      requires Valid() && !inputFinished && Sorted(moreTags) && InRange(moreTags, |more|)
      modifies this`input, this`tags, this`fed, this`fedTags
      ensures Valid() && fed == old(fed) + more && fedTags == old(fedTags) + Placed(moreTags, |old(fed)|)
    {
      FeedKeeps(f, start, fed, more, fedTags, moreTags, taken, state, output, currentIt, outTags);
      ghost var placed := Placed(moreTags, |fed|);
      tags := tags + Placed(moreTags, |input|);
      input := input + more;
      fed := fed + more;
      fedTags := fedTags + placed;
    }

    method Close()
      requires Valid()
      modifies this`inputFinished
      ensures Valid() && inputFinished
    {
      inputFinished := true;
    }

    /** `work` on a call whose output slice has `room`. It finishes exactly when the input has ended and what it still
        gives leaves room over. */
    method Work(o: array<B>)
      requires Valid() && !finished
      modifies this`state, this`currentIt, this`input, this`tags, this`output, this`outTags, this`finished, this`taken,
        o
      ensures Valid() && old(output) <= output && |output| <= |old(output)| + o.Length
      ensures |output| < |old(output)| + o.Length ==> input == [] && currentIt == []
      ensures finished <==> inputFinished && input == [] && |output| < |old(output)| + o.Length
    {
      var iLen := |input|;
      var consumed, produced := Loop(o);
      Release(o, consumed, produced);
      if inputFinished && consumed == iLen && produced < o.Length {
        finished := true;
      }
    }

    /** Consume and produce. */
    method Release(o: array<B>, consumed: nat, produced: nat)
      requires produced <= o.Length && consumed <= |input| && consumed <= taken <= |fed|
      requires input == fed[taken - consumed..] && tags == Rebased(fedTags, taken - consumed)
      modifies this`input, this`tags, this`output
      ensures output == old(output) + o[..produced] && input == old(input)[consumed..] == fed[taken..]
      ensures tags == Rebased(fedTags, taken)
    {
      RestOf(fed, taken - consumed, consumed);
      RebasedTwice(fedTags, taken - consumed, consumed);
      input := input[consumed..];
      tags := Rebased(tags, consumed);
      output := output + o[..produced];
    }

    /** The loop of `work`. */
    method Loop(o: array<B>) returns (consumed: nat, produced: nat)
      requires Valid()
      modifies this`state, this`currentIt, this`outTags, this`taken, o
      ensures produced <= o.Length && consumed <= |input| && taken == old(taken) + consumed
      ensures Told(f, start, fed, fedTags, taken, state, output + o[..produced], currentIt, outTags)
      ensures produced < o.Length ==> consumed == |input| && currentIt == []
    {
      consumed, produced := 0, 0;
      ghost var first := taken;
      var go := true;
      assert output + o[..0] == output;
      while go && produced < o.Length
        invariant produced <= o.Length && consumed <= |input| && taken == first + consumed
        invariant Told(f, start, fed, fedTags, taken, state, output + o[..produced], currentIt, outTags)
        invariant !go ==> consumed == |input| && currentIt == []
        decreases (|input| - consumed) + (o.Length - produced), go
      {
        if currentIt != [] {
          EmitKeeps(f, start, fed, fedTags, taken, state, output + o[..produced], currentIt, outTags);
          o[produced] := currentIt[0];
          assert output + o[..produced + 1] == (output + o[..produced]) + [currentIt[0]];
          currentIt := currentIt[1..];
          produced := produced + 1;
        } else if consumed < |input| {
          Take(o, consumed, produced, first);
          consumed := consumed + 1;
        } else {
          go := false;
        }
      }
    }

    /** The next sample's iterator takes over, and its tag is put at the place of its first item. */
    method Take(o: array<B>, consumed: nat, produced: nat, ghost first: nat)
      requires produced <= o.Length && consumed < |input| && taken == first + consumed
      requires Told(f, start, fed, fedTags, taken, state, output + o[..produced], currentIt, outTags) && currentIt == []
      requires input == fed[first..] && tags == Rebased(fedTags, first)
      modifies this`state, this`currentIt, this`outTags, this`taken
      ensures taken == old(taken) + 1
      ensures Told(f, start, fed, fedTags, taken, state, output + o[..produced], currentIt, outTags)
    {
      TagAtRebased(fedTags, first, consumed);
      ghost var before := outTags;
      var t := TagAt(tags, consumed);
      if t.Some? {
        outTags := outTags + [OutTag(|output| + produced, t.value)];
      }
      TakeKeeps(f, start, fed, fedTags, taken, state, output + o[..produced], before, outTags);
      var r := f(state, input[consumed]);
      state, currentIt := r.state, r.items;
      taken := taken + 1;
    }
  }
}
