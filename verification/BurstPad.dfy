/** `BurstPad` of src/blocks/burst_pad.rs: head and tail padding of tagged bursts, in work calls that may stop
    anywhere. */
module BurstPad {
  import opened Wrappers
  import opened StreamTags

  datatype Tag = NamedUsize(name: string, value: nat) | Other

  /** A burst_start tag of the output, at an absolute position. */
  datatype OutTag = OutTag(index: nat, length: nat)

  datatype State =
    | Copy(left: nat, tagPending: bool)
    | PadHead(padLeft: nat, originalLen: nat, headTagPending: bool)
    | PadTail(tailLeft: nat)
    | HaveUntaggedSamples(count: nat)
    | ClaimPending

  datatype Params<T> = Params(head: nat, tail: nat, value: T)
  {
    function PropagateMaxBurstSize(maxInput: nat): nat {
      head + maxInput + tail
    }
  }

  function Pads<T>(v: T, n: nat): (s: seq<T>)
    ensures |s| == n
  {
    seq(n, _ => v)
  }

  lemma PadsAdd<T>(v: T, m: nat, n: nat)
    ensures Pads(v, m + n) == Pads(v, m) + Pads(v, n)
  {
  }

  // ---- tags

  predicate IsBurst(t: ItemTag<Tag>) {
    t.tag.NamedUsize? && t.tag.name == "burst_start"
  }

  /** The search of the block: the first burst_start in the list that is not behind `from`. */
  function Claim(tags: seq<ItemTag<Tag>>, from: nat): (r: Option<ItemTag<Tag>>)
    ensures r.Some? ==> r.value in tags && IsBurst(r.value) && r.value.index >= from
    ensures r.None? ==> forall k :: 0 <= k < |tags| ==> !(IsBurst(tags[k]) && tags[k].index >= from)
  {
    if tags == [] then None
    else if IsBurst(tags[0]) && tags[0].index >= from then Some(tags[0])
    else Claim(tags[1..], from)
  }

  /** It is the first tag that carries the name "burst_start" and a length, at place k; there is none only if no tag
      from that position on does. */
  lemma {:induction false} ClaimByName(tags: seq<ItemTag<Tag>>, from: nat) returns (k: nat)
    ensures k <= |tags| && Claim(tags, from) == if k == |tags| then None else Some(tags[k])
    ensures forall j :: 0 <= j < k ==>
              !(tags[j].tag.NamedUsize? && tags[j].tag.name == "burst_start" && tags[j].index >= from)
    ensures k < |tags| ==>
              tags[k].tag.NamedUsize? && tags[k].tag.name == "burst_start" && tags[k].index >= from
  {
    k := 0;
    if tags != [] && !(IsBurst(tags[0]) && tags[0].index >= from) {
      var rest := tags[1..];
      k := ClaimByName(rest, from);
      assert forall j :: 0 < j < |tags| ==> tags[j] == rest[j - 1];
      k := k + 1;
    }
  }

  /** The length of the burst that starts at p. */
  function BurstAt(tags: seq<ItemTag<Tag>>, p: nat): Option<nat> {
    var c := Claim(tags, p);
    if c.Some? && c.value.index == p then Some(c.value.tag.value) else None
  }

  /** Searching the rebased tags is searching all tags. */
  lemma {:induction false} ClaimRebased(tags: seq<ItemTag<Tag>>, n: nat, from: nat)
    ensures var r, a := Claim(Rebased(tags, n), from), Claim(tags, n + from);
            (r.None? <==> a.None?) && (r.Some? ==> r.value.index == a.value.index - n && r.value.tag == a.value.tag)
  {
    if tags != [] {
      ClaimRebased(tags[1..], n, from);
      if tags[0].index >= n {
        var t := tags[0].(index := tags[0].index - n);
        assert Rebased(tags, n)[1..] == Rebased(tags[1..], n);
      } else {
        assert Rebased(tags, n) == Rebased(tags[1..], n);
      }
    }
  }

  /** Up to the first tag found, no burst starts. */
  lemma {:induction false} ClaimIsNext(tags: seq<ItemTag<Tag>>, from: nat, q: nat)
    requires Sorted(tags) && from <= q && (Claim(tags, from).Some? ==> q < Claim(tags, from).value.index)
    ensures BurstAt(tags, q) == None
  {
    var c, d := Claim(tags, from), Claim(tags, q);
    if d.Some? && d.value.index == q {
      if c.None? {
        assert false;
      } else {
        NotBefore(tags, from, d.value);
        assert false;
      }
    }
  }

  /** In a sorted list the search returns the lowest index. */
  lemma {:induction false} NotBefore(tags: seq<ItemTag<Tag>>, from: nat, t: ItemTag<Tag>)
    requires Sorted(tags) && t in tags && IsBurst(t) && t.index >= from
    ensures Claim(tags, from).Some? && Claim(tags, from).value.index <= t.index
  {
    if IsBurst(tags[0]) && tags[0].index >= from {
      var k :| 0 <= k < |tags| && tags[k] == t;
    } else {
      NotBefore(tags[1..], from, t);
    }
  }

  /** Tags that come with later samples start no burst before them. */
  lemma {:induction false} LaterTags(tags: seq<ItemTag<Tag>>, more: seq<ItemTag<Tag>>, p: nat)
    requires forall k :: 0 <= k < |more| ==> more[k].index > p
    ensures BurstAt(tags + more, p) == BurstAt(tags, p)
  {
    if tags == [] {
      assert tags + more == more;
    } else {
      assert (tags + more)[1..] == tags[1..] + more;
      LaterTags(tags[1..], more, p);
    }
  }

  // ---- segments: what the block has claimed

  datatype Seg<T> = Burst(data: seq<T>) | Gap(data: seq<T>)

  /** Untagged samples are followed by the tail padding as well. */
  function Emit<T>(p: Params<T>, s: Seg<T>): seq<T> {
    (if s.Burst? then Pads(p.value, p.head) else []) + s.data + Pads(p.value, p.tail)
  }

  function EmitAll<T>(p: Params<T>, segs: seq<Seg<T>>): seq<T> {
    if segs == [] then [] else EmitAll(p, segs[..|segs| - 1]) + Emit(p, segs[|segs| - 1])
  }

  function DataOf<T>(segs: seq<Seg<T>>): seq<T> {
    if segs == [] then [] else DataOf(segs[..|segs| - 1]) + segs[|segs| - 1].data
  }

  /** One tag for each burst, at its first emitted sample. */
  function TagsOf<T>(p: Params<T>, segs: seq<Seg<T>>): seq<OutTag> {
    if segs == [] then []
    else
      var before, s := segs[..|segs| - 1], segs[|segs| - 1];
      TagsOf(p, before) + TagOf(p, before, s, |s.data|)
  }

  function TagOf<T>(p: Params<T>, before: seq<Seg<T>>, s: Seg<T>, len: nat): seq<OutTag> {
    if s.Burst? then [OutTag(|EmitAll(p, before)|, p.PropagateMaxBurstSize(len))] else []
  }

  /** A claimed burst in the output: head padding, its data, tail padding, under a tag that gives the length of all
      three. */
  lemma {:induction false} BurstIsPadded<T>(p: Params<T>, segs: seq<Seg<T>>, n: nat)
    requires n < |segs| && segs[n].Burst?
    ensures var at, len := |EmitAll(p, segs[..n])|, p.head + |segs[n].data| + p.tail;
            && at + len <= |EmitAll(p, segs)| && OutTag(at, len) in TagsOf(p, segs)
            && EmitAll(p, segs)[at..at + len] == Pads(p.value, p.head) + segs[n].data + Pads(p.value, p.tail)
  {
    var last := |segs| - 1;
    if n < last {
      BurstIsPadded(p, segs[..last], n);
      assert segs[..last][..n] == segs[..n];
      Inside(EmitAll(p, segs[..last]), Emit(p, segs[last]), |EmitAll(p, segs[..n])|,
             p.head + |segs[n].data| + p.tail);
    }
  }

  lemma Inside<T>(a: seq<T>, b: seq<T>, at: nat, len: nat)
    requires at + len <= |a|
    ensures (a + b)[at..at + len] == a[at..at + len]
  {
  }

  predicate NoBursts(tags: seq<ItemTag<Tag>>, from: nat, to: nat) {
    forall q :: from <= q < to ==> BurstAt(tags, q) == None
  }

  /** A burst has the length its tag says; a gap lies between bursts. */
  predicate SegOk<T>(tags: seq<ItemTag<Tag>>, at: nat, s: Seg<T>) {
    s.data != [] && if s.Burst? then BurstAt(tags, at) == Some(|s.data|) else NoBursts(tags, at, at + |s.data|)
  }

  predicate Aligned<T>(tags: seq<ItemTag<Tag>>, segs: seq<Seg<T>>) {
    segs == []
    || (Aligned(tags, segs[..|segs| - 1]) && SegOk(tags, |DataOf(segs[..|segs| - 1])|, segs[|segs| - 1]))
  }

  lemma Snoc<T>(p: Params<T>, tags: seq<ItemTag<Tag>>, segs: seq<Seg<T>>, s: Seg<T>)
    ensures EmitAll(p, segs + [s]) == EmitAll(p, segs) + Emit(p, s)
    ensures DataOf(segs + [s]) == DataOf(segs) + s.data
    ensures TagsOf(p, segs + [s]) == TagsOf(p, segs) + TagOf(p, segs, s, |s.data|)
    ensures Aligned(tags, segs + [s]) <==> Aligned(tags, segs) && SegOk(tags, |DataOf(segs)|, s)
  {
    assert (segs + [s])[..|segs|] == segs;
  }

  // ---- what every iteration keeps

  /** The completed segments, the one in progress and the output so far fit the state. */
  datatype Book<T> = Book(done: seq<Seg<T>>, cur: Seg<T>, out: seq<T>, tags: seq<OutTag>, taken: nat)

  predicate Good<T(==)>(p: Params<T>, x: seq<T>, tags: seq<ItemTag<Tag>>, state: State, b: Book<T>) {
    var at := |DataOf(b.done)|;
    var before := EmitAll(p, b.done);
    && b.taken <= |x| && DataOf(b.done) + b.cur.data == x[..b.taken] && Aligned(tags, b.done)
    && match state
       case ClaimPending => b.cur == Burst([]) && b.out == before && b.tags == TagsOf(p, b.done)
       case HaveUntaggedSamples(n) =>
         && b.cur == Gap([]) && n > 0 && at + n <= |x| && NoBursts(tags, at, at + n)
         && b.out == before && b.tags == TagsOf(p, b.done)
       case PadHead(left, len, pending) =>
         && b.cur == Burst([]) && 0 < left <= p.head && at < |x| && BurstAt(tags, at) == Some(len)
         && b.out == before + Pads(p.value, p.head - left) && (pending <==> left == p.head)
         && b.tags == TagsOf(p, b.done) + if pending then [] else TagOf(p, b.done, b.cur, len)
       case Copy(left, pending) =>
         && (left > 0 || (b.cur == Burst([]) && BurstAt(tags, at) == Some(0)))
         && (if b.cur.Burst?
             then BurstAt(tags, at) == Some(|b.cur.data| + left) && at < |x|
               && (pending <==> p.head == 0 && b.cur.data == [])
             else NoBursts(tags, at, at + |b.cur.data| + left) && at + |b.cur.data| + left <= |x| && !pending)
         && b.out == before + (if b.cur.Burst? then Pads(p.value, p.head) else []) + b.cur.data
         && b.tags == TagsOf(p, b.done) + if pending then [] else TagOf(p, b.done, b.cur, |b.cur.data| + left)
       case PadTail(left) =>
         && 0 < left <= p.tail && SegOk(tags, at, b.cur)
         && b.out == before + (if b.cur.Burst? then Pads(p.value, p.head) else []) + b.cur.data
                     + Pads(p.value, p.tail - left)
         && b.tags == TagsOf(p, b.done) + TagOf(p, b.done, b.cur, |b.cur.data|)
  }

  // ---- the five branches of the loop

  /** The state after a claim, as the search decides it. */
  function Claimed<T>(p: Params<T>, tags: seq<ItemTag<Tag>>, from: nat, end: nat): State
    requires from < end
  {
    var c := Claim(tags, from);
    if c.None? then HaveUntaggedSamples(end - from)
    else if c.value.index > from then HaveUntaggedSamples(c.value.index - from)
    else if p.head > 0 then PadHead(p.head, c.value.tag.value, true)
    else Copy(c.value.tag.value, true)
  }

  lemma ClaimShift<T>(p: Params<T>, tags: seq<ItemTag<Tag>>, taken: nat, from: nat, end: nat)
    requires from < end
    ensures Claimed(p, Rebased(tags, taken), from, end) == Claimed(p, tags, taken + from, taken + end)
  {
    ClaimRebased(tags, taken, from);
  }

  /** An untagged run ends before the next burst. */
  lemma ClaimedGap<T>(p: Params<T>, tags: seq<ItemTag<Tag>>, from: nat, end: nat)
    requires from < end && Sorted(tags) && InRange(tags, end) && Claimed(p, tags, from, end).HaveUntaggedSamples?
    ensures var n := Claimed(p, tags, from, end).count; n > 0 && from + n <= end && NoBursts(tags, from, from + n)
  {
    var n := Claimed(p, tags, from, end).count;
    forall q | from <= q < from + n ensures BurstAt(tags, q) == None {
      ClaimIsNext(tags, from, q);
    }
  }

  lemma ClaimKeeps<T>(p: Params<T>, x: seq<T>, tags: seq<ItemTag<Tag>>, b: Book<T>)
    requires Good(p, x, tags, ClaimPending, b) && b.taken < |x| && Sorted(tags) && InRange(tags, |x|)
    ensures var s' := Claimed(p, tags, b.taken, |x|);
            Good(p, x, tags, s', b.(cur := if s'.HaveUntaggedSamples? then Gap([]) else Burst([])))
  {
    assert |DataOf(b.done)| == b.taken;
    if Claimed(p, tags, b.taken, |x|).HaveUntaggedSamples? {
      ClaimedGap(p, tags, b.taken, |x|);
    }
  }

  function AfterCopy<T>(p: Params<T>, left: nat, n: nat): State
    requires n <= left
  {
    if n < left then Copy(left - n, false) else if p.tail > 0 then PadTail(p.tail) else ClaimPending
  }

  /** n samples copied. */
  function Copied<T>(p: Params<T>, x: seq<T>, left: nat, pending: bool, b: Book<T>, n: nat): (r: (State, Book<T>))
    requires b.taken + n <= |x| && 0 < n <= left
  {
    var b' := Extended(p, x, left, pending, b, n);
    (AfterCopy(p, left, n), if n == left && p.tail == 0 then b'.(done := b'.done + [b'.cur], cur := Burst([])) else b')
  }

  /** The copied samples and the tag, before the state is looked at. */
  function Extended<T>(p: Params<T>, x: seq<T>, left: nat, pending: bool, b: Book<T>, n: nat): Book<T>
    requires b.taken + n <= |x| && 0 < n <= left
  {
    var chunk := x[b.taken..b.taken + n];
    b.(cur := if b.cur.Burst? then Burst(b.cur.data + chunk) else Gap(b.cur.data + chunk), out := b.out + chunk,
       tags := b.tags + if pending then [OutTag(|b.out|, left + p.tail)] else [], taken := b.taken + n)
  }

  lemma ExtendedData<T>(p: Params<T>, x: seq<T>, left: nat, pending: bool, b: Book<T>, n: nat)
    requires b.taken + n <= |x| && 0 < n <= left && DataOf(b.done) + b.cur.data == x[..b.taken]
    ensures DataOf(b.done) + Extended(p, x, left, pending, b, n).cur.data == x[..b.taken + n]
  {
    var chunk := x[b.taken..b.taken + n];
    assert Extended(p, x, left, pending, b, n).cur.data == b.cur.data + chunk;
    assert DataOf(b.done) + (b.cur.data + chunk) == (DataOf(b.done) + b.cur.data) + chunk == x[..b.taken + n];
  }

  lemma ExtendedOut<T>(p: Params<T>, x: seq<T>, left: nat, pending: bool, b: Book<T>, n: nat, before: seq<T>)
    requires b.taken + n <= |x| && 0 < n <= left && b.out == before + b.cur.data
    ensures var b' := Extended(p, x, left, pending, b, n); b'.out == before + b'.cur.data
  {
  }

  lemma ExtendedTags<T>(p: Params<T>, x: seq<T>, left: nat, pending: bool, b: Book<T>, n: nat)
    requires b.taken + n <= |x| && 0 < n <= left
    requires b.tags == TagsOf(p, b.done) + if pending then [] else TagOf(p, b.done, b.cur, |b.cur.data| + left)
    requires pending ==> b.cur == Burst([]) && p.head == 0 && |b.out| == |EmitAll(p, b.done)|
    ensures Extended(p, x, left, pending, b, n).tags == TagsOf(p, b.done) + TagOf(p, b.done, b.cur, |b.cur.data| + left)
  {
  }

  lemma ExtendedFits<T>(p: Params<T>, x: seq<T>, tags: seq<ItemTag<Tag>>, left: nat, pending: bool, b: Book<T>, n: nat)
    requires Good(p, x, tags, Copy(left, pending), b) && b.taken + n <= |x| && 0 < n <= left
    ensures var b' := Extended(p, x, left, pending, b, n);
            && DataOf(b.done) + b'.cur.data == x[..b.taken + n]
            && b'.out == EmitAll(p, b.done) + (if b.cur.Burst? then Pads(p.value, p.head) else []) + b'.cur.data
            && b'.tags == TagsOf(p, b.done) + TagOf(p, b.done, b.cur, |b.cur.data| + left)
  {
    ExtendedData(p, x, left, pending, b, n);
    ExtendedOut(p, x, left, pending, b, n, EmitAll(p, b.done) + if b.cur.Burst? then Pads(p.value, p.head) else []);
    assert pending ==> |b.out| == |EmitAll(p, b.done)|;
    ExtendedTags(p, x, left, pending, b, n);
  }

  lemma CopyKeeps<T>(p: Params<T>, x: seq<T>, tags: seq<ItemTag<Tag>>, left: nat, pending: bool, b: Book<T>, n: nat)
    requires Good(p, x, tags, Copy(left, pending), b) && b.taken + n <= |x| && 0 < n <= left
    ensures var r := Copied(p, x, left, pending, b, n); Good(p, x, tags, r.0, r.1)
  {
    if n == left {
      CopyAll(p, x, tags, left, pending, b);
    } else {
      CopyPart(p, x, tags, left, pending, b, n);
    }
  }

  lemma CopyAll<T>(p: Params<T>, x: seq<T>, tags: seq<ItemTag<Tag>>, left: nat, pending: bool, b: Book<T>)
    requires Good(p, x, tags, Copy(left, pending), b) && b.taken + left <= |x| && 0 < left
    ensures var r := Copied(p, x, left, pending, b, left); Good(p, x, tags, r.0, r.1)
  {
    ExtendedFits(p, x, tags, left, pending, b, left);
    var b' := Extended(p, x, left, pending, b, left);
    if p.tail > 0 {
      CopyEndsInTail(p, x, tags, b, b');
    } else {
      CopyEnds(p, x, tags, b, b');
    }
  }

  lemma CopyPart<T>(p: Params<T>, x: seq<T>, tags: seq<ItemTag<Tag>>, left: nat, pending: bool, b: Book<T>, n: nat)
    requires Good(p, x, tags, Copy(left, pending), b) && b.taken + n <= |x| && 0 < n < left
    ensures Good(p, x, tags, Copy(left - n, false), Extended(p, x, left, pending, b, n))
  {
    ExtendedFits(p, x, tags, left, pending, b, n);
    CopyContinues(p, x, tags, left, pending, b, n, Extended(p, x, left, pending, b, n));
  }

  lemma CopyContinues<T>(p: Params<T>, x: seq<T>, tags: seq<ItemTag<Tag>>, left: nat, pending: bool, b: Book<T>,
                         n: nat, b': Book<T>)
    requires b.taken + n <= |x| && 0 < n < left && b' == Extended(p, x, left, pending, b, n) && Aligned(tags, b.done)
    requires var at := |DataOf(b.done)|;
             if b.cur.Burst? then BurstAt(tags, at) == Some(|b.cur.data| + left) && at < |x|
             else NoBursts(tags, at, at + |b.cur.data| + left) && at + |b.cur.data| + left <= |x|
    requires DataOf(b.done) + b'.cur.data == x[..b.taken + n]
    requires b'.out == EmitAll(p, b.done) + (if b.cur.Burst? then Pads(p.value, p.head) else []) + b'.cur.data
    requires b'.tags == TagsOf(p, b.done) + TagOf(p, b.done, b.cur, |b.cur.data| + left)
    ensures Good(p, x, tags, Copy(left - n, false), b')
  {
    if b.cur.Burst? {
      assert b'.cur.Burst? && |b'.cur.data| + (left - n) == |b.cur.data| + left;
    } else {
      assert b'.cur.Gap? && |b'.cur.data| + (left - n) == |b.cur.data| + left;
    }
  }

  lemma CopyEnds<T>(p: Params<T>, x: seq<T>, tags: seq<ItemTag<Tag>>, b: Book<T>, b': Book<T>)
    requires Aligned(tags, b.done) && b'.done == b.done && b'.taken <= |x| && SegOk(tags, |DataOf(b.done)|, b'.cur)
    requires DataOf(b.done) + b'.cur.data == x[..b'.taken]
    requires b'.out == EmitAll(p, b.done) + (if b'.cur.Burst? then Pads(p.value, p.head) else []) + b'.cur.data
    requires b'.tags == TagsOf(p, b.done) + TagOf(p, b.done, b'.cur, |b'.cur.data|)
    requires p.tail == 0
    ensures Good(p, x, tags, ClaimPending, b'.(done := b'.done + [b'.cur], cur := Burst([])))
  {
    assert Pads(p.value, 0) == [];
    Snoc(p, tags, b.done, b'.cur);
  }

  lemma CopyEndsInTail<T>(p: Params<T>, x: seq<T>, tags: seq<ItemTag<Tag>>, b: Book<T>, b': Book<T>)
    requires Aligned(tags, b.done) && b'.done == b.done && b'.taken <= |x| && SegOk(tags, |DataOf(b.done)|, b'.cur)
    requires DataOf(b.done) + b'.cur.data == x[..b'.taken]
    requires b'.out == EmitAll(p, b.done) + (if b'.cur.Burst? then Pads(p.value, p.head) else []) + b'.cur.data
    requires b'.tags == TagsOf(p, b.done) + TagOf(p, b.done, b'.cur, |b'.cur.data|)
    requires p.tail > 0
    ensures Good(p, x, tags, PadTail(p.tail), b')
  {
    assert b'.out + Pads(p.value, 0) == b'.out;
  }

  /** n samples of head padding. */
  function AfterPadHead(left: nat, len: nat, n: nat): State
    requires n <= left
  {
    if n == left then Copy(len, false) else PadHead(left - n, len, false)
  }

  function HeadPadded<T>(p: Params<T>, left: nat, len: nat, pending: bool, b: Book<T>, n: nat): (State, Book<T>)
    requires 0 < n <= left
  {
    (AfterPadHead(left, len, n),
     b.(out := b.out + Pads(p.value, n),
        tags := b.tags + if pending then [OutTag(|b.out|, left + len + p.tail)] else []))
  }

  lemma PadHeadKeeps<T>(p: Params<T>, x: seq<T>, tags: seq<ItemTag<Tag>>, left: nat, len: nat, pending: bool,
                        b: Book<T>, n: nat)
    requires Good(p, x, tags, PadHead(left, len, pending), b) && 0 < n <= left
    ensures var r := HeadPadded(p, left, len, pending, b, n); Good(p, x, tags, r.0, r.1)
  {
    HeadOut(p, b.out, EmitAll(p, b.done), left, n);
    HeadTags(p, left, len, pending, b);
    var r := HeadPadded(p, left, len, pending, b, n);
    if n == left {
      HeadEnds(p, x, tags, len, b, r.1);
    } else {
      HeadContinues(p, x, tags, left, len, pending, b, n, r.1);
    }
  }

  lemma HeadEnds<T>(p: Params<T>, x: seq<T>, tags: seq<ItemTag<Tag>>, len: nat, b: Book<T>, b': Book<T>)
    requires b.taken <= |x| && DataOf(b.done) == x[..b.taken] && Aligned(tags, b.done) && b.cur == Burst([])
             && p.head > 0
    requires var at := |DataOf(b.done)|; at < |x| && BurstAt(tags, at) == Some(len)
    requires b' == b.(out := b'.out, tags := b'.tags) && b'.out == EmitAll(p, b.done) + Pads(p.value, p.head)
    requires b'.tags == TagsOf(p, b.done) + TagOf(p, b.done, b.cur, len)
    ensures Good(p, x, tags, Copy(len, false), b')
  {
    assert EmitAll(p, b.done) + Pads(p.value, p.head) + [] == EmitAll(p, b.done) + Pads(p.value, p.head);
    assert DataOf(b.done) + [] == DataOf(b.done);
  }

  lemma HeadContinues<T>(p: Params<T>, x: seq<T>, tags: seq<ItemTag<Tag>>, left: nat, len: nat, pending: bool,
                         b: Book<T>,
                         n: nat, b': Book<T>)
    requires Good(p, x, tags, PadHead(left, len, pending), b) && 0 < n < left
    requires b' == b.(out := b'.out, tags := b'.tags)
             && b'.out == EmitAll(p, b.done) + Pads(p.value, p.head - (left - n))
    requires b'.tags == TagsOf(p, b.done) + TagOf(p, b.done, b.cur, len)
    ensures Good(p, x, tags, PadHead(left - n, len, false), b')
  {
  }

  lemma HeadOut<T>(p: Params<T>, out: seq<T>, before: seq<T>, left: nat, n: nat)
    requires 0 < n <= left <= p.head && out == before + Pads(p.value, p.head - left)
    ensures out + Pads(p.value, n) == before + Pads(p.value, p.head - (left - n))
  {
    PadsAdd(p.value, p.head - left, n);
  }

  lemma HeadTags<T>(p: Params<T>, left: nat, len: nat, pending: bool, b: Book<T>)
    requires b.cur == Burst([]) && left <= p.head && (pending <==> left == p.head)
    requires b.out == EmitAll(p, b.done) + Pads(p.value, p.head - left)
    requires b.tags == TagsOf(p, b.done) + if pending then [] else TagOf(p, b.done, b.cur, len)
    ensures b.tags + (if pending then [OutTag(|b.out|, left + len + p.tail)] else [])
            == TagsOf(p, b.done) + TagOf(p, b.done, b.cur, len)
  {
  }

  function TailPadded<T>(p: Params<T>, left: nat, b: Book<T>, n: nat): (State, Book<T>)
    requires 0 < n <= left
  {
    var b' := b.(out := b.out + Pads(p.value, n));
    if n < left then (PadTail(left - n), b') else (ClaimPending, b'.(done := b.done + [b.cur], cur := Burst([])))
  }

  /** n samples of tail padding. */
  lemma PadTailKeeps<T>(p: Params<T>, x: seq<T>, tags: seq<ItemTag<Tag>>, left: nat, b: Book<T>, n: nat)
    requires Good(p, x, tags, PadTail(left), b) && 0 < n <= left
    ensures var r := TailPadded(p, left, b, n); Good(p, x, tags, r.0, r.1)
  {
    TailOut(p, b.out, EmitAll(p, b.done) + (if b.cur.Burst? then Pads(p.value, p.head) else []) + b.cur.data, left, n);
    if n == left {
      TailEnds(p, b.out + Pads(p.value, n), EmitAll(p, b.done), b.cur);
      TailDone(p, x, tags, b, b.out + Pads(p.value, n));
    }
  }

  lemma TailDone<T>(p: Params<T>, x: seq<T>, tags: seq<ItemTag<Tag>>, b: Book<T>, out: seq<T>)
    requires Aligned(tags, b.done) && SegOk(tags, |DataOf(b.done)|, b.cur) && b.taken <= |x|
    requires DataOf(b.done) + b.cur.data == x[..b.taken] && out == EmitAll(p, b.done) + Emit(p, b.cur)
    requires b.tags == TagsOf(p, b.done) + TagOf(p, b.done, b.cur, |b.cur.data|)
    ensures Good(p, x, tags, ClaimPending, b.(out := out, done := b.done + [b.cur], cur := Burst([])))
  {
    Snoc(p, tags, b.done, b.cur);
  }

  lemma TailOut<T>(p: Params<T>, out: seq<T>, before: seq<T>, left: nat, n: nat)
    requires 0 < n <= left <= p.tail && out == before + Pads(p.value, p.tail - left)
    ensures out + Pads(p.value, n) == before + Pads(p.value, p.tail - (left - n))
  {
    PadsAdd(p.value, p.tail - left, n);
  }

  lemma TailEnds<T>(p: Params<T>, out: seq<T>, before: seq<T>, s: Seg<T>)
    requires out == before + (if s.Burst? then Pads(p.value, p.head) else []) + s.data + Pads(p.value, p.tail)
    ensures out == before + Emit(p, s)
  {
  }

  // ---- the padded stream

  /** The stream as documented: each burst between its pads, other samples as they are. An unfinished burst is emitted
      as far as it came; nothing follows a burst of length 0. */
  function Ideal<T>(p: Params<T>, x: seq<T>, tags: seq<ItemTag<Tag>>, at: nat): seq<T>
    decreases |x| - at
  {
    if at >= |x| then []
    else
      match BurstAt(tags, at)
      case None => [x[at]] + Ideal(p, x, tags, at + 1)
      case Some(len) =>
        if len == 0 then Pads(p.value, p.head)
        else if at + len <= |x| then Emit(p, Burst(x[at..at + len])) + Ideal(p, x, tags, at + len)
        else Pads(p.value, p.head) + x[at..]
  }

  lemma IdealOfGap<T>(p: Params<T>, x: seq<T>, tags: seq<ItemTag<Tag>>, at: nat, n: nat)
    requires at + n <= |x| && NoBursts(tags, at, at + n)
    ensures Ideal(p, x, tags, at) == x[at..at + n] + Ideal(p, x, tags, at + n)
  {
    IdealUpTo(p, x, tags, at, at + n);
  }

  lemma {:induction false} IdealUpTo<T>(p: Params<T>, x: seq<T>, tags: seq<ItemTag<Tag>>, at: nat, end: nat)
    requires at <= end <= |x| && NoBursts(tags, at, end)
    ensures Ideal(p, x, tags, at) == x[at..end] + Ideal(p, x, tags, end)
    decreases end - at
  {
    if at < end {
      IdealUpTo(p, x, tags, at + 1, end);
      IdealOfSample(p, x, tags, at);
      GlueSample(x, at, end, Ideal(p, x, tags, end));
    }
  }

  lemma IdealOfSample<T>(p: Params<T>, x: seq<T>, tags: seq<ItemTag<Tag>>, at: nat)
    requires at < |x| && BurstAt(tags, at) == None
    ensures Ideal(p, x, tags, at) == [x[at]] + Ideal(p, x, tags, at + 1)
  {
  }

  lemma GlueSample<T>(x: seq<T>, at: nat, end: nat, rest: seq<T>)
    requires at < end <= |x|
    ensures [x[at]] + (x[at + 1..end] + rest) == x[at..end] + rest
  {
  }

  /** The padding that follows untagged runs. */
  function GapPads<T>(p: Params<T>, segs: seq<Seg<T>>): (n: nat)
    ensures n == 0 <==> p.tail == 0 || forall k :: 0 <= k < |segs| ==> segs[k].Burst?
  {
    if segs == [] then 0
    else GapPads(p, segs[..|segs| - 1]) + if segs[|segs| - 1].Burst? then 0 else p.tail
  }

  /** One completed segment of the documented stream. */
  lemma IdealStep<T>(p: Params<T>, x: seq<T>, tags: seq<ItemTag<Tag>>, at: nat, s: Seg<T>)
    requires at + |s.data| <= |x| && x[at..at + |s.data|] == s.data && SegOk(tags, at, s)
    ensures var rest := Ideal(p, x, tags, at + |s.data|);
            if s.Burst? then Ideal(p, x, tags, at) == Emit(p, s) + rest else Ideal(p, x, tags, at) == s.data + rest
  {
    var n := |s.data|;
    match s
    case Gap(data) => IdealOfGap(p, x, tags, at, n);
    case Burst(data) => IdealOfBurst(p, x, tags, at, n);
  }

  lemma IdealOfBurst<T>(p: Params<T>, x: seq<T>, tags: seq<ItemTag<Tag>>, at: nat, len: nat)
    requires 0 < len && at + len <= |x| && BurstAt(tags, at) == Some(len)
    ensures Ideal(p, x, tags, at) == Emit(p, Burst(x[at..at + len])) + Ideal(p, x, tags, at + len)
  {
  }

  /** The completed segments against the documented stream: equal but for the padding after untagged runs. */
  lemma {:induction false} IdealOfDone<T>(p: Params<T>, x: seq<T>, tags: seq<ItemTag<Tag>>, segs: seq<Seg<T>>)
    requires Aligned(tags, segs) && DataOf(segs) <= x
    ensures |Ideal(p, x, tags, 0)| + GapPads(p, segs) == |EmitAll(p, segs)| + |Ideal(p, x, tags, |DataOf(segs)|)|
    ensures GapPads(p, segs) == 0 ==> Ideal(p, x, tags, 0) == EmitAll(p, segs) + Ideal(p, x, tags, |DataOf(segs)|)
  {
    if segs != [] {
      var before, s := segs[..|segs| - 1], segs[|segs| - 1];
      SliceOf(x, DataOf(before), s.data);
      IdealOfDone(p, x, tags, before);
      IdealOfNext(p, x, tags, before, s);
    }
  }

  lemma IdealOfNext<T>(p: Params<T>, x: seq<T>, tags: seq<ItemTag<Tag>>, before: seq<Seg<T>>, s: Seg<T>)
    requires var at := |DataOf(before)|; SegOk(tags, at, s) && at + |s.data| <= |x| && x[at..at + |s.data|] == s.data
    requires |Ideal(p, x, tags, 0)| + GapPads(p, before) == |EmitAll(p, before)| + |Ideal(p, x, tags, |DataOf(before)|)|
    requires GapPads(p, before) == 0 ==>
             Ideal(p, x, tags, 0) == EmitAll(p, before) + Ideal(p, x, tags, |DataOf(before)|)
    ensures var rest, more := Ideal(p, x, tags, |DataOf(before) + s.data|), if s.Burst? then 0 else p.tail;
            && |Ideal(p, x, tags, 0)| + (GapPads(p, before) + more) == |EmitAll(p, before) + Emit(p, s)| + |rest|
            && (GapPads(p, before) + more == 0 ==> Ideal(p, x, tags, 0) == (EmitAll(p, before) + Emit(p, s)) + rest)
  {
    var here, rest := IdealRest(p, x, tags, |DataOf(before)|, |DataOf(before) + s.data|, s);
    OneMoreSegment(p, s, Ideal(p, x, tags, 0), here, rest, EmitAll(p, before), GapPads(p, before));
  }

  /** One more segment behind `before`, which is short of the whole stream by the pads of its gaps. */
  lemma OneMoreSegment<T>(p: Params<T>, s: Seg<T>, all: seq<T>, here: seq<T>, rest: seq<T>, before: seq<T>, gaps: nat)
    requires here == (if s.Burst? then Emit(p, s) else s.data) + rest
    requires |all| + gaps == |before| + |here| && (gaps == 0 ==> all == before + here)
    ensures var more := if s.Burst? then 0 else p.tail;
            && |all| + (gaps + more) == |before + Emit(p, s)| + |rest|
            && (gaps + more == 0 ==> all == (before + Emit(p, s)) + rest)
  {
    EmitLength(p, s);
    if s.Burst? {
      Glue(all, here, before, Emit(p, s), Emit(p, s), rest, gaps, 0);
    } else {
      Glue(all, here, before, s.data, Emit(p, s), rest, gaps, p.tail);
    }
  }

  lemma IdealRest<T>(p: Params<T>, x: seq<T>, tags: seq<ItemTag<Tag>>, at: nat, next: nat, s: Seg<T>)
      returns (here: seq<T>, rest: seq<T>)
    requires SegOk(tags, at, s) && next == at + |s.data| <= |x| && x[at..next] == s.data
    ensures here == Ideal(p, x, tags, at) && rest == Ideal(p, x, tags, next)
    ensures here == (if s.Burst? then Emit(p, s) else s.data) + rest
  {
    rest := Ideal(p, x, tags, next);
    here := (if s.Burst? then Emit(p, s) else s.data) + rest;
    IdealStep(p, x, tags, at, s);
  }

  lemma SliceOf<T>(x: seq<T>, before: seq<T>, data: seq<T>)
    requires before + data <= x
    ensures |before| + |data| <= |x| && before <= x && x[|before|..|before| + |data|] == data
  {
    assert (before + data)[|before|..] == data;
  }

  lemma EmitLength<T>(p: Params<T>, s: Seg<T>)
    ensures s.Gap? ==> |Emit(p, s)| == |s.data| + p.tail && (p.tail == 0 ==> Emit(p, s) == s.data)
  {
  }

  lemma Glue<T>(all: seq<T>, here: seq<T>, before: seq<T>, core: seq<T>, emitted: seq<T>, rest: seq<T>, m: nat, n: nat)
    requires |all| + m == |before| + |here| && (m == 0 ==> all == before + here) && here == core + rest
    requires |emitted| == |core| + n && (n == 0 ==> emitted == core)
    ensures |all| + (m + n) == |before + emitted| + |rest|
    ensures m + n == 0 ==> all == (before + emitted) + rest
  {
  }

  /** What has been emitted of the segment in progress. */
  function Current<T>(p: Params<T>, state: State, b: Book<T>): seq<T> {
    match state
    case ClaimPending | HaveUntaggedSamples(_) => []
    case PadHead(left, _, _) => Pads(p.value, if left <= p.head then p.head - left else 0)
    case Copy(_, _) => (if b.cur.Burst? then Pads(p.value, p.head) else []) + b.cur.data
    case PadTail(left) =>
      (if b.cur.Burst? then Pads(p.value, p.head) else []) + b.cur.data
      + Pads(p.value, if left <= p.tail then p.tail - left else 0)
  }

  lemma OutputSoFar<T>(p: Params<T>, x: seq<T>, tags: seq<ItemTag<Tag>>, state: State, b: Book<T>)
    requires Good(p, x, tags, state, b)
    ensures b.out == EmitAll(p, b.done) + Current(p, state, b) && DataOf(b.done) <= x && Aligned(tags, b.done)
  {
    var before := EmitAll(p, b.done);
    assert before + [] == before;
    assert DataOf(b.done) == x[..|DataOf(b.done)|];
  }

  lemma PadsPrefix<T>(v: T, m: nat, n: nat)
    requires m <= n
    ensures Pads(v, m) <= Pads(v, n)
  {
  }

  /** The segment in progress is the start of the rest of the documented stream; a tail is missing its last pads. */
  lemma CurrentIsIdeal<T>(p: Params<T>, x: seq<T>, tags: seq<ItemTag<Tag>>, state: State, b: Book<T>)
    requires Good(p, x, tags, state, b) && (p.tail == 0 || b.cur.Burst? || state.ClaimPending?)
    ensures var rest := Ideal(p, x, tags, |DataOf(b.done)|);
            && Current(p, state, b) <= rest
            && (state.Copy? && b.taken == |x| ==> Current(p, state, b) == rest)
            && (state.PadTail? && b.taken == |x| ==> Current(p, state, b) + Pads(p.value, state.tailLeft) == rest)
  {
    var at := |DataOf(b.done)|;
    var data := b.cur.data;
    assert x[at..b.taken] == data by { assert (DataOf(b.done) + data)[at..] == data; }
    match state
    case ClaimPending =>
    case HaveUntaggedSamples(_) =>
    case PadHead(left, len, _) => CurrentHead(p, x, tags, at, left, len);
    case Copy(left, _) =>
      if b.cur.Gap? {
        CurrentGap(p, x, tags, at, left, data);
      } else {
        CurrentBurst(p, x, tags, at, left, data);
      }
    case PadTail(left) =>
      IdealStep(p, x, tags, at, b.cur);
      CurrentTail(p, b.cur, left, Current(p, state, b));
  }

  lemma CurrentHead<T>(p: Params<T>, x: seq<T>, tags: seq<ItemTag<Tag>>, at: nat, left: nat, len: nat)
    requires at < |x| && BurstAt(tags, at) == Some(len) && left <= p.head
    ensures Pads(p.value, p.head - left) <= Ideal(p, x, tags, at)
  {
    PadsPrefix(p.value, p.head - left, p.head);
  }

  lemma CurrentGap<T>(p: Params<T>, x: seq<T>, tags: seq<ItemTag<Tag>>, at: nat, left: nat, data: seq<T>)
    requires left > 0 && at + |data| + left <= |x| && x[at..at + |data|] == data
    requires NoBursts(tags, at, at + |data| + left)
    ensures at + |data| < |x| && [] + data <= Ideal(p, x, tags, at)
  {
    IdealOfGap(p, x, tags, at, |data|);
  }

  lemma CurrentTail<T>(p: Params<T>, s: Seg<T>, left: nat, current: seq<T>)
    requires left <= p.tail
    requires current == (if s.Burst? then Pads(p.value, p.head) else []) + s.data + Pads(p.value, p.tail - left)
    ensures current + Pads(p.value, left) == Emit(p, s) && current <= Emit(p, s)
  {
    PadsAdd(p.value, p.tail - left, left);
  }

  lemma CurrentBurst<T>(p: Params<T>, x: seq<T>, tags: seq<ItemTag<Tag>>, at: nat, left: nat, data: seq<T>)
    requires at < |x| && at + |data| <= |x| && x[at..at + |data|] == data && BurstAt(tags, at) == Some(|data| + left)
    requires left > 0 || data == []
    ensures Pads(p.value, p.head) + data <= Ideal(p, x, tags, at)
    ensures at + |data| == |x| ==> Pads(p.value, p.head) + data == Ideal(p, x, tags, at)
  {
    var len := |data| + left;
    if len > 0 && at + len <= |x| {
      assert x[at..at + len] == data + x[at + |data|..at + len];
    }
  }

  // ---- more input

  /** More samples, with tags on them, change nothing that was claimed. */
  lemma {:induction false} AlignedExtends<T>(tags: seq<ItemTag<Tag>>, more: seq<ItemTag<Tag>>, segs: seq<Seg<T>>,
                                             len: nat)
    requires Aligned(tags, segs) && |DataOf(segs)| <= len && forall k :: 0 <= k < |more| ==> more[k].index >= len
    ensures Aligned(tags + more, segs)
  {
    if segs != [] {
      var before, s := segs[..|segs| - 1], segs[|segs| - 1];
      AlignedExtends(tags, more, before, len);
      SegExtends(tags, more, |DataOf(before)|, s, len);
    }
  }

  lemma NoBurstsExtends(tags: seq<ItemTag<Tag>>, more: seq<ItemTag<Tag>>, from: nat, to: nat, len: nat)
    requires NoBursts(tags, from, to) && to <= len && forall k :: 0 <= k < |more| ==> more[k].index >= len
    ensures NoBursts(tags + more, from, to)
  {
    forall q | from <= q < to ensures BurstAt(tags + more, q) == None {
      LaterTags(tags, more, q);
    }
  }

  lemma SegExtends<T>(tags: seq<ItemTag<Tag>>, more: seq<ItemTag<Tag>>, at: nat, s: Seg<T>, len: nat)
    requires SegOk(tags, at, s) && at + |s.data| <= len && forall k :: 0 <= k < |more| ==> more[k].index >= len
    ensures SegOk(tags + more, at, s)
  {
    LaterTags(tags, more, at);
    if s.Gap? {
      NoBurstsExtends(tags, more, at, at + |s.data|, len);
    }
  }

  lemma GoodExtends<T>(p: Params<T>, x: seq<T>, more: seq<T>, tags: seq<ItemTag<Tag>>, newTags: seq<ItemTag<Tag>>,
                       state: State, b: Book<T>)
    requires Good(p, x, tags, state, b) && forall k :: 0 <= k < |newTags| ==> newTags[k].index >= |x|
    ensures Good(p, x + more, tags + newTags, state, b)
  {
    var at := |DataOf(b.done)|;
    OutputSoFar(p, x, tags, state, b);
    AlignedExtends(tags, newTags, b.done, |x|);
    assert (x + more)[..b.taken] == x[..b.taken];
    if at < |x| {
      LaterTags(tags, newTags, at);
    }
    if state.HaveUntaggedSamples? {
      NoBurstsExtends(tags, newTags, at, at + state.count, |x|);
    } else if state.Copy? && b.cur.Gap? {
      NoBurstsExtends(tags, newTags, at, at + |b.cur.data| + state.left, |x|);
    } else if state.PadTail? {
      SegExtends(tags, newTags, at, b.cur, |x|);
    }
  }

  /** How the documented stream and the output compare, for whole segments in `done` without pads after gaps. */
  lemma PrefixOfIdeal<T>(p: Params<T>, x: seq<T>, tags: seq<ItemTag<Tag>>, state: State, b: Book<T>)
    requires Good(p, x, tags, state, b) && GapPads(p, b.done + [b.cur]) == 0
    ensures b.out <= Ideal(p, x, tags, 0)
  {
    assert (b.done + [b.cur])[..|b.done|] == b.done;
    OutputSoFar(p, x, tags, state, b);
    IdealOfDone(p, x, tags, b.done);
    CurrentIsIdeal(p, x, tags, state, b);
  }

  /** With the input used up, the output and the tail still owed are as long as the documented stream and the padding
      after gaps. */
  lemma UsedUpOutput<T>(p: Params<T>, x: seq<T>, tags: seq<ItemTag<Tag>>, state: State, b: Book<T>)
    requires Good(p, x, tags, state, b) && b.taken == |x|
    ensures |b.out + Owed(p, state)| == |Ideal(p, x, tags, 0)| + GapPads(p, b.done + [b.cur])
    ensures GapPads(p, b.done + [b.cur]) == 0 ==> b.out + Owed(p, state) == Ideal(p, x, tags, 0)
  {
    assert (b.done + [b.cur])[..|b.done|] == b.done;
    UsedUp(p, x, tags, state, b);
    OutputSoFar(p, x, tags, state, b);
    assert b.out + [] == b.out;
    if state.PadTail? {
      UsedUpTail(p, x, tags, state.tailLeft, b);
    } else {
      IdealOfDone(p, x, tags, b.done);
      CurrentIsIdeal(p, x, tags, state, b);
    }
  }

  lemma UsedUpTail<T>(p: Params<T>, x: seq<T>, tags: seq<ItemTag<Tag>>, left: nat, b: Book<T>)
    requires Good(p, x, tags, PadTail(left), b) && b.taken == |x|
    ensures var full := b.out + Pads(p.value, left);
            |full| == |Ideal(p, x, tags, 0)| + GapPads(p, b.done + [b.cur])
            && (GapPads(p, b.done + [b.cur]) == 0 ==> full == Ideal(p, x, tags, 0))
  {
    TailOut(p, b.out, EmitAll(p, b.done) + (if b.cur.Burst? then Pads(p.value, p.head) else []) + b.cur.data, left,
            left);
    TailEnds(p, b.out + Pads(p.value, left), EmitAll(p, b.done), b.cur);
    Snoc(p, tags, b.done, b.cur);
    assert DataOf(b.done + [b.cur]) == x;
    IdealOfDone(p, x, tags, b.done + [b.cur]);
  }

  /** The tail padding a state has not yet written. */
  function Owed<T>(p: Params<T>, state: State): seq<T> {
    if state.PadTail? then Pads(p.value, state.tailLeft) else []
  }

  /** With the input used up no head padding and no untagged run is pending. */
  lemma UsedUp<T>(p: Params<T>, x: seq<T>, tags: seq<ItemTag<Tag>>, state: State, b: Book<T>)
    requires Good(p, x, tags, state, b) && b.taken == |x|
    ensures state.ClaimPending? || (state.Copy? && b.cur.Burst?) || state.PadTail?
  {
  }

  // ---- what can be told from the tags

  /** From `at` on, each burst starts where the one before ended. */
  predicate Tiles(tags: seq<ItemTag<Tag>>, at: nat, len: nat)
    decreases len - at
  {
    at < len ==>
      match BurstAt(tags, at)
      case None => false
      case Some(n) => n > 0 && Tiles(tags, at + n, len)
  }

  /** From `at` on, a burst of length 0 is met before the end. */
  predicate Sticks(tags: seq<ItemTag<Tag>>, at: nat, len: nat)
    decreases len - at
  {
    at < len &&
      match BurstAt(tags, at)
      case None => Sticks(tags, at + 1, len)
      case Some(n) => n == 0 || Sticks(tags, at + n, len)
  }

  lemma {:induction false} AlignedTiles<T>(tags: seq<ItemTag<Tag>>, segs: seq<Seg<T>>, len: nat)
    requires Aligned(tags, segs) && |DataOf(segs)| <= len
    ensures Tiles(tags, 0, len)
            <==> (forall k :: 0 <= k < |segs| ==> segs[k].Burst?) && Tiles(tags, |DataOf(segs)|, len)
  {
    if segs != [] {
      var before, s := segs[..|segs| - 1], segs[|segs| - 1];
      AlignedTiles(tags, before, len);
      assert s.Gap? ==> BurstAt(tags, |DataOf(before)|) == None;
      assert segs == before + [s];
    }
  }

  /** Where tags tile the stream, the block has claimed bursts only. */
  lemma TilesAreBursts<T>(p: Params<T>, x: seq<T>, tags: seq<ItemTag<Tag>>, state: State, b: Book<T>)
    requires Good(p, x, tags, state, b) && Tiles(tags, 0, |x|)
    ensures b.cur.Burst? && forall k :: 0 <= k < |b.done| ==> b.done[k].Burst?
  {
    OutputSoFar(p, x, tags, state, b);
    AlignedTiles(tags, b.done, |x|);
    if b.cur.Gap? {
      GapInProgress(p, x, tags, state, b);
    }
  }

  lemma GapInProgress<T>(p: Params<T>, x: seq<T>, tags: seq<ItemTag<Tag>>, state: State, b: Book<T>)
    requires Good(p, x, tags, state, b) && b.cur.Gap?
    ensures var at := |DataOf(b.done)|; at < |x| && BurstAt(tags, at) == None
  {
    assert |DataOf(b.done) + b.cur.data| == b.taken;
  }

  /** With the input used up, bursts only means tiled. */
  lemma BurstsAreTiles<T>(p: Params<T>, x: seq<T>, tags: seq<ItemTag<Tag>>, state: State, b: Book<T>)
    requires Good(p, x, tags, state, b) && b.taken == |x|
    requires b.cur.Burst? && forall k :: 0 <= k < |b.done| ==> b.done[k].Burst?
    ensures Tiles(tags, 0, |x|)
  {
    UsedUp(p, x, tags, state, b);
    OutputSoFar(p, x, tags, state, b);
    AlignedTiles(tags, b.done, |x|);
    assert |DataOf(b.done) + b.cur.data| == |x|;
  }

  lemma {:induction false} GapSticks(tags: seq<ItemTag<Tag>>, at: nat, n: nat, len: nat)
    requires NoBursts(tags, at, at + n) && at + n <= len
    ensures Sticks(tags, at, len) <==> Sticks(tags, at + n, len)
    decreases n
  {
    if n > 0 {
      assert BurstAt(tags, at) == None;
      GapSticks(tags, at + 1, n - 1, len);
    }
  }

  lemma {:induction false} AlignedSticks<T>(tags: seq<ItemTag<Tag>>, segs: seq<Seg<T>>, len: nat)
    requires Aligned(tags, segs) && |DataOf(segs)| <= len
    ensures Sticks(tags, 0, len) <==> Sticks(tags, |DataOf(segs)|, len)
  {
    if segs != [] {
      var before, s := segs[..|segs| - 1], segs[|segs| - 1];
      AlignedSticks(tags, before, len);
      if s.Gap? {
        GapSticks(tags, |DataOf(before)|, |s.data|, len);
      }
    }
  }

  /** Blocked with room left, the block has used up its input unless a burst of length 0 is in its way. */
  lemma BlockedWhen<T>(p: Params<T>, x: seq<T>, tags: seq<ItemTag<Tag>>, state: State, b: Book<T>, room: nat)
    requires Good(p, x, tags, state, b) && Blocked(state, |x| - b.taken, room) && room > 0
    ensures b.taken < |x| <==> Sticks(tags, 0, |x|)
    ensures b.taken < |x| <==> state.Copy? && state.left == 0
  {
    OutputSoFar(p, x, tags, state, b);
    AlignedSticks(tags, b.done, |x|);
    assert |DataOf(b.done) + b.cur.data| == b.taken;
    if b.taken == |x| {
      UsedUp(p, x, tags, state, b);
    }
  }

  // ---- runs

  datatype Machine<T> = Machine(x: seq<T>, tags: seq<ItemTag<Tag>>, state: State, b: Book<T>)

  /** What can happen: input arrives, or one branch of the loop does its part. */
  datatype Act<T> =
    | Arrive(more: seq<T>, moreTags: seq<ItemTag<Tag>>)
    | CopySome(n: nat) | PadHeadSome(n: nat) | PadTailSome(n: nat) | PassUntagged | ClaimNext

  function Initial<T>(): Machine<T> {
    Machine([], [], ClaimPending, Book([], Burst([]), [], [], 0))
  }

  predicate Allowed<T>(m: Machine<T>, a: Act<T>) {
    match a
    case Arrive(more, moreTags) => Sorted(moreTags) && InRange(moreTags, |more|)
    case CopySome(n) => m.state.Copy? && 0 < n <= m.state.left && m.b.taken + n <= |m.x|
    case PadHeadSome(n) => m.state.PadHead? && 0 < n <= m.state.padLeft
    case PadTailSome(n) => m.state.PadTail? && 0 < n <= m.state.tailLeft
    case PassUntagged => m.state.HaveUntaggedSamples?
    case ClaimNext => m.state.ClaimPending? && m.b.taken < |m.x|
  }

  function Apply<T>(p: Params<T>, m: Machine<T>, a: Act<T>): Machine<T>
    requires Allowed(m, a)
  {
    match a
    case Arrive(more, moreTags) => m.(x := m.x + more, tags := m.tags + Placed(moreTags, |m.x|))
    case CopySome(n) =>
      var r := Copied(p, m.x, m.state.left, m.state.tagPending, m.b, n);
      m.(state := r.0, b := r.1)
    case PadHeadSome(n) =>
      var r := HeadPadded(p, m.state.padLeft, m.state.originalLen, m.state.headTagPending, m.b, n);
      m.(state := r.0, b := r.1)
    case PadTailSome(n) =>
      var r := TailPadded(p, m.state.tailLeft, m.b, n);
      m.(state := r.0, b := r.1)
    case PassUntagged => m.(state := Copy(m.state.count, false))
    case ClaimNext =>
      var state := Claimed(p, m.tags, m.b.taken, |m.x|);
      m.(state := state, b := m.b.(cur := if state.HaveUntaggedSamples? then Gap([]) else Burst([])))
  }

  predicate IsRun<T>(p: Params<T>, m: Machine<T>, acts: seq<Act<T>>)
    decreases |acts|, 0
  {
    acts == [] || (IsRun(p, m, acts[..|acts| - 1]) && Allowed(Run(p, m, acts[..|acts| - 1]), acts[|acts| - 1]))
  }

  function Run<T>(p: Params<T>, m: Machine<T>, acts: seq<Act<T>>): Machine<T>
    requires IsRun(p, m, acts)
    decreases |acts|, 1
  {
    if acts == [] then m else Apply(p, Run(p, m, acts[..|acts| - 1]), acts[|acts| - 1])
  }

  predicate MachineOk<T(==)>(p: Params<T>, m: Machine<T>) {
    Good(p, m.x, m.tags, m.state, m.b) && Sorted(m.tags) && InRange(m.tags, |m.x|)
  }

  lemma ApplyKeeps<T>(p: Params<T>, m: Machine<T>, a: Act<T>)
    requires MachineOk(p, m) && Allowed(m, a)
    ensures MachineOk(p, Apply(p, m, a))
  {
    match a
    case Arrive(more, moreTags) => FeedFits(p, m.x, more, m.tags, moreTags, m.state, m.b);
    case CopySome(n) => CopyKeeps(p, m.x, m.tags, m.state.left, m.state.tagPending, m.b, n);
    case PadHeadSome(n) =>
      PadHeadKeeps(p, m.x, m.tags, m.state.padLeft, m.state.originalLen, m.state.headTagPending, m.b, n);
    case PadTailSome(n) => PadTailKeeps(p, m.x, m.tags, m.state.tailLeft, m.b, n);
    case PassUntagged => UntaggedKeeps(p, m.x, m.tags, m.state.count, m.b);
    case ClaimNext => ClaimKeeps(p, m.x, m.tags, m.b);
  }

  lemma UntaggedKeeps<T>(p: Params<T>, x: seq<T>, tags: seq<ItemTag<Tag>>, n: nat, b: Book<T>)
    requires Good(p, x, tags, HaveUntaggedSamples(n), b)
    ensures Good(p, x, tags, Copy(n, false), b)
  {
    assert EmitAll(p, b.done) + [] + [] == EmitAll(p, b.done);
    assert TagsOf(p, b.done) + [] == TagsOf(p, b.done);
  }

  /** Whatever arrives when, and wherever the calls stop, the output and the tags are those of the claimed segments. */
  lemma {:induction false} EveryRun<T>(p: Params<T>, acts: seq<Act<T>>)
    requires IsRun(p, Initial(), acts)
    ensures MachineOk(p, Run(p, Initial(), acts))
    decreases |acts|
  {
    if acts != [] {
      EveryRun(p, acts[..|acts| - 1]);
      ApplyKeeps(p, Run(p, Initial(), acts[..|acts| - 1]), acts[|acts| - 1]);
    }
  }

  lemma RunSnoc<T>(p: Params<T>, m: Machine<T>, acts: seq<Act<T>>, a: Act<T>)
    requires IsRun(p, m, acts) && Allowed(Run(p, m, acts), a)
    ensures IsRun(p, m, acts + [a]) && Run(p, m, acts + [a]) == Apply(p, Run(p, m, acts), a)
  {
    assert (acts + [a])[..|acts|] == acts;
  }

  lemma RunLast<T>(p: Params<T>, m: Machine<T>, q: seq<Act<T>>, a: Act<T>, acts: seq<Act<T>>)
    requires IsRun(p, m, acts) && acts == q + [a]
    ensures IsRun(p, m, q) && Allowed(Run(p, m, q), a) && Run(p, m, acts) == Apply(p, Run(p, m, q), a)
  {
    assert acts[..|q|] == q;
  }

  lemma {:induction false} RunConcat<T>(p: Params<T>, m: Machine<T>, first: seq<Act<T>>, mid: Machine<T>,
                                        second: seq<Act<T>>)
    requires IsRun(p, m, first) && mid == Run(p, m, first) && IsRun(p, mid, second)
    ensures IsRun(p, m, first + second) && Run(p, m, first + second) == Run(p, mid, second)
    decreases |second|
  {
    if second == [] {
      assert first + second == first;
    } else {
      var q, a := second[..|second| - 1], second[|second| - 1];
      RunLast(p, mid, q, a, second);
      RunConcat(p, m, first, mid, q);
      RunSnoc(p, m, first + q, a);
      assert first + second == (first + q) + [a];
    }
  }

  /** The output is a prefix of the documented stream if the tail padding is 0 or bursts tile the stream; with the input
      used up it is all of it but for the tail still owed. */
  lemma OutputIsDocumented<T>(p: Params<T>, acts: seq<Act<T>>)
    requires IsRun(p, Initial(), acts)
    requires var m := Run(p, Initial(), acts); p.tail == 0 || Tiles(m.tags, 0, |m.x|)
    ensures var m := Run(p, Initial(), acts);
            && m.b.out <= Ideal(p, m.x, m.tags, 0)
            && (m.b.taken == |m.x| ==> m.b.out + Owed(p, m.state) == Ideal(p, m.x, m.tags, 0))
  {
    EveryRun(p, acts);
    MachineIsDocumented(p, Run(p, Initial(), acts));
  }

  lemma MachineIsDocumented<T>(p: Params<T>, m: Machine<T>)
    requires MachineOk(p, m) && (p.tail == 0 || Tiles(m.tags, 0, |m.x|))
    ensures m.b.out <= Ideal(p, m.x, m.tags, 0)
    ensures m.b.taken == |m.x| ==> m.b.out + Owed(p, m.state) == Ideal(p, m.x, m.tags, 0)
  {
    if p.tail > 0 {
      TilesAreBursts(p, m.x, m.tags, m.state, m.b);
    }
    NoGapPads(p, m.b.done, m.b.cur);
    PrefixOfIdeal(p, m.x, m.tags, m.state, m.b);
    if m.b.taken == |m.x| {
      UsedUpOutput(p, m.x, m.tags, m.state, m.b);
    }
  }

  lemma NoGapPads<T>(p: Params<T>, done: seq<Seg<T>>, cur: Seg<T>)
    requires p.tail == 0 || (cur.Burst? && forall k :: 0 <= k < |done| ==> done[k].Burst?)
    ensures GapPads(p, done + [cur]) == 0
  {
  }

  /** Between segments, the output and its tags are exactly those of the segments taken, which cover the input read. */
  lemma OneTagPerBurst<T>(p: Params<T>, acts: seq<Act<T>>)
    requires IsRun(p, Initial(), acts) && Run(p, Initial(), acts).state == ClaimPending
    ensures var m := Run(p, Initial(), acts);
            && m.b.taken <= |m.x| && DataOf(m.b.done) == m.x[..m.b.taken] && Aligned(m.tags, m.b.done)
            && m.b.out == EmitAll(p, m.b.done) && m.b.tags == TagsOf(p, m.b.done)
  {
    EveryRun(p, acts);
    var m := Run(p, Initial(), acts);
    assert DataOf(m.b.done) + [] == DataOf(m.b.done);
  }

  /** With the input used up, the output and the tail still owed are the documented stream if and only if the tail
      padding is 0 or bursts tile the stream. */
  lemma DocumentedWhen<T>(p: Params<T>, acts: seq<Act<T>>)
    requires IsRun(p, Initial(), acts) && Run(p, Initial(), acts).b.taken == |Run(p, Initial(), acts).x|
    ensures var m := Run(p, Initial(), acts);
            m.b.out + Owed(p, m.state) == Ideal(p, m.x, m.tags, 0) <==> p.tail == 0 || Tiles(m.tags, 0, |m.x|)
  {
    EveryRun(p, acts);
    var m := Run(p, Initial(), acts);
    UsedUpOutput(p, m.x, m.tags, m.state, m.b);
    if p.tail == 0 || Tiles(m.tags, 0, |m.x|) {
      MachineIsDocumented(p, m);
    } else if GapPads(p, m.b.done + [m.b.cur]) == 0 {
      OnlyBursts(p, m.b.done, m.b.cur);
      BurstsAreTiles(p, m.x, m.tags, m.state, m.b);
    }
  }

  lemma OnlyBursts<T>(p: Params<T>, done: seq<Seg<T>>, cur: Seg<T>)
    requires p.tail > 0 && GapPads(p, done + [cur]) == 0
    ensures cur.Burst? && forall k :: 0 <= k < |done| ==> done[k].Burst?
  {
    assert (done + [cur])[|done|] == cur;
    assert forall k :: 0 <= k < |done| ==> (done + [cur])[k] == done[k];
  }

  /** The same two untagged samples, in one piece or in two, come out with one tail padding or with two. */
  lemma GapsDependOnTheCalls<T>(value: T, a: T, b: T) returns (whole: seq<Act<T>>, split: seq<Act<T>>)
    ensures var p := Params(0, 1, value);
            && IsRun(p, Initial(), whole) && IsRun(p, Initial(), split)
            && Run(p, Initial(), whole).x == Run(p, Initial(), split).x == [a, b]
            && Run(p, Initial(), whole).b.out == [a, b, value]
            && Run(p, Initial(), split).b.out == [a, value, b, value]
  {
    var p := Params(0, 1, value);
    var m := Initial<T>();
    whole, m := RunGap(p, [], m, [a, b]);
    assert m.b.out == [a, b, value];
    m := Initial<T>();
    split, m := RunGap(p, [], m, [a]);
    assert m.b.out == [a, value];
    split, m := RunGap(p, split, m, [b]);
    assert m.b.out == [a, value, b, value] && m.x == [a, b];
  }

  /** Untagged samples arrive and go through, with one tail padding behind them. */
  lemma RunGap<T>(p: Params<T>, acts: seq<Act<T>>, m: Machine<T>, data: seq<T>)
      returns (acts': seq<Act<T>>, m': Machine<T>)
    requires IsRun(p, Initial(), acts) && m == Run(p, Initial(), acts) && p.tail == 1 && m.tags == []
    requires m.state == ClaimPending && |m.x| == m.b.taken && data != []
    ensures IsRun(p, Initial(), acts') && m' == Run(p, Initial(), acts')
    ensures m'.state == ClaimPending && m'.x == m.x + data && m'.tags == [] && m'.b.taken == |m'.x|
    ensures m'.b.out == m.b.out + data + [p.value]
  {
    var m0 := Apply(p, m, Arrive(data, []));
    var m1, m2 := GapClaimed(p, m0, data);
    var m3, m4 := GapCopied(p, m2, data);
    RunSnoc(p, Initial(), acts, Arrive(data, []));
    acts' := acts + [Arrive(data, [])];
    RunSnoc(p, Initial(), acts', ClaimNext);
    acts' := acts' + [ClaimNext];
    RunSnoc(p, Initial(), acts', PassUntagged);
    acts' := acts' + [PassUntagged];
    RunSnoc(p, Initial(), acts', CopySome(|data|));
    acts' := acts' + [CopySome(|data|)];
    RunSnoc(p, Initial(), acts', PadTailSome(1));
    acts', m' := acts' + [PadTailSome(1)], m4;
  }

  lemma GapClaimed<T>(p: Params<T>, m: Machine<T>, data: seq<T>) returns (m1: Machine<T>, m2: Machine<T>)
    requires m.tags == [] && m.state == ClaimPending && m.b.taken + |data| == |m.x| && data != []
    ensures Allowed(m, ClaimNext) && m1 == Apply(p, m, ClaimNext)
    ensures Allowed(m1, PassUntagged) && m2 == Apply(p, m1, PassUntagged)
    ensures m2 == m.(state := Copy(|data|, false), b := m.b.(cur := Gap([])))
  {
    m1 := Apply(p, m, ClaimNext);
    m2 := Apply(p, m1, PassUntagged);
  }

  lemma GapCopied<T>(p: Params<T>, m: Machine<T>, data: seq<T>) returns (m1: Machine<T>, m2: Machine<T>)
    requires p.tail == 1 && m.state == Copy(|data|, false) && m.b.taken + |data| == |m.x|
             && m.x[m.b.taken..] == data != []
    ensures Allowed(m, CopySome(|data|)) && m1 == Apply(p, m, CopySome(|data|))
    ensures Allowed(m1, PadTailSome(1)) && m2 == Apply(p, m1, PadTailSome(1))
    ensures m2.x == m.x && m2.tags == m.tags && m2.state == ClaimPending && m2.b.taken == |m.x|
    ensures m2.b.out == m.b.out + data + [p.value]
  {
    m1 := Apply(p, m, CopySome(|data|));
    assert m.x[m.b.taken..m.b.taken + |data|] == data;
    m2 := Apply(p, m1, PadTailSome(1));
    assert Pads(p.value, 1) == [p.value];
  }

  /** A burst of length 0 stops the block for good: nothing but more input can happen, and no amount of it helps. */
  lemma {:induction false} ZeroLengthBurstSticks<T>(p: Params<T>, m: Machine<T>, acts: seq<Act<T>>)
    requires m.state.Copy? && m.state.left == 0 && IsRun(p, m, acts)
    ensures var m' := Run(p, m, acts); m'.state == m.state && m'.b.out == m.b.out
    decreases |acts|
  {
    if acts != [] {
      ZeroLengthBurstSticks(p, m, acts[..|acts| - 1]);
    }
  }

  // ---- the block

  /** A move of the loop itself: the stream is left alone. */
  predicate Does<T(==)>(p: Params<T>, m: Machine<T>, a: Act<T>, m': Machine<T>) {
    Allowed(m, a) && m' == Apply(p, m, a) && m'.x == m.x && m'.tags == m.tags
  }

  function Rank(s: State): nat {
    match s
    case ClaimPending => 2
    case HaveUntaggedSamples(_) => 1
    case _ => 0
  }

  function Min(a: int, b: int): int {
    if a < b then a else b
  }

  /** Writes data into the output slice behind what is there; `before` is what the output was up to then. */
  method Fill<T>(o: array<T>, at: nat, data: seq<T>, ghost output: seq<T>)
    requires at + |data| <= o.Length
    modifies o
    ensures output + o[..at + |data|] == (output + old(o[..at])) + data
  {
    for k := 0 to |data|
      invariant o[..at + k] == old(o[..at]) + data[..k]
    {
      o[at + k] := data[k];
      assert o[..at + k + 1] == o[..at + k] + [data[k]];
    }
    assert data[..|data|] == data;
  }

  /** The machine in the terms of a call that has consumed this much of `input` and whose output is `out`. */
  predicate InCall<T(==)>(m: Machine<T>, state: State, input: seq<T>, tags: seq<ItemTag<Tag>>, outTags: seq<OutTag>,
                          out: seq<T>, consumed: nat)
  {
    && m.b.taken <= |m.x| && state == m.state && consumed <= |input| && consumed <= m.b.taken
    && input == m.x[m.b.taken - consumed..] && tags == Rebased(m.tags, m.b.taken - consumed)
    && m.b.out == out && outTags == m.b.tags
  }

  lemma CopyInCall<T>(p: Params<T>, m: Machine<T>, n: nat, state: State, input: seq<T>, tags: seq<ItemTag<Tag>>,
                      outTags: seq<OutTag>, out: seq<T>, consumed: nat)
    requires InCall(m, state, input, tags, outTags, out, consumed) && state.Copy?
    requires 0 < n <= state.left && n <= |input| - consumed
    ensures Allowed(m, CopySome(n))
    ensures InCall(Apply(p, m, CopySome(n)),
                   AfterCopy(p, state.left, n), input, tags,
                     outTags + (if state.tagPending then [OutTag(|out|, state.left + p.tail)] else []),
                   out + input[consumed..consumed + n], consumed + n)
  {
    assert input[consumed..consumed + n] == m.x[m.b.taken..m.b.taken + n];
  }

  lemma PadHeadInCall<T>(p: Params<T>, m: Machine<T>, n: nat, state: State, input: seq<T>, tags: seq<ItemTag<Tag>>,
                         outTags: seq<OutTag>, out: seq<T>, consumed: nat)
    requires InCall(m, state, input, tags, outTags, out, consumed) && state.PadHead? && 0 < n <= state.padLeft
    ensures Allowed(m, PadHeadSome(n))
    ensures InCall(Apply(p, m, PadHeadSome(n)),
                   AfterPadHead(state.padLeft, state.originalLen, n), input, tags,
                   outTags + (if state.headTagPending
                              then [OutTag(|out|, state.padLeft + state.originalLen + p.tail)] else []),
                   out + Pads(p.value, n), consumed)
  {
  }

  lemma PadTailInCall<T>(p: Params<T>, m: Machine<T>, n: nat, state: State, input: seq<T>, tags: seq<ItemTag<Tag>>,
                         outTags: seq<OutTag>, out: seq<T>, consumed: nat)
    requires InCall(m, state, input, tags, outTags, out, consumed) && state.PadTail? && 0 < n <= state.tailLeft
    ensures Allowed(m, PadTailSome(n))
    ensures InCall(Apply(p, m, PadTailSome(n)),
                   if n == state.tailLeft then ClaimPending else PadTail(state.tailLeft - n),
                   input, tags, outTags, out + Pads(p.value, n), consumed)
  {
  }

  lemma ClaimInCall<T>(p: Params<T>, m: Machine<T>, state: State, input: seq<T>, tags: seq<ItemTag<Tag>>,
                       outTags: seq<OutTag>, out: seq<T>, consumed: nat)
    requires InCall(m, state, input, tags, outTags, out, consumed) && state.ClaimPending? && consumed < |input|
    ensures Allowed(m, ClaimNext)
    ensures InCall(Apply(p, m, ClaimNext), Claimed(p, tags, consumed, |input|), input, tags, outTags, out, consumed)
  {
    ClaimShift(p, m.tags, m.b.taken - consumed, consumed, |input|);
  }

  lemma UntaggedInCall<T>(p: Params<T>, m: Machine<T>, state: State, input: seq<T>, tags: seq<ItemTag<Tag>>,
                          outTags: seq<OutTag>, out: seq<T>, consumed: nat)
    requires InCall(m, state, input, tags, outTags, out, consumed) && state.HaveUntaggedSamples?
    ensures Allowed(m, PassUntagged)
    ensures InCall(Apply(p, m, PassUntagged), Copy(state.count, false), input, tags, outTags, out, consumed)
  {
  }

  lemma CallEnds<T>(m: Machine<T>, state: State, input: seq<T>, tags: seq<ItemTag<Tag>>, outTags: seq<OutTag>,
                    out: seq<T>, consumed: nat)
    requires InCall(m, state, input, tags, outTags, out, consumed)
    ensures InCall(m, state, input[consumed..], Rebased(tags, consumed), outTags, out, 0)
  {
    RebasedTwice(m.tags, m.b.taken - consumed, consumed);
  }

  lemma ArriveInCall<T>(p: Params<T>, m: Machine<T>, state: State, input: seq<T>, tags: seq<ItemTag<Tag>>,
                        outTags: seq<OutTag>,
                        out: seq<T>, more: seq<T>, moreTags: seq<ItemTag<Tag>>)
    requires InCall(m, state, input, tags, outTags, out, 0) && Sorted(moreTags) && InRange(moreTags, |more|)
    ensures InCall(Apply(p, m, Arrive(more, moreTags)),
                   state, input + more, tags + Placed(moreTags, |input|), outTags, out, 0)
  {
    RebasedConcat(m.tags, Placed(moreTags, |m.x|), m.b.taken);
    RebasedPlaced(moreTags, |m.x|, m.b.taken);
    DropMore(m.x, more, m.b.taken);
  }

  class BurstPad<T> {
    const p: Params<T>
    var state: State
    var input: seq<T>
    var tags: seq<ItemTag<Tag>>
    var output: seq<T>
    var outTags: seq<OutTag>
    var inputFinished: bool
    var finished: bool
    ghost var machine: Machine<T>
    ghost var trace: seq<Act<T>>

    ghost predicate Fits()
      reads this
    {
      InCall(machine, state, input, tags, outTags, output, 0) && (finished ==> inputFinished && input == [])
    }

    /** The block is where its history leads. */
    ghost predicate Valid()
      reads this
    {
      Fits() && IsRun(p, Initial(), trace) && machine == Run(p, Initial(), trace)
    }

    constructor (padHead: nat, padTail: nat, value: T)
      ensures Valid() && p == Params(padHead, padTail, value) && trace == [] && !inputFinished && !finished
    {
      p := Params(padHead, padTail, value);
      state, input, tags, output, outTags, inputFinished, finished := ClaimPending, [], [], [], [], false, false;
      machine, trace := Initial(), [];
    }

    /** Samples arrive, with sorted tags on them. */
    method Feed(more: seq<T>, moreTags: seq<ItemTag<Tag>>)
      requires Valid() && !inputFinished && Sorted(moreTags) && InRange(moreTags, |more|)
      modifies this`input, this`tags, this`machine, this`trace
      ensures Valid() && machine.x == old(machine.x) + more && trace == old(trace) + [Arrive(more, moreTags)]
    {
      ArriveInCall(p, machine, state, input, tags, outTags, output, more, moreTags);
      RunSnoc(p, Initial(), trace, Arrive(more, moreTags));
      tags := tags + Placed(moreTags, |input|);
      input := input + more;
      machine, trace := Apply(p, machine, Arrive(more, moreTags)), trace + [Arrive(more, moreTags)];
    }

    method Close()
      requires Valid()
      modifies this`inputFinished
      ensures Valid() && inputFinished
    {
      inputFinished := true;
    }

    /** The loop's progress within one call. */
    ghost predicate At(o: array<T>, consumed: nat, produced: nat)
      reads this, o
    {
      produced <= o.Length && InCall(machine, state, input, tags, outTags, output + o[..produced], consumed)
    }

    method DoCopy(o: array<T>, left: nat, tagPending: bool, consumed: nat, produced: nat)
      returns (n: nat, ghost a: Act<T>)
      requires At(o, consumed, produced) && state == Copy(left, tagPending)
      modifies this`state, this`outTags, this`machine, o
      ensures At(o, consumed + n, produced + n)
      ensures n == 0 ==> Blocked(state, |input| - consumed, o.Length - produced)
      ensures if n == 0 then machine == old(machine) && state == old(state)
              else Does(p, old(machine), a, machine)
    {
      n := Min(Min(|input| - consumed, o.Length - produced), left);
      a := PassUntagged;
      if n == 0 {
        return;
      }
      CopyInCall(p, machine, n, state, input, tags, outTags, output + o[..produced], consumed);
      a := CopySome(n);
      machine := Apply(p, machine, a);
      if tagPending {
        outTags := outTags + [OutTag(|output| + produced, left + p.tail)];
      }
      Fill(o, produced, input[consumed..consumed + n], output);
      state := AfterCopy(p, left, n);
    }

    method DoPadHead(o: array<T>, left: nat, len: nat, tagPending: bool, consumed: nat, produced: nat)
      returns (n: nat, ghost a: Act<T>)
      requires At(o, consumed, produced) && state == PadHead(left, len, tagPending)
      modifies this`state, this`outTags, this`machine, o
      ensures At(o, consumed, produced + n)
      ensures n == 0 ==> Blocked(state, |input| - consumed, o.Length - produced)
      ensures if n == 0 then machine == old(machine) && state == old(state)
              else Does(p, old(machine), a, machine)
    {
      n := Min(o.Length - produced, left);
      a := PassUntagged;
      if n == 0 {
        return;
      }
      PadHeadInCall(p, machine, n, state, input, tags, outTags, output + o[..produced], consumed);
      a := PadHeadSome(n);
      machine := Apply(p, machine, a);
      if tagPending {
        outTags := outTags + [OutTag(|output| + produced, left + len + p.tail)];
      }
      Fill(o, produced, Pads(p.value, n), output);
      state := AfterPadHead(left, len, n);
    }

    method DoPadTail(o: array<T>, left: nat, consumed: nat, produced: nat)
      returns (n: nat, ghost a: Act<T>)
      requires At(o, consumed, produced) && state == PadTail(left)
      modifies this`state, this`machine, o
      ensures At(o, consumed, produced + n)
      ensures n == 0 ==> Blocked(state, |input| - consumed, o.Length - produced)
      ensures if n == 0 then machine == old(machine) && state == old(state)
              else Does(p, old(machine), a, machine)
    {
      n := Min(o.Length - produced, left);
      a := PassUntagged;
      if n == 0 {
        return;
      }
      PadTailInCall(p, machine, n, state, input, tags, outTags, output + o[..produced], consumed);
      a := PadTailSome(n);
      machine := Apply(p, machine, a);
      Fill(o, produced, Pads(p.value, n), output);
      state := if n == left then ClaimPending else PadTail(left - n);
    }

    method DoUntagged(o: array<T>, count: nat, consumed: nat, produced: nat)
      requires At(o, consumed, produced) && state == HaveUntaggedSamples(count)
      modifies this`state, this`machine
      ensures At(o, consumed, produced) && state == Copy(count, false)
      ensures Does(p, old(machine), PassUntagged, machine)
    {
      UntaggedInCall(p, machine, state, input, tags, outTags, output + o[..produced], consumed);
      machine := Apply(p, machine, PassUntagged);
      state := Copy(count, false);
    }

    method DoClaim(o: array<T>, consumed: nat, produced: nat)
      requires At(o, consumed, produced) && state == ClaimPending && consumed < |input|
      modifies this`state, this`machine
      ensures At(o, consumed, produced) && Rank(state) < 2
      ensures Does(p, old(machine), ClaimNext, machine)
    {
      ClaimInCall(p, machine, state, input, tags, outTags, output + o[..produced], consumed);
      machine := Apply(p, machine, ClaimNext);
      var c := Claim(tags, consumed);
      if c.None? {
        state := HaveUntaggedSamples(|input| - consumed);
      } else if c.value.index > consumed {
        state := HaveUntaggedSamples(c.value.index - consumed);
      } else if p.head > 0 {
        state := PadHead(p.head, c.value.tag.value, true);
      } else {
        state := Copy(c.value.tag.value, true);
      }
    }

    /** The branches that move samples. */
    method Move(o: array<T>, consumed: nat, produced: nat) returns (n: nat, consumed': nat, ghost a: Act<T>)
      requires At(o, consumed, produced) && Rank(state) == 0
      modifies this`state, this`outTags, this`machine, o
      ensures At(o, consumed', produced + n) && consumed <= consumed'
      ensures n > 0 ==> Does(p, old(machine), a, machine)
      ensures n == 0 ==>
              machine == old(machine) && consumed' == consumed
              && Blocked(state, |input| - consumed, o.Length - produced)
    {
      consumed' := consumed;
      if state.Copy? {
        n, a := DoCopy(o, state.left, state.tagPending, consumed, produced);
        consumed' := consumed + n;
      } else if state.PadHead? {
        n, a := DoPadHead(o, state.padLeft, state.originalLen, state.headTagPending, consumed, produced);
      } else {
        n, a := DoPadTail(o, state.tailLeft, consumed, produced);
      }
    }

    /** One turn of the loop; false is `break 'outer`. */
    method Turn(o: array<T>, consumed: nat, produced: nat)
      returns (go: bool, consumed': nat, produced': nat, ghost a: Act<T>)
      requires At(o, consumed, produced)
      modifies this`state, this`outTags, this`machine, o
      ensures At(o, consumed', produced') && consumed <= consumed' && produced <= produced'
      ensures go ==> Does(p, old(machine), a, machine)
      ensures go && consumed' == consumed && produced' == produced ==> Rank(state) < Rank(old(state))
      ensures !go ==> machine == old(machine) && consumed' == consumed && produced' == produced
      ensures !go ==> Blocked(state, |input| - consumed, o.Length - produced)
    {
      consumed', produced' := consumed, produced;
      if state.HaveUntaggedSamples? || state.ClaimPending? {
        go, a := Switch(o, consumed, produced);
      } else {
        var n;
        n, consumed', a := Move(o, consumed, produced);
        go, produced' := n > 0, produced + n;
      }
    }

    /** The branches that only change the state. */
    method Switch(o: array<T>, consumed: nat, produced: nat) returns (go: bool, ghost a: Act<T>)
      requires At(o, consumed, produced) && Rank(state) > 0
      modifies this`state, this`machine
      ensures At(o, consumed, produced)
      ensures go ==> Does(p, old(machine), a, machine) && Rank(state) < Rank(old(state))
      ensures !go ==> machine == old(machine) && Blocked(state, |input| - consumed, o.Length - produced)
    {
      go := true;
      match state {
        case HaveUntaggedSamples(count) =>
          a := PassUntagged;
          DoUntagged(o, count, consumed, produced);
        case ClaimPending =>
          a := ClaimNext;
          if |input| == consumed {
            go := false;
          } else {
            DoClaim(o, consumed, produced);
          }
      }
    }

    /** The loop of `work`. */
    method Loop(o: array<T>) returns (consumed: nat, produced: nat, ghost acts: seq<Act<T>>)
      requires At(o, 0, 0)
      modifies this`state, this`outTags, this`machine, o
      ensures At(o, consumed, produced) && Blocked(state, |input| - consumed, o.Length - produced)
      ensures IsRun(p, old(machine), acts) && machine == Run(p, old(machine), acts)
      ensures machine.x == old(machine.x) && machine.tags == old(machine.tags)
    {
      consumed, produced, acts := 0, 0, [];
      var go := true;
      while go
        invariant At(o, consumed, produced)
        invariant IsRun(p, old(machine), acts) && machine == Run(p, old(machine), acts)
        invariant machine.x == old(machine.x) && machine.tags == old(machine.tags)
        invariant !go ==> Blocked(state, |input| - consumed, o.Length - produced)
        decreases (|input| - consumed) + (o.Length - produced), Rank(state), go
      {
        ghost var a;
        go, consumed, produced, a := Turn(o, consumed, produced);
        if go {
          RunSnoc(p, old(machine), acts, a);
          acts := acts + [a];
        }
      }
    }

    /** Consume, produce, and the finish test. */
    method Conclude(o: array<T>, consumed: nat, produced: nat)
      requires At(o, consumed, produced) && !finished
      modifies this`input, this`tags, this`output, this`finished
      ensures Fits() && output == old(output) + o[..produced] && input == old(input)[consumed..]
      ensures finished <==> inputFinished && input == []
    {
      CallEnds(machine, state, input, tags, outTags, output + o[..produced], consumed);
      if inputFinished && consumed == |input| {
        finished := true;
      }
      input := input[consumed..];
      tags := Rebased(tags, consumed);
      output := output + o[..produced];
    }

    /** The loop, with the history brought up to date. */
    method Pump(o: array<T>) returns (consumed: nat, produced: nat)
      requires Valid()
      modifies this`state, this`outTags, this`machine, this`trace, o
      ensures At(o, consumed, produced) && Blocked(state, |input| - consumed, o.Length - produced)
      ensures IsRun(p, Initial(), trace) && machine == Run(p, Initial(), trace) && old(trace) <= trace
      ensures machine.x == old(machine.x) && machine.tags == old(machine.tags)
    {
      assert output + o[..0] == output;
      ghost var acts;
      consumed, produced, acts := Loop(o);
      Adopt(old(machine), acts);
    }

    /** The history goes on with what the loop did. */
    ghost method Adopt(before: Machine<T>, acts: seq<Act<T>>)
      requires IsRun(p, Initial(), trace) && before == Run(p, Initial(), trace)
      requires IsRun(p, before, acts) && machine == Run(p, before, acts)
      modifies this`trace
      ensures old(trace) <= trace && IsRun(p, Initial(), trace) && machine == Run(p, Initial(), trace)
    {
      RunConcat(p, Initial(), trace, before, acts);
      trace := trace + acts;
    }

    /** The loop and what follows it. */
    method Call(o: array<T>)
      requires Valid() && !finished
      modifies this`state, this`input, this`tags, this`output, this`outTags, this`finished, this`machine, this`trace, o
      ensures Valid() && old(trace) <= trace && old(output) <= output && |output| <= |old(output)| + o.Length
      ensures machine.x == old(machine.x) && machine.tags == old(machine.tags)
      ensures finished <==> inputFinished && input == []
      ensures Blocked(state, |input|, o.Length + |old(output)| - |output|)
    {
      var consumed, produced := Pump(o);
      Conclude(o, consumed, produced);
    }

    /** `work` on a call whose output slice is `o`: it goes on until the state cannot. With room left over it has used
        up its input, unless a burst of length 0 is in its way; if it finishes, and the tail padding is 0 or bursts
        tile the stream, the output is complete exactly if the room was enough for the rest of the documented stream. */
    method Work(o: array<T>)
      requires Valid() && !finished
      modifies this`state, this`input, this`tags, this`output, this`outTags, this`finished, this`machine, this`trace, o
      ensures Valid() && old(trace) <= trace && old(output) <= output && |output| <= |old(output)| + o.Length
      ensures machine.x == old(machine.x) && machine.tags == old(machine.tags)
      ensures finished <==> inputFinished && input == []
      ensures Blocked(state, |input|, o.Length + |old(output)| - |output|)
      ensures |output| < |old(output)| + o.Length ==> (input == [] <==> !Sticks(machine.tags, 0, |machine.x|))
      ensures finished && (p.tail == 0 || Tiles(machine.tags, 0, |machine.x|)) ==>
                var ideal := Ideal(p, machine.x, machine.tags, 0);
                (output == ideal <==> |ideal| <= |old(output)| + o.Length) && (output == ideal <==> !state.PadTail?)
    {
      Call(o);
      EveryRun(p, trace);
      AfterWork(p, machine, |input|, o.Length + |old(output)| - |output|);
    }
  }

  /** What a blocked state says about the stream. */
  lemma AfterWork<T>(p: Params<T>, m: Machine<T>, unread: nat, room: nat)
    requires MachineOk(p, m) && m.b.taken + unread == |m.x| && Blocked(m.state, unread, room)
    ensures room > 0 ==> (unread == 0 <==> !Sticks(m.tags, 0, |m.x|))
    ensures unread == 0 && (p.tail == 0 || Tiles(m.tags, 0, |m.x|)) ==>
              var ideal := Ideal(p, m.x, m.tags, 0);
              (m.b.out == ideal <==> |ideal| <= |m.b.out| + room) && (m.b.out == ideal <==> !m.state.PadTail?)
  {
    if room > 0 {
      BlockedWhen(p, m.x, m.tags, m.state, m.b, room);
    }
    if unread == 0 && (p.tail == 0 || Tiles(m.tags, 0, |m.x|)) {
      MachineIsDocumented(p, m);
      CompleteWhen(p, m, |m.b.out| + room);
    }
  }

  /** Used up and blocked, with the pads of a tail owed exactly if the room is full. */
  lemma CompleteWhen<T>(p: Params<T>, m: Machine<T>, room: nat)
    requires MachineOk(p, m) && m.b.taken == |m.x| && |m.b.out| <= room && Blocked(m.state, 0, room - |m.b.out|)
    requires m.b.out + Owed(p, m.state) == Ideal(p, m.x, m.tags, 0)
    ensures var ideal := Ideal(p, m.x, m.tags, 0);
            (m.b.out == ideal <==> |ideal| <= room) && (m.b.out == ideal <==> !m.state.PadTail?)
  {
    assert m.b.out + [] == m.b.out;
    assert |Ideal(p, m.x, m.tags, 0)| == |m.b.out| + |Owed(p, m.state)|;
  }

  /** A burst of one sample with one tail pad: with room for the sample only, the block finishes and the pad is
      missing. */
  method TailIsCutOff<T>(value: T, a: T) returns (d: BurstPad<T>)
    ensures fresh(d) && d.Valid() && d.finished && d.output == [a]
    ensures Ideal(d.p, d.machine.x, d.machine.tags, 0) == [a, value]
  {
    d := new BurstPad(0, 1, value);
    d.Feed([a], [ItemTag(0, NamedUsize("burst_start", 1))]);
    d.Close();
    var o := new T[1](_ => value);
    ghost var m := d.machine;
    OneBurst(d.p, m, a);
    d.Work(o);
    EveryRun(d.p, d.trace);
    OneSampleIsRead(d.p, d.machine, 1);
  }

  lemma OneBurst<T>(p: Params<T>, m: Machine<T>, a: T)
    requires p.head == 0 && p.tail == 1
             && m == Apply(p, Initial(), Arrive([a], [ItemTag(0, NamedUsize("burst_start", 1))]))
    ensures m.x == [a] && BurstAt(m.tags, 0) == Some(1) && Tiles(m.tags, 0, 1)
            && Ideal(p, m.x, m.tags, 0) == [a, p.value]
  {
  }

  /** Blocked with room for one sample in all, the block has read and output the one sample there is. */
  lemma OneSampleIsRead<T>(p: Params<T>, m: Machine<T>, room: nat)
    requires MachineOk(p, m) && p.head == 0 && |m.x| == 1 && BurstAt(m.tags, 0) == Some(1)
    requires |m.b.out| <= 1 && Blocked(m.state, 1 - m.b.taken, 1 - |m.b.out|)
    ensures m.b.taken == 1 && m.b.out == m.x
  {
  }

  /** A burst of length 0 is reached: the block waits for samples of it. */
  lemma ZeroLengthBurstIsReached<T>(value: T, a: T) returns (acts: seq<Act<T>>)
    ensures var p := Params(0, 0, value);
            IsRun(p, Initial(), acts) && Run(p, Initial(), acts).state == Copy(0, true)
              && Run(p, Initial(), acts).x == [a]
  {
    var p := Params(0, 0, value);
    var arrive := Arrive([a], [ItemTag(0, NamedUsize("burst_start", 0))]);
    RunSnoc(p, Initial(), [], arrive);
    ZeroLengthClaimed(p, Apply(p, Initial(), arrive));
    RunSnoc(p, Initial(), [] + [arrive], ClaimNext);
    acts := [] + [arrive] + [ClaimNext];
  }

  lemma ZeroLengthClaimed<T>(p: Params<T>, m: Machine<T>)
    requires m.state == ClaimPending && m.b.taken == 0 && |m.x| == 1 && p.head == 0
    requires m.tags == [ItemTag(0, NamedUsize("burst_start", 0))]
    ensures Allowed(m, ClaimNext) && Apply(p, m, ClaimNext).state == Copy(0, true) && Apply(p, m, ClaimNext).x == m.x
  {
    assert Claim(m.tags, 0) == Some(m.tags[0]);
  }

  /** Nothing more can be done with this much input and room. */
  predicate Blocked(s: State, unread: int, room: int) {
    match s
    case ClaimPending => unread == 0
    case HaveUntaggedSamples(_) => false
    case PadHead(left, _, _) => left == 0 || room == 0
    case PadTail(left) => left == 0 || room == 0
    case Copy(left, _) => left == 0 || unread == 0 || room == 0
  }

  lemma DropMore<T>(x: seq<T>, more: seq<T>, n: nat)
    requires n <= |x|
    ensures (x + more)[n..] == x[n..] + more
  {
  }

  lemma FeedFits<T>(p: Params<T>, fed: seq<T>, more: seq<T>, tags: seq<ItemTag<Tag>>, moreTags: seq<ItemTag<Tag>>,
                    state: State, b: Book<T>)
    requires Good(p, fed, tags, state, b) && Sorted(tags) && InRange(tags, |fed|)
    requires Sorted(moreTags) && InRange(moreTags, |more|)
    ensures var placed := Placed(moreTags, |fed|);
            && Good(p, fed + more, tags + placed, state, b)
            && Sorted(tags + placed) && InRange(tags + placed, |fed + more|)
  {
    PlacedFits(moreTags, |fed|, |more|);
    GoodExtends(p, fed, more, tags, Placed(moreTags, |fed|), state, b);
    SortedConcat(tags, Placed(moreTags, |fed|), |fed|, |fed + more|);
  }
}
