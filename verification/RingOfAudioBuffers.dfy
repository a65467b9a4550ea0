/**
 The ring of the audio blocks sent last (common/RingOfAudioBuffers.h). One slot of the
 array is always unused, so a ring of capacity n remembers n - 1 blocks.
 */
module Rings {
  import opened Packets

  /** The last `n` elements. */
  function Newest<T>(s: seq<T>, n: nat): (r: seq<T>)
    ensures |r| == if |s| <= n then |s| else n
    ensures |r| > 0 ==> r[|r| - 1] == s[|s| - 1]
  {
    if |s| <= n then s else s[|s| - n..]
  }

  /** They come in their order. */
  lemma NewestAt<T>(s: seq<T>, n: nat, i: nat)
    requires i < |Newest(s, n)|
    ensures Newest(s, n)[i] == s[|s| - |Newest(s, n)| + i]
  {}

  lemma NewestOfNewest<T>(s: seq<T>, x: T, n: nat)
    ensures Newest(Newest(s, n) + [x], n) == Newest(s + [x], n)
  {}

  /** The slots from `head` up to `end`, around the end of the array. */
  function Unrolled<T>(slots: seq<T>, head: nat, end: nat): (s: seq<T>)
    requires head < |slots| && end < |slots|
    ensures |s| == if head <= end then end - head else end - head + |slots|
    ensures |s| < |slots|
  {
    if head <= end then slots[head..end] else slots[head..] + slots[..end]
  }

  /** Where the `i`-th element is. */
  function Slot(length: nat, head: nat, i: nat): (k: nat)
    requires head < length && i < length
    ensures k < length
  {
    if head + i < length then head + i else head + i - length
  }

  lemma UnrolledAt<T>(slots: seq<T>, head: nat, end: nat, i: nat)
    requires head < |slots| && end < |slots| && i < |Unrolled(slots, head, end)|
    ensures Unrolled(slots, head, end)[i] == slots[Slot(|slots|, head, i)]
  {}

  function Following(length: nat, index: nat): (next: nat)
    requires index < length
    ensures next < length
  {
    if index + 1 == length then 0 else index + 1
  }

  /** A push into a ring with a free slot appends the element. */
  lemma PushAppends<T>(slots: seq<T>, head: nat, end: nat, x: T)
    requires head < |slots| && end < |slots| && Following(|slots|, end) != head
    ensures Unrolled(slots[end := x], head, Following(|slots|, end)) == Unrolled(slots, head, end) + [x]
  {
    var next := Following(|slots|, end);
    var r, s := Unrolled(slots[end := x], head, next), Unrolled(slots, head, end);
    assert |r| == |s| + 1;
    hide Unrolled;
    forall i | 0 <= i < |r| ensures r[i] == (s + [x])[i] {
      UnrolledAt(slots[end := x], head, next, i);
      if i < |s| {
        UnrolledAt(slots, head, end, i);
      }
    }
  }

  /** A push into a full ring also drops the oldest element. */
  lemma PushDropsOldest<T>(slots: seq<T>, head: nat, end: nat, x: T)
    requires head < |slots| && end < |slots| && Following(|slots|, end) == head
    ensures Unrolled(slots[end := x], Following(|slots|, head), head) == (Unrolled(slots, head, end) + [x])[1..]
  {
    var oldest := Following(|slots|, head);
    var r, s := Unrolled(slots[end := x], oldest, head), Unrolled(slots, head, end);
    assert |r| == |s|;
    hide Unrolled;
    forall i | 0 <= i < |r| ensures r[i] == (s + [x])[1..][i] {
      UnrolledAt(slots[end := x], oldest, head, i);
      if i + 1 < |s| {
        UnrolledAt(slots, head, end, i + 1);
      }
    }
  }

  class RingOfAudioBuffers<T(0)> {
    const data: array<T>
    var endIndex: int
    var headIndex: int

    ghost predicate Valid()
      reads this
    {
      && data.Length > 0
      && 0 <= endIndex < data.Length
      && 0 <= headIndex < data.Length
    }

    ghost function Contents(): (s: seq<T>)
      requires Valid()
      reads this, data
    {
      Unrolled(data[..], headIndex, endIndex)
    }

    constructor (capacity: nat)
      requires capacity > 0
      ensures Valid() && Contents() == [] && data.Length == capacity && fresh(data)
    {
      data := new T[capacity];
      endIndex, headIndex := 0, 0;
    }

    predicate IsEmpty()
      requires Valid()
      reads this, data
      ensures IsEmpty() <==> Contents() == []
    {
      endIndex == headIndex
    }

    method Push(audioBuffer: T)
      requires Valid()
      modifies this, data
      ensures Valid()
      ensures Contents() == Newest(old(Contents()) + [audioBuffer], data.Length - 1)
    {
      hide Unrolled;
      if Following(data.Length, endIndex) == headIndex {
        PushDropsOldest(data[..], headIndex, endIndex, audioBuffer);
      } else {
        PushAppends(data[..], headIndex, endIndex, audioBuffer);
      }
      data[endIndex] := audioBuffer;
      endIndex := IncIndex(endIndex);
      if endIndex == headIndex {
        headIndex := IncIndex(headIndex);
      }
    }

    /** `None` stands for a new, default-constructed element. */
    method GetLast() returns (last: Option<T>)
      requires Valid()
      ensures last == if Contents() == [] then None else Some(Contents()[|Contents()| - 1])
    {
      if IsEmpty() {
        return None;
      }
      var readIndex := endIndex - 1;
      if readIndex < 0 {
        readIndex := readIndex + data.Length;
      }
      UnrolledAt(data[..], headIndex, endIndex, |Contents()| - 1);
      return Some(data[readIndex]);
    }

    method GetNthLast(n: int) returns (nthLast: Option<T>)
      requires Valid()
      ensures var back := if n < 0 then 0 else n;
        nthLast == if back < |Contents()| then Some(Contents()[|Contents()| - 1 - back]) else None
    {
      if IsEmpty() {
        return None;
      }
      var readIndex := endIndex - 1;
      if readIndex < 0 {
        readIndex := readIndex + data.Length;
      }
      var count := 0;
      while count < n
        invariant 0 <= count < |Contents()|
        invariant n >= 0 ==> count <= n
        invariant n < 0 ==> count == 0
        invariant readIndex == Slot(data.Length, headIndex, |Contents()| - 1 - count)
      {
        if readIndex == headIndex {
          return None;
        }
        readIndex := readIndex - 1;
        if readIndex < 0 {
          readIndex := readIndex + data.Length;
        }
        count := count + 1;
      }
      UnrolledAt(data[..], headIndex, endIndex, |Contents()| - 1 - count);
      return Some(data[readIndex]);
    }

    function IncIndex(index: int): (next: int)
      requires Valid() && 0 <= index < data.Length
      reads this
      ensures next == Following(data.Length, index)
    {
      (index + 1) % data.Length
    }
  }
}
