/** The sensor event ring: one writer of whole kernel reads, one reader of single events.
    The backing store is twice the capacity so that a read may run past the end before
    its tail is copied back to the front. */
module EventRing {
  const EVENT_SIZE: nat := 24
  const EINVAL: int := 22

  /** What read(2) did: an error, or some whole events and a residue of fewer than
      24 bytes, which leave the next slot torn. */
  datatype ReadResult<E> = Failed(errno: int) | Bytes(whole: seq<E>, residue: nat, torn: E) {
    ghost predicate Within(freeSpace: nat) {
      && (Failed? ==> errno > 0)
      && (Bytes? ==> residue < EVENT_SIZE &&
                     EVENT_SIZE * |whole| + residue <= EVENT_SIZE * freeSpace)
    }
  }

  ghost function Slot(capacity: nat, i: nat): nat
    requires i < 2 * capacity
  {
    if i < capacity then i else i - capacity
  }

  /** n events from `start` on, going round at the end of the first half of the store. */
  ghost function Window<E>(store: seq<E>, capacity: nat, start: nat, n: nat): (s: seq<E>)
    requires |store| == 2 * capacity && n <= capacity && (start < capacity || start == capacity == 0)
    ensures |s| == n
    ensures forall i :: 0 <= i < n ==> s[i] == store[Slot(capacity, start + i)]
  {
    seq(n, i requires 0 <= i < n => store[Slot(capacity, start + i)])
  }

  /** `store` is `before` with what was written past the end of the first half at the
      head, `n` events of it in all, copied to the front. */
  ghost predicate TailCopied<E>(before: seq<E>, store: seq<E>, capacity: nat, head: nat, n: nat)
    requires |before| == |store| == 2 * capacity && head <= capacity && n <= capacity
  {
    if head + n <= capacity then store == before
    else store == before[capacity..head + n] + before[head + n - capacity..]
  }

  ghost predicate WrittenAt<E>(store: seq<E>, head: nat, whole: seq<E>) {
    head + |whole| <= |store| && store[head..head + |whole|] == whole
  }

  ghost predicate IsHead(capacity: nat, start: nat, n: nat, head: nat) {
    && n <= capacity && head <= capacity
    && (start < capacity || start == capacity == 0)
    && (head == start + n || head + capacity == start + n || (start + n == 0 && head == capacity))
  }

  lemma HeadInStore(capacity: nat, start: nat, unread: nat, head: nat)
    requires IsHead(capacity, start, unread, head)
    ensures head <= capacity && (start < capacity || start == capacity == 0)
  {
  }

  lemma HeadMoves(capacity: nat, start: nat, unread: nat, head: nat, n: nat)
    requires IsHead(capacity, start, unread, head) && unread + n <= capacity
    ensures IsHead(capacity, start, unread + n, if head + n > capacity then head + n - capacity else head + n)
  {
  }

  /** Writes into the free space at the head leave the window alone. */
  lemma {:induction false} WindowUntouched<E>(before: seq<E>, store: seq<E>, capacity: nat, start: nat, n: nat,
                                              head: nat)
    requires |before| == |store| == 2 * capacity
    requires IsHead(capacity, start, n, head)
    requires forall j :: 0 <= j < |store| && !(head <= j < head + capacity - n) ==> store[j] == before[j]
    ensures Window(store, capacity, start, n) == Window(before, capacity, start, n)
  {
  }

  /** Events written behind the window, with what ran past the end copied to the front,
      extend the window and leave what was in it. */
  lemma {:induction false} WindowExtends<E>(before: seq<E>, store: seq<E>, capacity: nat, start: nat, n: nat,
                                            head: nat, whole: seq<E>)
    requires |before| == |store| == 2 * capacity && IsHead(capacity, start, n, head) && n + |whole| <= capacity
    requires WrittenAt(before, head, whole)
    requires TailCopied(before, store, capacity, head, |whole|)
    ensures Window(store, capacity, start, n + |whole|) == Window(before, capacity, start, n) + whole
  {
  }

  class InputEventCircularReader<Event(0)> {
    const buffer: array<Event>
    const capacity: nat
    var head: nat
    var curr: nat
    var freeSpace: nat

    /** The head may rest at `capacity`; it is then the same place as slot 0. */
    ghost predicate Valid()
      reads this
    {
      && buffer.Length == 2 * capacity
      && freeSpace <= capacity
      && IsHead(capacity, curr, capacity - freeSpace, head)
    }

    /** The unread events, oldest first. */
    ghost function Contents(): (s: seq<Event>)
      requires Valid()
      reads this, buffer
    {
      Window(buffer[..], capacity, curr, capacity - freeSpace)
    }

    constructor (numEvents: nat)
      ensures Valid() && fresh(buffer)
      ensures capacity == numEvents && Contents() == []
    {
      buffer := new Event[numEvents * 2];
      capacity := numEvents;
      head, curr, freeSpace := 0, 0, numEvents;
      new;
      assert IsHead(capacity, curr, 0, head);
    }

    /** The bytes of whole events that read(2) copies to the head. */
    method CopyIn(whole: seq<Event>)
      requires Valid() && |whole| <= freeSpace
      modifies buffer
      ensures buffer[head..head + |whole|] == whole
      ensures forall j :: 0 <= j < buffer.Length && !(head <= j < head + |whole|) ==> buffer[j] == old(buffer[j])
    {
      for k := 0 to |whole|
        modifies buffer
        invariant forall j :: head <= j < head + k ==> buffer[j] == whole[j - head]
        invariant forall j :: 0 <= j < buffer.Length && !(head <= j < head + k) ==> buffer[j] == old(buffer[j])
      {
        buffer[head + k] := whole[k];
      }
      assert forall j :: 0 <= j < |whole| ==> buffer[head..head + |whole|][j] == whole[j];
    }

    /** What read(2) leaves at the head, whether or not the read is accepted. */
    method KernelWrite(input: ReadResult<Event>)
      requires Valid() && input.Within(freeSpace)
      modifies buffer
      ensures Contents() == old(Contents())
      ensures input.Bytes? ==> buffer[head..head + |input.whole|] == input.whole
    {
      ghost var before := buffer[..];
      if input.Bytes? {
        CopyIn(input.whole);
        if input.residue > 0 {
          buffer[head + |input.whole|] := input.torn;
        }
      }
      WindowUntouched(before, buffer[..], capacity, curr, capacity - freeSpace, head);
    }

    method Fill(input: ReadResult<Event>) returns (n: int)
      requires Valid() && input.Within(freeSpace)
      modifies this, buffer
      ensures Valid()
      ensures old(freeSpace) == 0 ==> n == 0 && Contents() == old(Contents())
      ensures old(freeSpace) > 0 && input.Failed? ==>
                n == -input.errno && Contents() == old(Contents())
      ensures old(freeSpace) > 0 && input.Bytes? && input.residue > 0 ==>
                n == -EINVAL && Contents() == old(Contents())
      ensures old(freeSpace) > 0 && input.Bytes? && input.residue == 0 ==>
                n == |input.whole| && Contents() == old(Contents()) + input.whole
    {
      if freeSpace == 0 {
        return 0;
      }
      KernelWrite(input);
      if input.Failed? {
        return -input.errno;
      }
      if (EVENT_SIZE * |input.whole| + input.residue) % EVENT_SIZE != 0 {
        return -EINVAL;
      }
      n := |input.whole|;
      Advance(input.whole, n);
    }

    /** The first n slots past the end go to the front. */
    method CopyBack(ghost before: seq<Event>, n: nat)
      requires n <= capacity && buffer.Length == 2 * capacity && before == buffer[..]
      modifies buffer
      ensures buffer[..] == before[capacity..capacity + n] + before[n..]
    {
      for k := 0 to n
        modifies buffer
        invariant forall j :: 0 <= j < k ==> buffer[j] == before[capacity + j]
        invariant forall j :: k <= j < buffer.Length ==> buffer[j] == before[j]
      {
        buffer[k] := buffer[capacity + k];
      }
    }

    /** Moves the head over the events just read and copies what lies beyond
        the end back to the front. */
    method Advance(ghost whole: seq<Event>, n: nat)
      requires Valid() && n == |whole| <= freeSpace && WrittenAt(buffer[..], head, whole)
      modifies this, buffer
      ensures Valid() && Contents() == old(Contents()) + whole
    {
      ghost var before, start, unread := buffer[..], head, capacity - freeSpace;
      assert WrittenAt(before, start, whole);
      HeadInStore(capacity, curr, unread, start);
      hide Window, IsHead, TailCopied, WrittenAt;
      HeadMoves(capacity, curr, unread, start, n);
      MoveHead(before, n);
      WindowExtends(before, buffer[..], capacity, curr, unread, start, whole);
    }

    method MoveHead(ghost before: seq<Event>, n: nat)
      requires buffer.Length == 2 * capacity && head <= capacity && n <= freeSpace <= capacity && before == buffer[..]
      modifies this, buffer
      ensures head == (if old(head) + n > capacity then old(head) + n - capacity else old(head) + n)
      ensures freeSpace == old(freeSpace) - n && curr == old(curr)
      ensures TailCopied(before, buffer[..], capacity, old(head), n)
    {
      if n != 0 {
        head := head + n;
        freeSpace := freeSpace - n;
        if head > capacity {
          CopyBack(before, head - capacity);
          head := head - capacity;
        }
      }
    }

    method ReadEvent() returns (available: int, slot: nat)
      requires Valid()
      ensures available == if Contents() == [] then 0 else 1
      ensures available == 1 ==> slot < buffer.Length && buffer[slot] == Contents()[0]
    {
      slot := curr;
      available := if capacity - freeSpace != 0 then 1 else 0;
      assert available == 1 ==> Contents()[0] == buffer[Slot(capacity, curr + 0)];
    }

    method Next()
      requires Valid() && Contents() != []
      modifies this
      ensures Valid() && Contents() == old(Contents())[1..]
    {
      curr := curr + 1;
      freeSpace := freeSpace + 1;
      if curr >= capacity {
        curr := 0;
      }
      forall i | 0 <= i < |Contents()| ensures Contents()[i] == old(Contents())[i + 1] {
        assert Slot(capacity, curr + i) == Slot(capacity, old(curr) + i + 1);
      }
    }
  }
}
