/** The circular queue of lesson_5/medium_1/4.rb: a fixed row of slots,
    nil for an empty one. `enqueue` rotates the row left by one and writes
    into the last slot; `dequeue` empties the first occupied slot. */
module CircularBuffer {
  import opened Util

  // ---------------------------------------------------------------
  // The row of slots as a value

  /** The elements held, oldest first: the occupied slots from left to
      right. */
  function Present<T>(s: seq<Option<T>>): (r: seq<T>)
    ensures |r| <= |s|
  {
    if |s| == 0 then []
    else (if s[0].Some? then [s[0].value] else []) + Present(s[1..])
  }

  /** The occupied slots form a block at the right end of the row: no
      empty slot follows an occupied one. */
  ghost predicate Shaped<T>(s: seq<Option<T>>) {
    forall i, j :: 0 <= i < j < |s| && s[i].Some? ==> s[j].Some?
  }

  /** The index of the first occupied slot, or the length when there is
      none. */
  function FirstOccupied<T>(s: seq<Option<T>>): (r: nat)
    ensures r <= |s|
    ensures forall j :: 0 <= j < r ==> s[j].None?
    ensures r < |s| ==> s[r].Some?
  {
    if |s| == 0 then 0
    else if s[0].Some? then 0
    else 1 + FirstOccupied(s[1..])
  }

  /** `oldest_element_index`: the first occupied slot, or 0 when every
      slot is empty. */
  function OldestIndex<T>(s: seq<Option<T>>): nat {
    if FirstOccupied(s) < |s| then FirstOccupied(s) else 0
  }

  /** The row after `enqueue(e)`: rotated left by one, then `e` in the
      last slot. */
  function Enqueued<T>(s: seq<Option<T>>, e: T): seq<Option<T>>
    requires |s| > 0
  {
    s[1..] + [Some(e)]
  }

  /** What `dequeue` returns: the slot at the oldest index, nil when the
      row is empty. */
  function Oldest<T>(s: seq<Option<T>>): Option<T> {
    if |s| == 0 then None else s[OldestIndex(s)]
  }

  /** The row after `dequeue`: the slot at the oldest index set to nil.
      Ruby's index assignment grows an empty row to `[nil]`. */
  function Dequeued<T>(s: seq<Option<T>>): seq<Option<T>> {
    if |s| == 0 then [None] else s[OldestIndex(s) := None]
  }

  lemma {:induction false} PresentAppend<T>(a: seq<Option<T>>, b: seq<Option<T>>)
    ensures Present(a + b) == Present(a) + Present(b)
    decreases |a|
  {
    if |a| == 0 {
      assert a + b == b;
    } else {
      assert (a + b)[0] == a[0] && (a + b)[1..] == a[1..] + b;
      PresentAppend(a[1..], b);
    }
  }

  lemma {:induction false} PresentEmpty<T>(s: seq<Option<T>>)
    requires forall j :: 0 <= j < |s| ==> s[j].None?
    ensures Present(s) == []
    decreases |s|
  {
    if |s| > 0 {
      PresentEmpty(s[1..]);
    }
  }

  lemma {:induction false} PresentFull<T>(s: seq<Option<T>>)
    requires forall j :: 0 <= j < |s| ==> s[j].Some?
    ensures |Present(s)| == |s|
    decreases |s|
  {
    if |s| > 0 {
      PresentFull(s[1..]);
    }
  }

  /** A row of occupied slots is split at its first occupied slot: the
      elements held are that slot's and then those of the slots after
      it. */
  lemma {:induction false} PresentFromFirst<T>(s: seq<Option<T>>)
    requires FirstOccupied(s) < |s|
    ensures Present(s) == [s[FirstOccupied(s)].value] + Present(s[FirstOccupied(s) + 1..])
  {
    var k := FirstOccupied(s);
    assert s == s[..k] + s[k..];
    PresentAppend(s[..k], s[k..]);
    PresentEmpty(s[..k]);
    var rest := s[k..];
    assert rest[0] == s[k] && rest[1..] == s[k + 1..];
    assert Present(rest) == [s[k].value] + Present(rest[1..]);
  }

  /** `Array.new(n)`: n nil slots. */
  function EmptySlots<T>(n: nat): (s: seq<Option<T>>)
    ensures |s| == n && forall j :: 0 <= j < n ==> s[j].None?
  {
    seq(n, _ => None)
  }

  /** n empty slots hold nothing, in the right shape. */
  lemma {:induction false} EmptyRow<T>(n: nat)
    ensures Shaped(EmptySlots<T>(n))
    ensures Present(EmptySlots<T>(n)) == []
  {
    PresentEmpty(EmptySlots<T>(n));
  }

  /** `enqueue` keeps the shape and appends the element; into a full row
      it first drops the oldest element. */
  lemma {:induction false} EnqueueIsFifo<T>(s: seq<Option<T>>, e: T)
    requires |s| > 0 && Shaped(s)
    ensures Shaped(Enqueued(s, e))
    ensures |Present(s)| < |s| ==> Present(Enqueued(s, e)) == Present(s) + [e]
    ensures |Present(s)| == |s| ==> Present(Enqueued(s, e)) == Present(s)[1..] + [e]
  {
    var t := Enqueued(s, e);
    assert forall i :: 0 <= i < |s| - 1 ==> t[i] == s[i + 1];
    PresentAppend(s[1..], [Some(e)]);
    assert Present([Some(e)]) == [e] by {
      assert [Some(e)][1..] == [];
    }
    if s[0].Some? {
      assert forall j :: 0 <= j < |s| ==> s[j].Some?;
      PresentFull(s);
      assert Present(s) == [s[0].value] + Present(s[1..]);
    } else {
      assert Present(s) == Present(s[1..]);
    }
  }

  /** `dequeue` of a row holding something returns the oldest element and
      removes it, keeping the shape. */
  lemma {:induction false} DequeueIsFifo<T>(s: seq<Option<T>>)
    requires Shaped(s) && |Present(s)| > 0
    ensures Oldest(s) == Some(Present(s)[0])
    ensures Shaped(Dequeued(s))
    ensures Present(Dequeued(s)) == Present(s)[1..]
  {
    var k := FirstOccupied(s);
    if k == |s| {
      PresentEmpty(s);
    }
    PresentFromFirst(s);
    var t := Dequeued(s);
    assert t == s[..k] + [None] + s[k + 1..];
    PresentAppend(s[..k] + [None], s[k + 1..]);
    PresentAppend(s[..k], [None]);
    PresentEmpty(s[..k]);
    assert Present<T>([None]) == [];
  }

  /** `dequeue` of a row holding nothing returns nil and leaves the row
      as it was, apart from an empty row, which grows one empty slot. */
  lemma {:induction false} DequeueNothing<T>(s: seq<Option<T>>)
    requires Present(s) == []
    ensures Oldest(s) == None
    ensures |s| > 0 ==> Dequeued(s) == s
    ensures |s| == 0 ==> Dequeued(s) == [None] && Present(Dequeued(s)) == []
  {
    if FirstOccupied(s) < |s| {
      PresentFromFirst(s);
    }
    assert Present<T>([None]) == [];
  }

  // ---------------------------------------------------------------
  // The object

  class CircularQueue<T> {
    var slots: seq<Option<T>>

    /** The elements held, oldest first. */
    function Contents(): seq<T>
      reads this
    {
      Present(slots)
    }

    ghost predicate Valid()
      reads this
    {
      Shaped(slots)
    }

    /** `initialize(n)`: n empty slots. */
    constructor (n: nat)
      ensures Valid() && Contents() == []
      ensures slots == EmptySlots(n)
    {
      slots := EmptySlots(n);
      EmptyRow<T>(n);
    }

    /** `enqueue(element)`: on an empty row Ruby raises IndexError writing
        the last slot, after the rotation has left the row as it was. */
    method Enqueue(element: T) returns (raised: bool)
      requires Valid()
      modifies this
      ensures Valid()
      ensures raised <==> |old(slots)| == 0
      ensures raised ==> slots == old(slots)
      ensures !raised ==> slots == Enqueued(old(slots), element)
      ensures |slots| == |old(slots)|
      ensures !raised && |old(Contents())| < |slots| ==> Contents() == old(Contents()) + [element]
      ensures !raised && |old(Contents())| == |slots| ==> Contents() == old(Contents())[1..] + [element]
    {
      if |slots| == 0 {
        return true;
      }
      EnqueueIsFifo(slots, element);
      slots := slots[1..] + [Some(element)];
      raised := false;
    }

    /** `oldest_element_index`: the first occupied slot found by walking
        the row, 0 when there is none. */
    method OldestElementIndex() returns (idx: nat)
      ensures idx == OldestIndex(slots)
      ensures idx < |slots| && slots[idx].Some? ==> forall j :: 0 <= j < idx ==> slots[j].None?
      ensures (exists j :: 0 <= j < |slots| && slots[j].Some?) ==> idx < |slots| && slots[idx].Some?
    {
      var i := 0;
      while i < |slots|
        invariant 0 <= i <= |slots|
        invariant forall j :: 0 <= j < i ==> slots[j].None?
      {
        if slots[i].Some? {
          FirstIs(slots, i);
          return i;
        }
        i := i + 1;
      }
      FirstIs(slots, i);
      return 0;
    }

    /** `dequeue`: the slot at the oldest index is returned and set to
        nil. */
    method Dequeue() returns (oldest: Option<T>)
      requires Valid()
      modifies this
      ensures Valid()
      ensures oldest == Oldest(old(slots)) && slots == Dequeued(old(slots))
      ensures |old(slots)| > 0 ==> |slots| == |old(slots)|
      ensures |old(Contents())| > 0 ==> oldest == Some(old(Contents())[0]) && Contents() == old(Contents())[1..]
      ensures old(Contents()) == [] ==> oldest == None && Contents() == []
    {
      if |Present(slots)| > 0 {
        DequeueIsFifo(slots);
      } else {
        DequeueNothing(slots);
      }
      var idx := OldestElementIndex();
      if |slots| == 0 {
        oldest := None;
        slots := [None];
      } else {
        oldest := slots[idx];
        idx := OldestElementIndex();
        slots := slots[idx := None];
      }
    }
  }

  /** The first `i` slots are empty and slot `i` is occupied or the end:
      `i` is the first occupied slot. */
  lemma {:induction false} FirstIs<T>(s: seq<Option<T>>, i: nat)
    requires i <= |s|
    requires forall j :: 0 <= j < i ==> s[j].None?
    requires i < |s| ==> s[i].Some?
    ensures FirstOccupied(s) == i
    decreases i
  {
    if i > 0 {
      FirstIs(s[1..], i - 1);
    }
  }

  // ---------------------------------------------------------------
  // The two runs at the end of the file

  /** Line 30 of the run on 3 slots. */
  method RunOfThreeLine30(q: CircularQueue<int>) returns (r: Option<int>)
    requires q.slots == [None, None, None]
    modifies q
    ensures q.slots == [None, None, None] && r == None
  {
    assert q.Valid();
    FirstIs(q.slots, 3);
    r := q.Dequeue();
  }

  /** Lines 31-33 of the run on 3 slots. */
  method RunOfThreeLine33(q: CircularQueue<int>) returns (r: Option<int>)
    requires q.slots == [None, None, None]
    modifies q
    ensures q.slots == [None, None, Some(2)] && r == Some(1)
  {
    assert q.Valid();
    var raised1 := q.Enqueue(1);
    assert q.slots == [None, None, Some(1)];
    var raised2 := q.Enqueue(2);
    assert q.slots == [None, Some(1), Some(2)];
    FirstIs(q.slots, 1);
    r := q.Dequeue();
  }

  /** Lines 34-36 of the run on 3 slots. */
  method RunOfThreeLine36(q: CircularQueue<int>) returns (r: Option<int>)
    requires q.slots == [None, None, Some(2)]
    modifies q
    ensures q.slots == [None, Some(3), Some(4)] && r == Some(2)
  {
    assert q.Valid();
    var raised3 := q.Enqueue(3);
    assert q.slots == [None, Some(2), Some(3)];
    var raised4 := q.Enqueue(4);
    assert q.slots == [Some(2), Some(3), Some(4)];
    FirstIs(q.slots, 0);
    r := q.Dequeue();
  }

  /** Lines 38-41 of the run on 3 slots. */
  method RunOfThreeLine41(q: CircularQueue<int>) returns (r: Option<int>)
    requires q.slots == [None, Some(3), Some(4)]
    modifies q
    ensures q.slots == [None, Some(6), Some(7)] && r == Some(5)
  {
    assert q.Valid();
    var raised5 := q.Enqueue(5);
    assert q.slots == [Some(3), Some(4), Some(5)];
    var raised6 := q.Enqueue(6);
    assert q.slots == [Some(4), Some(5), Some(6)];
    var raised7 := q.Enqueue(7);
    assert q.slots == [Some(5), Some(6), Some(7)];
    FirstIs(q.slots, 0);
    r := q.Dequeue();
  }

  /** Line 42 of the run on 3 slots. */
  method RunOfThreeLine42(q: CircularQueue<int>) returns (r: Option<int>)
    requires q.slots == [None, Some(6), Some(7)]
    modifies q
    ensures q.slots == [None, None, Some(7)] && r == Some(6)
  {
    assert q.Valid();
    FirstIs(q.slots, 1);
    r := q.Dequeue();
  }

  /** Line 43 of the run on 3 slots. */
  method RunOfThreeLine43(q: CircularQueue<int>) returns (r: Option<int>)
    requires q.slots == [None, None, Some(7)]
    modifies q
    ensures q.slots == [None, None, None] && r == Some(7)
  {
    assert q.Valid();
    FirstIs(q.slots, 2);
    r := q.Dequeue();
  }

  /** Line 44 of the run on 3 slots. */
  method RunOfThreeLine44(q: CircularQueue<int>) returns (r: Option<int>)
    requires q.slots == [None, None, None]
    modifies q
    ensures q.slots == [None, None, None] && r == None
  {
    assert q.Valid();
    FirstIs(q.slots, 3);
    r := q.Dequeue();
  }

  /** The run on a queue of 3 slots: the dequeued values are nil, 1, 2,
      then 5, 6, 7 (enqueuing 7 into the full queue dropped 4) and nil. */
  method RunOfThree() returns (out: seq<Option<int>>)
    ensures out == [None, Some(1), Some(2), Some(5), Some(6), Some(7), None]
  {
    var q := new CircularQueue<int>(3);
    var r0 := RunOfThreeLine30(q);
    var r1 := RunOfThreeLine33(q);
    var r2 := RunOfThreeLine36(q);
    var r3 := RunOfThreeLine41(q);
    var r4 := RunOfThreeLine42(q);
    var r5 := RunOfThreeLine43(q);
    var r6 := RunOfThreeLine44(q);
    out := [r0, r1, r2, r3, r4, r5, r6];
  }

  /** Line 47 of the run on 4 slots. */
  method RunOfFourLine47(q: CircularQueue<int>) returns (r: Option<int>)
    requires q.slots == [None, None, None, None]
    modifies q
    ensures q.slots == [None, None, None, None] && r == None
  {
    assert q.Valid();
    FirstIs(q.slots, 4);
    r := q.Dequeue();
  }

  /** Lines 49-51 of the run on 4 slots. */
  method RunOfFourLine51(q: CircularQueue<int>) returns (r: Option<int>)
    requires q.slots == [None, None, None, None]
    modifies q
    ensures q.slots == [None, None, None, Some(2)] && r == Some(1)
  {
    assert q.Valid();
    var raised1 := q.Enqueue(1);
    assert q.slots == [None, None, None, Some(1)];
    var raised2 := q.Enqueue(2);
    assert q.slots == [None, None, Some(1), Some(2)];
    FirstIs(q.slots, 2);
    r := q.Dequeue();
  }

  /** Lines 53-55 of the run on 4 slots. */
  method RunOfFourLine55(q: CircularQueue<int>) returns (r: Option<int>)
    requires q.slots == [None, None, None, Some(2)]
    modifies q
    ensures q.slots == [None, None, Some(3), Some(4)] && r == Some(2)
  {
    assert q.Valid();
    var raised3 := q.Enqueue(3);
    assert q.slots == [None, None, Some(2), Some(3)];
    var raised4 := q.Enqueue(4);
    assert q.slots == [None, Some(2), Some(3), Some(4)];
    FirstIs(q.slots, 1);
    r := q.Dequeue();
  }

  /** Lines 57-60 of the run on 4 slots. */
  method RunOfFourLine60(q: CircularQueue<int>) returns (r: Option<int>)
    requires q.slots == [None, None, Some(3), Some(4)]
    modifies q
    ensures q.slots == [None, Some(5), Some(6), Some(7)] && r == Some(4)
  {
    assert q.Valid();
    var raised5 := q.Enqueue(5);
    assert q.slots == [None, Some(3), Some(4), Some(5)];
    var raised6 := q.Enqueue(6);
    assert q.slots == [Some(3), Some(4), Some(5), Some(6)];
    var raised7 := q.Enqueue(7);
    assert q.slots == [Some(4), Some(5), Some(6), Some(7)];
    FirstIs(q.slots, 0);
    r := q.Dequeue();
  }

  /** Line 61 of the run on 4 slots. */
  method RunOfFourLine61(q: CircularQueue<int>) returns (r: Option<int>)
    requires q.slots == [None, Some(5), Some(6), Some(7)]
    modifies q
    ensures q.slots == [None, None, Some(6), Some(7)] && r == Some(5)
  {
    assert q.Valid();
    FirstIs(q.slots, 1);
    r := q.Dequeue();
  }

  /** Line 62 of the run on 4 slots. */
  method RunOfFourLine62(q: CircularQueue<int>) returns (r: Option<int>)
    requires q.slots == [None, None, Some(6), Some(7)]
    modifies q
    ensures q.slots == [None, None, None, Some(7)] && r == Some(6)
  {
    assert q.Valid();
    FirstIs(q.slots, 2);
    r := q.Dequeue();
  }

  /** Line 63 of the run on 4 slots. */
  method RunOfFourLine63(q: CircularQueue<int>) returns (r: Option<int>)
    requires q.slots == [None, None, None, Some(7)]
    modifies q
    ensures q.slots == [None, None, None, None] && r == Some(7)
  {
    assert q.Valid();
    FirstIs(q.slots, 3);
    r := q.Dequeue();
  }

  /** Line 64 of the run on 4 slots. */
  method RunOfFourLine64(q: CircularQueue<int>) returns (r: Option<int>)
    requires q.slots == [None, None, None, None]
    modifies q
    ensures q.slots == [None, None, None, None] && r == None
  {
    assert q.Valid();
    FirstIs(q.slots, 4);
    r := q.Dequeue();
  }

  /** The run on a queue of 4 slots: the dequeued values are nil, 1, 2,
      then 4, 5, 6, 7 (enqueuing 7 into the full queue dropped 3) and
      nil. */
  method RunOfFour() returns (out: seq<Option<int>>)
    ensures out == [None, Some(1), Some(2), Some(4), Some(5), Some(6), Some(7), None]
  {
    var q := new CircularQueue<int>(4);
    var r0 := RunOfFourLine47(q);
    var r1 := RunOfFourLine51(q);
    var r2 := RunOfFourLine55(q);
    var r3 := RunOfFourLine60(q);
    var r4 := RunOfFourLine61(q);
    var r5 := RunOfFourLine62(q);
    var r6 := RunOfFourLine63(q);
    var r7 := RunOfFourLine64(q);
    out := [r0, r1, r2, r3, r4, r5, r6, r7];
  }
}
