// The 8-slot pixel FIFO of src/display.c: a ring buffer over a fixed array with a push index,
// a pop index and a count.

module GbFifo {
  import opened Bits

  const FIFO_MAX_COUNT: nat := 8

  /** FIFO_Pixel. */
  datatype Pixel = Pixel(screenX: byte, screenY: byte, colorID: byte, colorPalette: byte, bgPriority: byte)

  /** The value handed back where the source returns an uninitialised pixel. */
  const NoPixel := Pixel(0, 0, 0, 0, 0)

  /** The slot `pop + i` lands on, wrapping once past the end of the array. */
  function Slot(pop: nat, i: nat): (s: nat)
    requires pop < FIFO_MAX_COUNT && i < FIFO_MAX_COUNT
    ensures s < FIFO_MAX_COUNT && s == (pop + i) % FIFO_MAX_COUNT
  {
    if pop + i >= FIFO_MAX_COUNT then pop + i - FIFO_MAX_COUNT else pop + i
  }

  /** The `n` pixels of ring `a` starting at slot `pop`. */
  function Ring(a: seq<Pixel>, pop: nat, n: nat): (q: seq<Pixel>)
    requires |a| == FIFO_MAX_COUNT && pop < FIFO_MAX_COUNT && n <= FIFO_MAX_COUNT
    ensures |q| == n
  {
    seq(n, i requires 0 <= i < n => a[Slot(pop, i)])
  }

  /** Writing the slot just past the queued pixels and counting it appends that pixel. */
  lemma RingPush(a: seq<Pixel>, pop: nat, n: nat, p: Pixel)
    requires |a| == FIFO_MAX_COUNT && pop < FIFO_MAX_COUNT && n < FIFO_MAX_COUNT
    ensures Ring(a[Slot(pop, n) := p], pop, n + 1) == Ring(a, pop, n) + [p]
  {
    var q := Ring(a[Slot(pop, n) := p], pop, n + 1);
    forall i | 0 <= i < n
      ensures q[i] == Ring(a, pop, n)[i]
    {
      assert Slot(pop, i) != Slot(pop, n);
    }
  }

  /** Advancing the start slot by one and counting one fewer drops the front pixel. */
  lemma RingPop(a: seq<Pixel>, pop: nat, n: nat)
    requires |a| == FIFO_MAX_COUNT && pop < FIFO_MAX_COUNT && 0 < n <= FIFO_MAX_COUNT
    ensures Ring(a, Slot(pop, 1), n - 1) == Ring(a, pop, n)[1..]
  {
    var q := Ring(a, Slot(pop, 1), n - 1);
    forall i | 0 <= i < n - 1
      ensures q[i] == Ring(a, pop, n)[i + 1]
    {
      assert Slot(Slot(pop, 1), i) == Slot(pop, i + 1);
    }
  }

  /** Overwriting the slot of queued pixel i replaces exactly that pixel. */
  lemma RingInsert(a: seq<Pixel>, pop: nat, n: nat, i: nat, p: Pixel)
    requires |a| == FIFO_MAX_COUNT && pop < FIFO_MAX_COUNT && i < n <= FIFO_MAX_COUNT
    ensures Ring(a[Slot(pop, i) := p], pop, n) == Ring(a, pop, n)[i := p]
  {
    var q := Ring(a[Slot(pop, i) := p], pop, n);
    forall j | 0 <= j < n && j != i
      ensures q[j] == Ring(a, pop, n)[j]
    {
      assert Slot(pop, j) != Slot(pop, i);
    }
  }

  class Fifo {
    const contents: array<Pixel>
    var nextPushIndex: nat
    var nextPopIndex: nat
    var count: nat

    /** The ring invariant: at most eight pixels, both indices inside the array, and the push
     *  index `count` slots ahead of the pop index. */
    predicate Valid()
      reads this
    {
      contents.Length == FIFO_MAX_COUNT && count <= FIFO_MAX_COUNT &&
      nextPopIndex < FIFO_MAX_COUNT && nextPushIndex < FIFO_MAX_COUNT &&
      nextPushIndex == (nextPopIndex + count) % FIFO_MAX_COUNT
    }

    /** The queued pixels, front (next to pop) first. */
    function Contents(): (q: seq<Pixel>)
      requires Valid()
      reads this, contents
      ensures |q| == count
    {
      Ring(contents[..], nextPopIndex, count)
    }

    constructor ()
      ensures Valid() && Contents() == [] && fresh(contents)
    {
      contents := new Pixel[FIFO_MAX_COUNT](_ => NoPixel);
      nextPushIndex := 0;
      nextPopIndex := 0;
      count := 0;
    }

    /** clearFIFO: empty, both indices back to 0. */
    method Clear()
      requires Valid()
      modifies this
      ensures Valid() && Contents() == [] && nextPushIndex == 0 && nextPopIndex == 0
    {
      count := 0;
      nextPopIndex := 0;
      nextPushIndex := 0;
    }

    /** pushFIFO: appends at the back; a full FIFO is left as it is. */
    method Push(p: Pixel)
      requires Valid()
      modifies this, contents
      ensures Valid()
      ensures old(count) == FIFO_MAX_COUNT ==> Contents() == old(Contents()) && nextPushIndex == old(nextPushIndex)
      ensures old(count) < FIFO_MAX_COUNT ==>
                Contents() == old(Contents()) + [p] &&
                nextPushIndex == (old(nextPushIndex) + 1) % FIFO_MAX_COUNT
      ensures nextPopIndex == old(nextPopIndex)
    {
      if count == FIFO_MAX_COUNT {
        return;
      }
      assert nextPushIndex == Slot(nextPopIndex, count);
      RingPush(contents[..], nextPopIndex, count, p);
      contents[nextPushIndex] := p;
      assert contents[..] == old(contents[..])[nextPushIndex := p];
      count := count + 1;
      nextPushIndex := nextPushIndex + 1;
      if nextPushIndex == FIFO_MAX_COUNT {
        nextPushIndex := 0;
      }
    }

    /** popFIFO: takes the front pixel. On an empty FIFO nothing changes and `ok` is false (the
     *  source hands back an uninitialised pixel; the model gives NoPixel). */
    method Pop() returns (ok: bool, p: Pixel)
      requires Valid()
      modifies this
      ensures Valid()
      ensures ok <==> old(count) > 0
      ensures ok ==> p == old(Contents())[0] && Contents() == old(Contents())[1..] &&
                     nextPopIndex == (old(nextPopIndex) + 1) % FIFO_MAX_COUNT
      ensures !ok ==> p == NoPixel && Contents() == old(Contents()) && nextPopIndex == old(nextPopIndex)
      ensures nextPushIndex == old(nextPushIndex)
    {
      if count == 0 {
        return false, NoPixel;
      }
      RingPop(contents[..], nextPopIndex, count);
      p := contents[nextPopIndex];
      ok := true;
      count := count - 1;
      nextPopIndex := nextPopIndex + 1;
      if nextPopIndex == FIFO_MAX_COUNT {
        nextPopIndex := 0;
      }
    }

    /** peekFIFO: the pixel `index` places from the front, without changing the FIFO; an index
     *  past the queued pixels gives NoPixel in place of the uninitialised one. */
    function Peek(index: byte): (p: Pixel)
      requires Valid()
      reads this, contents
      ensures ByteNat(index) < count ==> p == Contents()[ByteNat(index)]
      ensures ByteNat(index) >= count ==> p == NoPixel
    {
      var i := ByteNat(index);
      if count < i + 1 then NoPixel
      else if nextPopIndex + i >= FIFO_MAX_COUNT then contents[nextPopIndex + i - FIFO_MAX_COUNT]
      else contents[nextPopIndex + i]
    }

    /** insertFIFO: replaces the pixel `index` places from the front; count and indices stay,
     *  and an index past the queued pixels changes nothing. */
    method Insert(p: Pixel, index: byte)
      requires Valid()
      modifies contents
      ensures Valid()
      ensures ByteNat(index) < count ==> Contents() == old(Contents())[ByteNat(index) := p]
      ensures ByteNat(index) >= count ==> Contents() == old(Contents())
    {
      var i := ByteNat(index);
      if count < i + 1 {
        return;
      }
      var s := if nextPopIndex + i >= FIFO_MAX_COUNT then nextPopIndex + i - FIFO_MAX_COUNT else nextPopIndex + i;
      RingInsert(contents[..], nextPopIndex, count, i, p);
      contents[s] := p;
      assert contents[..] == old(contents[..])[s := p];
    }
  }

  /** Pixels come out in the order they went in: pushing onto a FIFO with room and then popping
   *  returns the old front pixel, or the pushed pixel when the FIFO was empty. */
  method PushThenPop(f: Fifo, p: Pixel) returns (q: Pixel)
    requires f.Valid() && f.count < FIFO_MAX_COUNT
    modifies f, f.contents
    ensures f.Valid()
    ensures q == (old(f.Contents()) + [p])[0]
    ensures f.Contents() == (old(f.Contents()) + [p])[1..]
  {
    f.Push(p);
    var ok;
    ok, q := f.Pop();
  }
}
