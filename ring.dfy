/**
 * The round-robin write cursor that each group keeps into its own range of the arena.
 * Allocation hands out slot `start + cursor` and then moves the cursor on, back to 0 when
 * it reaches the group's size, so a group recycles its oldest slot once it is full.
 */
module Ring {

  /** The cursor after one allocation: one further, or back to 0 once it reaches `size`. */
  function NextCursor(c: int, size: int): (r: int)
    ensures 0 <= c < size ==> 0 <= r < size && r == (c + 1) % size
  {
    if c + 1 >= size then 0 else c + 1
  }

  /** The cursor after `n` consecutive allocations from cursor `c`. */
  function CursorAfter(c: int, size: int, n: nat): int
  {
    if n == 0 then c else NextCursor(CursorAfter(c, size, n - 1), size)
  }

  /** `a` allocations followed by `b` more are `a + b` allocations. */
  lemma {:induction false} CursorAfterCompose(c: int, size: int, a: nat, b: nat)
    ensures CursorAfter(c, size, a + b) == CursorAfter(CursorAfter(c, size, a), size, b)
  {
    if b > 0 {
      CursorAfterCompose(c, size, a, b - 1);
    }
  }

  /** Before reaching the end of the ring the cursor moves one slot per allocation, and
      it is back at 0 exactly when it has passed the last slot. */
  lemma {:induction false} CursorAfterBeforeWrap(c: int, size: int, n: nat)
    requires 0 <= c < size
    requires c + n <= size
    ensures CursorAfter(c, size, n) == if c + n == size then 0 else c + n
  {
    if n > 0 {
      CursorAfterBeforeWrap(c, size, n - 1);
    }
  }

  /** After `size` consecutive allocations the cursor is back where it was: the same slot
      is handed out again. */
  lemma {:induction false} RingWraps(c: int, size: int)
    requires 0 <= c < size
    ensures CursorAfter(c, size, size) == c
  {
    CursorAfterCompose(c, size, size - c, c);
    CursorAfterBeforeWrap(c, size, size - c);
    CursorAfterBeforeWrap(0, size, c);
  }

  /** Starting from an empty cursor, the first `size` allocations use slots 0, 1, …,
      size-1 in turn, each exactly once, and allocation number size+1 reuses slot 0. */
  lemma {:induction false} FreshRingVisitsEachSlotOnce(size: int, j: nat)
    requires 0 < size
    ensures j < size ==> CursorAfter(0, size, j) == j
    ensures CursorAfter(0, size, size) == 0
  {
    if j < size {
      CursorAfterBeforeWrap(0, size, j);
    }
    RingWraps(0, size);
  }
}
