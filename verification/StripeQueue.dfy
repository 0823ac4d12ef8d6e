/** The ring in which a channel queues stripes to fetch: masked indices, and no check for a full ring. */
module StripeQueue {
  import opened Types
  import opened Layout

  /** Masking with one less than a power of two is taking the remainder. */
  lemma {:induction false} MaskIsRemainder(n: nat, k: nat)
    ensures BitAnd(n, Pow2(k) - 1) == n % Pow2(k)
    decreases k
  {
    var m := Pow2(k) - 1;
    if n == 0 {
      RemainderUnique(0, Pow2(k), 0, 0);
    } else if k == 0 {
      RemainderUnique(n, 1, n, 0);
    } else {
      var p := Pow2(k - 1);
      assert m / 2 == p - 1 && m % 2 == 1;
      assert BitAnd(n, m) == n % 2 + 2 * BitAnd(n / 2, p - 1);
      MaskIsRemainder(n / 2, k - 1);
      HalfRemainder(n, p);
    }
  }

  lemma HalfRemainder(n: nat, p: nat)
    requires 0 < p
    ensures n % (2 * p) == n % 2 + 2 * ((n / 2) % p)
  {
    var h := n / 2;
    var q, r := h / p, h % p;
    assert h == p * q + r;
    assert n == (2 * p) * q + (2 * r + n % 2);
    RemainderUnique(n, 2 * p, q, 2 * r + n % 2);
  }

  lemma RemainderUnique(n: nat, d: nat, q: nat, r: nat)
    requires r < d && n == d * q + r
    ensures n % d == r
  {
    Quotient(n, d, q);
  }

  lemma NextIndex(i: nat)
    ensures BitAnd(i, FETCH_QUEUE_SIZE - 1) == i % FETCH_QUEUE_SIZE
  {
    Pow2Values();
    MaskIsRemainder(i, 15);
  }

  /** `n` entries from position `head` on, around the ring. */
  function Slice(entries: seq<nat>, head: nat, n: nat): (s: seq<nat>)
    requires |entries| == FETCH_QUEUE_SIZE
    ensures |s| == n
  {
    seq(n, i requires 0 <= i < n => entries[(head + i) % FETCH_QUEUE_SIZE])
  }

  /** How far `tail` is ahead of `head`, around the ring. */
  function Distance(head: nat, tail: nat): (n: nat)
    requires head < FETCH_QUEUE_SIZE && tail < FETCH_QUEUE_SIZE
    ensures n < FETCH_QUEUE_SIZE && (n == 0 <==> head == tail)
  {
    if head <= tail then tail - head else tail + FETCH_QUEUE_SIZE - head
  }

  lemma HeadMoves(head: nat, tail: nat)
    requires head < FETCH_QUEUE_SIZE && tail < FETCH_QUEUE_SIZE && head != tail
    ensures Distance((head + 1) % FETCH_QUEUE_SIZE, tail) == Distance(head, tail) - 1
  {
  }

  lemma TailMoves(head: nat, tail: nat)
    requires head < FETCH_QUEUE_SIZE && tail < FETCH_QUEUE_SIZE
    ensures var n, m := Distance(head, tail), Distance(head, (tail + 1) % FETCH_QUEUE_SIZE);
            m == if n < FETCH_QUEUE_SIZE - 1 then n + 1 else 0
  {
  }

  lemma SliceLast(entries: seq<nat>, head: nat, tail: nat, x: nat)
    requires |entries| == FETCH_QUEUE_SIZE && head < FETCH_QUEUE_SIZE && tail < FETCH_QUEUE_SIZE
    ensures var n := Distance(head, tail);
            Slice(entries[tail := x], head, n + 1) == Slice(entries, head, n) + [x]
  {
    var n := Distance(head, tail);
    forall i | 0 <= i < n
      ensures Slice(entries[tail := x], head, n + 1)[i] == Slice(entries, head, n)[i]
    {
      assert (head + i) % FETCH_QUEUE_SIZE != tail;
    }
    assert (head + n) % FETCH_QUEUE_SIZE == tail;
  }

  lemma SliceHead(entries: seq<nat>, head: nat, n: nat)
    requires |entries| == FETCH_QUEUE_SIZE && head < FETCH_QUEUE_SIZE && n > 0
    ensures Slice(entries, head, n) == [entries[head]] + Slice(entries, (head + 1) % FETCH_QUEUE_SIZE, n - 1)
  {
    var rest := Slice(entries, (head + 1) % FETCH_QUEUE_SIZE, n - 1);
    forall i | 0 <= i < n - 1
      ensures rest[i] == Slice(entries, head, n)[i + 1]
    {
      assert (head + (i + 1)) % FETCH_QUEUE_SIZE == ((head + 1) % FETCH_QUEUE_SIZE + i) % FETCH_QUEUE_SIZE;
    }
  }

  class Queue {
    const entries: array<nat>
    var head: nat
    var tail: nat

    ghost predicate Valid()
      reads this
    {
      entries.Length == FETCH_QUEUE_SIZE && head < FETCH_QUEUE_SIZE && tail < FETCH_QUEUE_SIZE
    }

    ghost function Length(): nat
      requires Valid()
      reads this
    {
      Distance(head, tail)
    }

    /** The queued stripes, oldest first. */
    ghost function Contents(): (s: seq<nat>)
      requires Valid()
      reads this, entries
      ensures |s| == Length() < FETCH_QUEUE_SIZE
    {
      Slice(entries[..], head, Length())
    }

    constructor ()
      ensures Valid() && fresh(entries) && Contents() == []
    {
      entries := new nat[FETCH_QUEUE_SIZE];
      head, tail := 0, 0;
    }

    /** `enqueue_stripe`: one entry more than fits makes the ring look empty. */
    method Enqueue(x: nat)
      requires Valid()
      modifies this`tail, entries
      ensures Valid() && head == old(head)
      ensures Contents() == if |old(Contents())| < FETCH_QUEUE_SIZE - 1 then old(Contents()) + [x] else []
    {
      SliceLast(entries[..], head, tail, x);
      TailMoves(head, tail);
      NextIndex(tail + 1);
      ghost var was := entries[..];
      entries[tail] := x;
      assert entries[..] == was[tail := x];
      tail := BitAnd(tail + 1, FETCH_QUEUE_SIZE - 1);
    }

    /** `dequeue_stripe`; the poller calls it only when the ring is not empty. */
    method Dequeue() returns (x: nat)
      requires Valid() && head != tail
      modifies this`head
      ensures Valid() && tail == old(tail)
      ensures old(Contents()) == [x] + Contents()
    {
      SliceHead(entries[..], head, Length());
      HeadMoves(head, tail);
      x := entries[head];
      NextIndex(head + 1);
      head := BitAnd(head + 1, FETCH_QUEUE_SIZE - 1);
    }

    /** `stripe_queue_empty`. */
    method IsEmpty() returns (empty: bool)
      requires Valid()
      ensures empty <==> Contents() == []
    {
      empty := head == tail;
    }
  }
}
