/**
 The round-robin turn discipline shared by both group chats, as functions on
 the number of agents `n` and a cursor.

 The data-analysis pipeline keeps a cursor in [0, n) and wraps it after each
 turn (`Advance`); the FAQ chatbot keeps an unbounded counter and reduces it
 modulo n when it selects. `Slots` and `CounterSlots` are the sequences of
 agent indices the two variants select over k turns; the lemmas below show that
 every window of n turns serves each agent exactly once, in list order, that
 the cursor comes back to where it started, and that both variants select the
 same agents.
 */
module RoundRobin {

  /** The cursor after one turn: `(cursor + 1) % n`. */
  function Advance(cursor: nat, n: nat): (next: nat)
    requires cursor < n
    ensures next < n
    ensures next == if cursor + 1 == n then 0 else cursor + 1
  {
    (cursor + 1) % n
  }

  /** The indices selected by k turns of the wrapping cursor, starting at `cursor`. */
  function Slots(n: nat, cursor: nat, k: nat): (s: seq<nat>)
    requires cursor < n
    ensures |s| == k
    ensures forall j :: 0 <= j < k ==> s[j] < n
    decreases k
  {
    if k == 0 then [] else [cursor] + Slots(n, Advance(cursor, n), k - 1)
  }

  /** The cursor after k turns starting at `cursor`. */
  function CursorAfter(n: nat, cursor: nat, k: nat): (c: nat)
    requires cursor < n
    ensures c < n
    decreases k
  {
    if k == 0 then cursor else CursorAfter(n, Advance(cursor, n), k - 1)
  }

  /** The indices selected by k turns of the unbounded counter, starting at `counter`. */
  function CounterSlots(n: nat, counter: nat, k: nat): (s: seq<nat>)
    requires n > 0
    ensures |s| == k
    ensures forall j :: 0 <= j < k ==> s[j] == (counter + j) % n
    decreases k
  {
    if k == 0 then [] else [counter % n] + CounterSlots(n, counter + 1, k - 1)
  }

  /** The indices lo, lo + 1, ..., hi - 1. */
  function Range(lo: nat, hi: nat): (s: seq<nat>)
    requires lo <= hi
    ensures |s| == hi - lo
    ensures forall j :: 0 <= j < |s| ==> s[j] == lo + j
  {
    seq(hi - lo, j requires 0 <= j < hi - lo => lo + j)
  }

  /** k1 + k2 turns are k1 turns followed by k2 turns from where the first ones left the cursor. */
  lemma {:induction false} SlotsSplit(n: nat, cursor: nat, k1: nat, k2: nat)
    requires cursor < n
    ensures Slots(n, cursor, k1 + k2) == Slots(n, cursor, k1) + Slots(n, CursorAfter(n, cursor, k1), k2)
    ensures CursorAfter(n, cursor, k1 + k2) == CursorAfter(n, CursorAfter(n, cursor, k1), k2)
    decreases k1
  {
    if k1 > 0 {
      SlotsSplit(n, Advance(cursor, n), k1 - 1, k2);
      assert k1 + k2 - 1 == (k1 - 1) + k2;
    }
  }

  /** Turns that do not reach the end of the list select consecutive indices. */
  lemma {:induction false} SlotsAscending(n: nat, cursor: nat, k: nat)
    requires cursor < n && cursor + k <= n
    ensures Slots(n, cursor, k) == Range(cursor, cursor + k)
    ensures CursorAfter(n, cursor, k) == if cursor + k == n then 0 else cursor + k
    decreases k
  {
    if k > 0 && cursor + 1 < n {
      SlotsAscending(n, cursor + 1, k - 1);
    } else if k > 0 {
      assert k == 1;
    }
  }

  /**
   Round-robin completeness: n turns from any cursor select the agents from the
   cursor to the end of the list and then from the start up to the cursor, and
   leave the cursor where it was.
   */
  lemma FullCycle(n: nat, cursor: nat)
    requires cursor < n
    ensures Slots(n, cursor, n) == Range(cursor, n) + Range(0, cursor)
    ensures CursorAfter(n, cursor, n) == cursor
  {
    SlotsSplit(n, cursor, n - cursor, cursor);
    assert n - cursor + cursor == n;
    SlotsAscending(n, cursor, n - cursor);
    if cursor > 0 {
      SlotsAscending(n, 0, cursor);
    }
  }

  /** Over n consecutive turns every index in [0, n) is selected, and none twice. */
  lemma EachOnceInCycle(n: nat, cursor: nat)
    requires cursor < n
    ensures forall i :: 0 <= i < n ==> i in Slots(n, cursor, n)
    ensures forall a, b :: 0 <= a < b < n ==> Slots(n, cursor, n)[a] != Slots(n, cursor, n)[b]
  {
    FullCycle(n, cursor);
    var s := Slots(n, cursor, n);
    forall i | 0 <= i < n
      ensures i in s
    {
      if i >= cursor {
        assert s[i - cursor] == i;
      } else {
        assert s[n - cursor + i] == i;
      }
    }
  }

  /**
   Any n consecutive turns of a scheduler that started at cursor 0, however many
   turns came before, form a full cycle from the cursor those turns found.
   */
  lemma WindowIsCycle(n: nat, before: nat)
    requires n > 0
    ensures Slots(n, 0, before + n)[before..] == Slots(n, CursorAfter(n, 0, before), n)
    ensures CursorAfter(n, 0, before + n) == CursorAfter(n, 0, before)
  {
    SlotsSplit(n, 0, before, n);
    FullCycle(n, CursorAfter(n, 0, before));
  }

  /** A single agent is selected on every turn and the cursor never leaves 0. */
  lemma {:induction false} SingleAgent(k: nat)
    ensures Slots(1, 0, k) == seq(k, _ => 0)
    ensures CursorAfter(1, 0, k) == 0
  {
    if k > 0 {
      SingleAgent(k - 1);
    }
  }

  lemma {:induction false} MulAtLeast(d: nat, n: nat)
    requires d >= 1
    ensures d * n >= n
  {
    if d > 1 {
      MulAtLeast(d - 1, n);
      assert d * n == (d - 1) * n + n;
    }
  }

  /** The remainder is determined by any quotient/remainder decomposition. */
  lemma ModUnique(x: int, n: int, q: int, r: int)
    requires n > 0 && 0 <= r < n && x == q * n + r
    ensures x % n == r
  {
    var q0, r0 := x / n, x % n;
    assert x == q0 * n + r0;
    if q0 > q {
      assert q0 * n == (q0 - q) * n + q * n;
      MulAtLeast(q0 - q, n);
    } else if q0 < q {
      assert q * n == (q - q0) * n + q0 * n;
      MulAtLeast(q - q0, n);
    }
  }

  /** Advancing a reduced counter is reducing the advanced counter. */
  lemma AdvanceMod(counter: nat, n: nat)
    requires n > 0
    ensures Advance(counter % n, n) == (counter + 1) % n
  {
    var q, r := counter / n, counter % n;
    assert counter == q * n + r;
    if r + 1 == n {
      ModUnique(counter + 1, n, q + 1, 0);
    } else {
      ModUnique(counter + 1, n, q, r + 1);
    }
  }

  /**
   The two variants agree: a wrapping cursor that starts at `counter % n`
   selects exactly what the unbounded counter selects, and after k turns
   the cursor is the counter reduced modulo n.
   */
  lemma {:induction false} VariantsAgree(n: nat, counter: nat, k: nat)
    requires n > 0
    ensures Slots(n, counter % n, k) == CounterSlots(n, counter, k)
    ensures CursorAfter(n, counter % n, k) == (counter + k) % n
    decreases k
  {
    if k > 0 {
      AdvanceMod(counter, n);
      VariantsAgree(n, counter + 1, k - 1);
      assert counter + 1 + (k - 1) == counter + k;
    }
  }
}
