/** Counting provider calls by the limiter slots they spend. */
module Counting {
  import opened Protocol

  /** The slots of `count` windows from `first`. */
  function Slots(first: int, count: nat, limit: nat): set<(int, int)> {
    set v, slot | first <= v < first + count && 0 <= slot < limit :: (v, slot)
  }

  function WindowSlots(v: int, limit: nat): set<(int, int)> {
    set slot | 0 <= slot < limit :: (v, slot)
  }

  lemma {:induction false} WindowSlotsSize(v: int, limit: nat)
    ensures |WindowSlots(v, limit)| == limit
  {
    if limit > 0 {
      WindowSlotsSize(v, limit - 1);
      assert WindowSlots(v, limit) == WindowSlots(v, limit - 1) + {(v, limit - 1)};
    }
  }

  lemma SlotsSnoc(first: int, count: nat, limit: nat)
    requires count > 0
    ensures Slots(first, count, limit) == Slots(first, count - 1, limit) + WindowSlots(first + count - 1, limit)
    ensures Slots(first, count - 1, limit) !! WindowSlots(first + count - 1, limit)
  {
  }

  lemma {:induction false} SlotsSize(first: int, count: nat, limit: nat)
    ensures |Slots(first, count, limit)| == count * limit
  {
    if count == 0 {
      assert Slots(first, count, limit) == {};
    } else {
      SlotsSize(first, count - 1, limit);
      WindowSlotsSize(first + count - 1, limit);
      SlotsSnoc(first, count, limit);
      assert (count - 1) * limit + limit == count * limit;
    }
  }

  function SlotOf(e: Sent): (int, int) {
    (e.window, e.slot)
  }

  /** How many of the sends satisfy `p`. */
  function Count(sent: seq<Sent>, p: Sent -> bool): nat {
    if sent == [] then 0
    else Count(sent[..|sent| - 1], p) + if p(sent[|sent| - 1]) then 1 else 0
  }

  /** Sends with pairwise different slots from a set are no more than the set. */
  lemma {:induction false} CountBySlots(sent: seq<Sent>, p: Sent -> bool, slots: set<(int, int)>)
    requires forall i | 0 <= i < |sent| && p(sent[i]) :: SlotOf(sent[i]) in slots
    requires forall i, j | 0 <= i < j < |sent| && p(sent[i]) && p(sent[j]) :: SlotOf(sent[i]) != SlotOf(sent[j])
    ensures Count(sent, p) <= |slots|
  {
    if sent != [] {
      var last := sent[|sent| - 1];
      if p(last) {
        CountBySlots(sent[..|sent| - 1], p, slots - {SlotOf(last)});
      } else {
        CountBySlots(sent[..|sent| - 1], p, slots);
      }
    }
  }
}
