/** Histories of atomic sections performed by several threads, and one thread's part in them. */
module History {

  /** The sections one thread performed, in order. */
  function Own<L>(ls: seq<L>, mine: L -> bool): seq<L> {
    if ls == [] then []
    else Own(ls[..|ls| - 1], mine) + if mine(ls[|ls| - 1]) then [ls[|ls| - 1]] else []
  }

  /** From one history to a later one, the thread has performed exactly these sections. */
  predicate Performs<L(==)>(before: seq<L>, after: seq<L>, mine: L -> bool, own: seq<L>) {
    before <= after && Own(after, mine) == Own(before, mine) + own
  }

  lemma Nothing<L>(h: seq<L>, mine: L -> bool)
    ensures Performs(h, h, mine, [])
  {
    assert Own(h, mine) + [] == Own(h, mine);
  }

  lemma {:induction false} OthersOnly<L>(before: seq<L>, more: seq<L>, mine: L -> bool)
    requires forall i | 0 <= i < |more| :: !mine(more[i])
    ensures Performs(before, before + more, mine, [])
    decreases |more|
  {
    if more == [] {
      assert before + more == before;
    } else {
      assert (before + more)[..|before + more| - 1] == before + more[..|more| - 1];
      OthersOnly(before, more[..|more| - 1], mine);
    }
  }

  lemma One<L>(before: seq<L>, l: L, mine: L -> bool)
    requires mine(l)
    ensures Performs(before, before + [l], mine, [l])
  {
    assert (before + [l])[..|before|] == before;
  }

  lemma Both<L>(a: seq<L>, b: seq<L>, c: seq<L>, mine: L -> bool, x: seq<L>, y: seq<L>)
    requires Performs(a, b, mine, x) && Performs(b, c, mine, y)
    ensures Performs(a, c, mine, x + y)
  {
    hide Own;
    assert (Own(a, mine) + x) + y == Own(a, mine) + (x + y);
  }

  /** The rounds one after the other. */
  function Flat<L>(rounds: seq<seq<L>>): seq<L> {
    if rounds == [] then [] else Flat(rounds[..|rounds| - 1]) + rounds[|rounds| - 1]
  }

  lemma FlatMore<L>(rounds: seq<seq<L>>, round: seq<L>)
    ensures Flat(rounds + [round]) == Flat(rounds) + round
  {
    assert (rounds + [round])[..|rounds|] == rounds;
  }
}
