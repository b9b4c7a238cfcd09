/**
 One stored document with a revision that advances by compare-and-swap. Revision `i` is `history[i]`, and revision 0
 is the default document. A save commits only at the current revision, and an error leaves open whether it committed.
 */
module Versioned {

  /** What happens to one save: it is answered, it is lost on the way there, or its answer is lost. */
  datatype Fate = Answered | LostBefore | LostAfter

  datatype Saved<D> = Saved(history: seq<D>, ok: bool)

  function Save<D>(history: seq<D>, revision: nat, document: D, fate: Fate): Saved<D> {
    if fate == LostBefore || revision + 1 != |history| then Saved(history, false)
    else Saved(history + [document], fate == Answered)
  }

  class Document<D> {
    var history: seq<D>

    constructor (default: D)
      ensures history == [default]
    {
      history := [default];
    }

    /** Commits at the expected revision only; the caller may not learn that it did. */
    method CompareAndSwap(expected: nat, document: D, fate: Fate) returns (ok: bool)
      modifies this
      ensures Saved(history, ok) == Save(old(history), expected, document, fate)
    {
      if fate == LostBefore {
        return false;
      }
      if expected + 1 != |history| {
        return false;
      }
      history := history + [document];
      ok := fate == Answered;
    }
  }
}
