/**
 * The undo timeline of the game: the saved snapshots and the index of the
 * one last saved or restored.  A snapshot is saved BEFORE every move, so
 * the entry at the index is the state the latest move started from, and
 * the state after the latest move is saved nowhere.
 */
module History {

  datatype Cursor<S> = Cursor(entries: seq<S>, index: int)

  /** The index is on an entry. */
  predicate Valid<S>(c: Cursor<S>)
  {
    0 <= c.index < |c.entries|
  }

  /** The undo and redo buttons are enabled (index > 0; index before the tip). */
  predicate CanUndo<S>(c: Cursor<S>)
  {
    c.index > 0
  }

  predicate CanRedo<S>(c: Cursor<S>)
  {
    c.index < |c.entries| - 1
  }

  /** The timeline of a fresh deal: the deal alone. */
  function Start<S>(deal: S): (r: Cursor<S>)
    ensures Valid(r) && !CanUndo(r) && !CanRedo(r) && r.entries[r.index] == deal
  {
    Cursor([deal], 0)
  }

  /** saveToHistory: the entries after the index are cut off, the snapshot
      is appended and becomes the tip.  Works from the empty timeline of a
      game not yet dealt (index -1) too. */
  function Commit<S>(c: Cursor<S>, s: S): (r: Cursor<S>)
    requires -1 <= c.index < |c.entries|
    ensures Valid(r) && !CanRedo(r)
    ensures r.index == c.index + 1 && r.entries[r.index] == s
    ensures r.entries[..r.index] == c.entries[..c.index + 1]
  {
    var kept := c.entries[..c.index + 1];
    assert (kept + [s])[..c.index + 1] == kept;
    Cursor(kept + [s], c.index + 1)
  }

  /** handleUndo's move of the index: one back, unless at the first entry.
      The entry it restores is the one at the new index. */
  function Undo<S>(c: Cursor<S>): (r: Cursor<S>)
    requires Valid(c)
    ensures Valid(r) && r.entries == c.entries
    ensures CanUndo(c) ==> r.index == c.index - 1
    ensures !CanUndo(c) ==> r == c
  {
    if c.index > 0 then Cursor(c.entries, c.index - 1) else c
  }

  /** handleRedo's move of the index: one forward, unless at the tip. */
  function Redo<S>(c: Cursor<S>): (r: Cursor<S>)
    requires Valid(c)
    ensures Valid(r) && r.entries == c.entries
    ensures CanRedo(c) ==> r.index == c.index + 1
    ensures !CanRedo(c) ==> r == c
  {
    if c.index < |c.entries| - 1 then Cursor(c.entries, c.index + 1) else c
  }

  /** Redo takes back an undo, and undo a redo. */
  lemma UndoRedoInverse<S>(c: Cursor<S>)
    requires Valid(c)
    ensures CanUndo(c) ==> Redo(Undo(c)) == c
    ensures CanRedo(c) ==> Undo(Redo(c)) == c
  {
  }

  /** After any save there is nothing to redo, everything up to the old
      index is kept, and one undo puts the index back where it was. */
  lemma CommitFacts<S>(c: Cursor<S>, s: S)
    requires Valid(c)
    ensures !CanRedo(Commit(c, s))
    ensures |Commit(c, s).entries| == c.index + 2
    ensures forall k :: 0 <= k <= c.index ==> Commit(c, s).entries[k] == c.entries[k]
    ensures Undo(Commit(c, s)).index == c.index
  {
    var r := Commit(c, s);
    forall k | 0 <= k <= c.index ensures r.entries[k] == c.entries[k] {
      assert r.entries[..r.index][k] == c.entries[..c.index + 1][k];
    }
  }

  function UndoN<S>(c: Cursor<S>, n: nat): (r: Cursor<S>)
    requires Valid(c)
    ensures Valid(r)
    decreases n
  {
    if n == 0 then c else UndoN(Undo(c), n - 1)
  }

  function RedoN<S>(c: Cursor<S>, n: nat): (r: Cursor<S>)
    requires Valid(c)
    ensures Valid(r)
    decreases n
  {
    if n == 0 then c else RedoN(Redo(c), n - 1)
  }

  /** n undos step the index back by n, stopping at the first entry, and
      leave the entries alone. */
  lemma {:induction false} UndoNIndex<S>(c: Cursor<S>, n: nat)
    requires Valid(c)
    ensures UndoN(c, n) == Cursor(c.entries, if n <= c.index then c.index - n else 0)
    decreases n
  {
    if n > 0 {
      UndoNIndex(Undo(c), n - 1);
    }
  }

  /** n redos step the index forward by n, stopping at the tip. */
  lemma {:induction false} RedoNIndex<S>(c: Cursor<S>, n: nat)
    requires Valid(c)
    ensures RedoN(c, n) == Cursor(c.entries, if c.index + n < |c.entries| then c.index + n else |c.entries| - 1)
    decreases n
  {
    if n > 0 {
      RedoNIndex(Redo(c), n - 1);
    }
  }

  /** Undoing as many times as the index restores the first entry, the
      deal. */
  lemma UndoAll<S>(c: Cursor<S>)
    requires Valid(c)
    ensures UndoN(c, c.index as nat) == Cursor(c.entries, 0)
  {
    UndoNIndex(c, c.index as nat);
  }

  /** From the first entry, redoing once per later entry reaches the tip,
      the last saved entry. */
  lemma RedoAll<S>(entries: seq<S>)
    requires |entries| > 0
    ensures RedoN(Cursor(entries, 0), |entries| - 1) == Cursor(entries, |entries| - 1)
  {
    RedoNIndex(Cursor(entries, 0), |entries| - 1);
  }

  // ---------------------------------------------------------------------
  // What handleUndo restores

  /** The entry handleUndo restores: the one before the index. */
  function RestoredByUndo<S>(c: Cursor<S>): S
    requires Valid(c) && CanUndo(c)
  {
    c.entries[c.index - 1]
  }

  /** As written, an undo right after two moves restores the deal, the
      state before the FIRST of them: the entry before the index is the
      start of the move before the latest one. */
  lemma UndoSkipsAMove()
    ensures var afterTwoMoves := Commit(Commit(Start(0), 0), 1);
      && afterTwoMoves.entries[afterTwoMoves.index] == 1
      && RestoredByUndo(afterTwoMoves) == 0
  {
  }

  /** The intended undo: restore the entry at the index, the state the
      latest move started from, and step back.  The first entry is the
      deal, which no move started from unless it was saved again. */
  function UndoLatest<S>(c: Cursor<S>): (r: (Cursor<S>, S))
    requires Valid(c) && CanUndo(c)
    ensures r.0 == Cursor(c.entries, c.index - 1) && r.1 == c.entries[c.index]
  {
    (Cursor(c.entries, c.index - 1), c.entries[c.index])
  }

  /** A move from state `live` saves it; the intended undo right after
      restores exactly `live` and puts the index back. */
  lemma UndoLatestUndoesTheMove<S>(c: Cursor<S>, live: S)
    requires Valid(c)
    ensures UndoLatest(Commit(c, live)).1 == live
    ensures UndoLatest(Commit(c, live)).0.index == c.index
  {
  }
}
