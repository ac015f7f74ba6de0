/**
 * The game component.  Its state (stock, waste, foundations, tableau,
 * counters, flags, the undo timeline, the difficulty) is the value
 * GameState; each handler is a transition function on that value, with the
 * facts proved about it, and the class Game keeps the same state in fields
 * and runs the handlers as methods whose new state is the transition of the
 * old one.
 *
 * A handler sees the state as it was when the handler started: the
 * component's state setters take effect only after the handler returns.
 * So the move counter and the missed-move scan that a move triggers read
 * the board as it was before the move, and each transition below performs
 * its bookkeeping on the state the move starts from.
 */
module GameBoard {
  import opened Cards
  import Helpers
  import Rules
  import Actions
  import Deck
  import History
  import opened Board

  datatype Difficulty = Easy | Medium | Hard

  /** Cards turned per draw, by difficulty (the settings' table). */
  function DrawCount(d: Difficulty): (n: nat)
    ensures n == if d == Easy then 1 else 3
  {
    match d
    case Easy => 1
    case Medium => 3
    case Hard => 3
  }

  /** Recycles of the waste allowed at the hard difficulty. */
  const RedealLimit: nat := 3

  const NoMovesReason: string := "No more valid moves available."
  const StockEmptyReason: string := "Stock pile empty and no progress made after 2 moves."

  /** What saveToHistory records: the board and three counters. */
  datatype Snapshot = Snapshot(board: Layout, moves: nat, score: int, time: nat)

  /** The 52 cards of a standard deck, by suit and rank. */
  function FullDeck(): multiset<Key>
  {
    Keys(Deck.StandardDeck())
  }

  ghost predicate AllShaped(h: seq<Snapshot>)
  {
    forall k :: 0 <= k < |h| ==> Shaped(h[k].board)
  }

  ghost predicate AllComplete(h: seq<Snapshot>)
  {
    forall k :: 0 <= k < |h| ==> AllCards(h[k].board) == FullDeck()
  }

  /** Everything the component keeps in its state (the stock-empty time is
      the flag stockEmptied: only whether it is set is ever read; whether
      the one-second interval is live is the flag timerRunning). */
  datatype GameState = GameState(
    deck: Pile, stock: Pile, waste: Pile, foundations: seq<Pile>, tableau: seq<Pile>,
    moves: nat, missedMoves: nat, score: int, time: nat,
    gameStarted: bool, gameWon: bool, gameLost: bool, gamePaused: bool, timerRunning: bool,
    stockEmptied: bool, movesAfterStockEmpty: nat, gameOverReason: string,
    history: seq<Snapshot>, historyIndex: int,
    difficulty: Difficulty, redealCount: nat)

  function PilesOf(g: GameState): Layout
  {
    Layout(g.stock, g.waste, g.foundations, g.tableau)
  }

  /** The snapshot every handler passes to saveToHistory. */
  function SnapshotOf(g: GameState): Snapshot
  {
    Snapshot(PilesOf(g), g.moves, g.score, g.time)
  }

  function Timeline(g: GameState): History.Cursor<Snapshot>
  {
    History.Cursor(g.history, g.historyIndex)
  }

  /** Four foundations, seven columns, the index on a saved snapshot and
      every snapshot of the same shape. */
  ghost predicate Inv(g: GameState)
  {
    Shapes(g.foundations, g.tableau, g.history, g.historyIndex)
  }

  ghost predicate Shapes(foundations: seq<Pile>, tableau: seq<Pile>, history: seq<Snapshot>, historyIndex: int)
  {
    && |foundations| == 4 && |tableau| == 7
    && 0 <= historyIndex < |history|
    && AllShaped(history)
  }

  /** The board and every saved board hold each card of the deck once. */
  ghost predicate Whole(g: GameState)
  {
    Holds(PilesOf(g), g.history)
  }

  ghost predicate Holds(board: Layout, history: seq<Snapshot>)
  {
    AllCards(board) == FullDeck() && AllComplete(history)
  }

  /** A deal holding the deck, saved as the only snapshot, is whole. */
  lemma StartHolds(board: Layout)
    requires AllCards(board) == FullDeck()
    ensures Holds(board, [Snapshot(board, 0, 0, 0)])
  {
  }

  // ---------------------------------------------------------------------
  // Bookkeeping

  /** saveToHistory(s): the entries past the index are cut off and s is
      appended as the new tip; nothing else changes. */
  function Saved(g: GameState, s: Snapshot): (r: GameState)
    requires -1 <= g.historyIndex < |g.history|
    ensures r.historyIndex == g.historyIndex + 1 && |r.history| == r.historyIndex + 1
    ensures r.history[r.historyIndex] == s
    ensures forall k :: 0 <= k <= g.historyIndex ==> r.history[k] == g.history[k]
    ensures r.(history := g.history, historyIndex := g.historyIndex) == g
    ensures Inv(g) && Shaped(s.board) ==> Inv(r)
  {
    var c := History.Commit(Timeline(g), s);
    forall k | 0 <= k <= g.historyIndex ensures c.entries[k] == g.history[k] {
      assert c.entries[..c.index][k] == g.history[..g.historyIndex + 1][k];
    }
    g.(history := c.entries, historyIndex := c.index)
  }

  /** The missed-move scan: one more missed move when the waste top or a
      face-up column top fits some foundation. */
  function MissedChecked(g: GameState): (r: GameState)
    ensures r.missedMoves == g.missedMoves + 1 <==>
      || (|g.waste| > 0 && Rules.FitsSomeFoundation(Top(g.waste), g.foundations))
      || exists c :: 0 <= c < |g.tableau| && |g.tableau[c]| > 0 && Top(g.tableau[c]).faceUp
           && Rules.FitsSomeFoundation(Top(g.tableau[c]), g.foundations)
    ensures r.missedMoves == g.missedMoves || r.missedMoves == g.missedMoves + 1
    ensures r.(missedMoves := g.missedMoves) == g
  {
    if Actions.NoFoundationMove(g.tableau, g.foundations, g.waste) then g
    else g.(missedMoves := g.missedMoves + 1)
  }

  /** incrementMoves: one more move, one more since the stock was emptied
      when it has been, and the missed-move scan. */
  function Counted(g: GameState): (r: GameState)
    ensures r.moves == g.moves + 1
    ensures r.movesAfterStockEmpty == g.movesAfterStockEmpty + (if g.stockEmptied then 1 else 0)
    ensures r.missedMoves == MissedChecked(g).missedMoves
    ensures r.(moves := g.moves, movesAfterStockEmpty := g.movesAfterStockEmpty, missedMoves := g.missedMoves) == g
  {
    var m := MissedChecked(g);
    m.(moves := g.moves + 1,
       movesAfterStockEmpty := if g.stockEmptied then g.movesAfterStockEmpty + 1 else g.movesAfterStockEmpty)
  }

  /** The state a move starts from, saved and counted. */
  function Begun(g: GameState): (r: GameState)
    requires Inv(g)
    ensures Inv(r) && PilesOf(r) == PilesOf(g)
    ensures r.history[r.historyIndex] == SnapshotOf(g) && r.historyIndex == g.historyIndex + 1
    ensures r.history[..r.historyIndex] == g.history[..g.historyIndex + 1]
  {
    var s := Saved(g, SnapshotOf(g));
    assert s.history[..s.historyIndex] == g.history[..g.historyIndex + 1];
    Counted(s)
  }

  /** Saving the board of a whole state keeps every snapshot whole. */
  lemma BegunKeepsCards(g: GameState)
    requires Inv(g) && Whole(g)
    ensures Whole(Begun(g))
  {
    var s := Saved(g, SnapshotOf(g));
    forall k | 0 <= k < |s.history| ensures AllCards(s.history[k].board) == FullDeck() {
      if k < |s.history| - 1 {
        assert s.history[k] == g.history[k];
      }
    }
  }

  // ---------------------------------------------------------------------
  // Drawing from the stock

  /** drawFromStock does nothing when both piles are empty, or when the
      stock is empty and the hard redeal limit is reached. */
  predicate Refused(g: GameState)
  {
    |g.stock| == 0 && (|g.waste| == 0 || (g.difficulty == Hard && g.redealCount >= RedealLimit))
  }

  /** drawFromStock: the waste recycled into the stock (one more redeal),
      or up to the draw count turned onto the waste (the draw that empties
      the stock sets the stock-empty mark), saved and counted. */
  function Drawn(g: GameState): (r: GameState)
    requires Inv(g)
    ensures Inv(r)
  {
    if Refused(g) then g
    else
      var b := Begun(g);
      var d := DrawLayout(PilesOf(b), DrawCount(g.difficulty));
      b.(stock := d.stock, waste := d.waste,
         redealCount := if |g.stock| == 0 then g.redealCount + 1 else g.redealCount,
         stockEmptied := g.stockEmptied || (|g.stock| > 0 && |d.stock| == 0))
  }

  /** The steps of drawFromStock: the state saved and counted, then the
      piles, redeals and the stock-empty mark set from the draw of the old
      piles. */
  lemma DrawnSteps(g: GameState)
    requires Inv(g) && !Refused(g)
    ensures var d := Actions.Drawn(g.stock, g.waste, DrawCount(g.difficulty));
      Drawn(g) == Begun(g).(stock := d.stock, waste := d.waste,
        redealCount := if |g.stock| == 0 then g.redealCount + 1 else g.redealCount,
        stockEmptied := g.stockEmptied || (|g.stock| > 0 && |d.stock| == 0))
  {
  }

  /** A draw changes the state exactly when it is not refused, and then it
      is one move: the piles are those of the draw, the state before is the
      new tip of the timeline. */
  lemma DrawnChanges(g: GameState)
    requires Inv(g)
    ensures Drawn(g) == g <==> Refused(g)
    ensures !Refused(g) ==>
      && Drawn(g).moves == g.moves + 1
      && PilesOf(Drawn(g)) == DrawLayout(PilesOf(g), DrawCount(g.difficulty))
      && Drawn(g).history[Drawn(g).historyIndex] == SnapshotOf(g)
  {
    if !Refused(g) {
      assert Drawn(g).moves != g.moves;
    }
  }

  /** A draw keeps every card of the deck once on the board. */
  lemma DrawnKeepsCards(g: GameState)
    requires Inv(g) && Whole(g)
    ensures Whole(Drawn(g))
  {
    if !Refused(g) {
      BegunKeepsCards(g);
    }
  }

  /** At the hard difficulty the waste is recycled at most three times. */
  lemma HardRedealBound(g: GameState)
    requires Inv(g) && g.difficulty == Hard && g.redealCount <= RedealLimit
    ensures Drawn(g).redealCount <= RedealLimit
    ensures Drawn(g).redealCount > g.redealCount ==> |g.stock| == 0 && |Drawn(g).waste| == 0
  {
  }

  /** The stock-empty mark, once set, stays set; moves made while it is set
      are counted, and the draw that sets it is not. */
  lemma StockEmptyCounting(g: GameState)
    requires Inv(g)
    ensures g.stockEmptied ==> Drawn(g).stockEmptied
    ensures Drawn(g).movesAfterStockEmpty == g.movesAfterStockEmpty + (if g.stockEmptied && !Refused(g) then 1 else 0)
    ensures !g.stockEmptied && Drawn(g).stockEmptied ==> |g.stock| > 0 && |Drawn(g).stock| == 0
  {
  }

  // ---------------------------------------------------------------------
  // Clicks and drops

  /** A click on a face-down column card: saved, counted, turned over. */
  function Flipped(g: GameState, column: nat, index: nat): (r: GameState)
    requires Inv(g) && column < 7 && index < |g.tableau[column]|
    ensures Inv(r) && PilesOf(r) == Flip(PilesOf(g), column, index)
    ensures |r.tableau[column]| == |g.tableau[column]| && r.tableau[column][index].faceUp
    ensures KeyOf(r.tableau[column][index]) == KeyOf(g.tableau[column][index])
    ensures r.moves == g.moves + 1 && r.history[r.historyIndex] == SnapshotOf(g)
  {
    var b := Begun(g);
    var f := Flip(PilesOf(b), column, index);
    assert PilesOf(b.(tableau := f.tableau)) == f;
    b.(tableau := f.tableau)
  }

  /** Turning a card over keeps every card. */
  lemma FlippedKeepsCards(g: GameState, column: nat, index: nat)
    requires Inv(g) && Whole(g) && column < 7 && index < |g.tableau[column]|
    ensures Whole(Flipped(g, column, index))
  {
    BegunKeepsCards(g);
  }

  /** moveCardToFoundation as written (see FoundationMoveAsWritten), saved
      and counted. */
  function ToFoundation(g: GameState, pos: Position, fi: nat): (r: GameState)
    requires Inv(g) && ValidPosition(PilesOf(g), pos) && fi < 4
    ensures Inv(r)
    ensures r.foundations[fi] == g.foundations[fi] + [CardAt(PilesOf(g), pos)]
    ensures r.moves == g.moves + 1 && r.history[r.historyIndex] == SnapshotOf(g)
    ensures PilesOf(r) == FoundationMoveAsWritten(PilesOf(g), pos, fi)
  {
    var b := Begun(g);
    var m := FoundationMoveAsWritten(PilesOf(g), pos, fi);
    assert PilesOf(b.(waste := m.waste, foundations := m.foundations, tableau := m.tableau)) == m;
    b.(waste := m.waste, foundations := m.foundations, tableau := m.tableau)
  }

  /** Sent from the top of the waste or of a column, a card reaches the
      foundation without any card being lost or copied. */
  lemma ToFoundationFromTops(g: GameState, pos: Position, fi: nat)
    requires Inv(g) && ValidPosition(PilesOf(g), pos) && fi < 4
    requires pos.WasteTop? || (pos.TableauCard? && pos.index == |g.tableau[pos.column]| - 1)
    ensures Whole(g) ==> Whole(ToFoundation(g, pos, fi))
  {
    if Whole(g) {
      BegunKeepsCards(g);
      AsWrittenOnTops(PilesOf(g), pos, fi);
    }
  }

  /** moveCardToTableau: nothing when the column's top does not accept the
      dragged card; otherwise the carried cards move, saved and counted. */
  function ToTableau(g: GameState, pos: Position, target: nat): (r: GameState)
    requires Inv(g) && ValidPosition(PilesOf(g), pos) && target < 7
    ensures Inv(r)
    ensures !Accepts(PilesOf(g), pos, target) ==> r == g
    ensures Accepts(PilesOf(g), pos, target) ==>
      && r.moves == g.moves + 1 && r.history[r.historyIndex] == SnapshotOf(g)
      && PilesOf(r) == TableauMove(PilesOf(g), pos, target)
  {
    if !Accepts(PilesOf(g), pos, target) then g
    else
      var b := Begun(g);
      var m := TableauMove(PilesOf(g), pos, target);
      assert PilesOf(b.(waste := m.waste, foundations := m.foundations, tableau := m.tableau)) == m;
      b.(waste := m.waste, foundations := m.foundations, tableau := m.tableau)
  }

  /** A move onto a column keeps every card. */
  lemma ToTableauKeepsCards(g: GameState, pos: Position, target: nat)
    requires Inv(g) && Whole(g) && ValidPosition(PilesOf(g), pos) && target < 7
    ensures Whole(ToTableau(g, pos, target))
  {
    if Accepts(PilesOf(g), pos, target) {
      BegunKeepsCards(g);
    }
  }

  /** handleCardClick: a stock card draws; a face-down column card is
      turned over; a face-up card goes to the first foundation that takes
      it; anything else only changes the selection, which is not part of
      the state here. */
  function Clicked(g: GameState, pos: Position): (r: GameState)
    requires Inv(g) && ValidPosition(PilesOf(g), pos)
    ensures Inv(r)
  {
    var card := CardAt(PilesOf(g), pos);
    if pos.StockTop? then Drawn(g)
    else if pos.TableauCard? && !card.faceUp then Flipped(g, pos.column, pos.index)
    else if card.faceUp && Actions.FirstFitting(card, g.foundations) >= 0 then
      ToFoundation(g, pos, Actions.FirstFitting(card, g.foundations))
    else g
  }

  /** What a click does, case by case: the first fitting foundation is the
      one the card reaches, and a click that leaves the board alone leaves
      the whole state alone. */
  lemma ClickedCases(g: GameState, pos: Position)
    requires Inv(g) && ValidPosition(PilesOf(g), pos)
    ensures var card := CardAt(PilesOf(g), pos);
      && (!pos.StockTop? && card.faceUp && Rules.FitsSomeFoundation(card, g.foundations) ==>
            exists j :: 0 <= j < 4 && Rules.IsValidFoundationMove(card, g.foundations[j])
              && (forall k :: 0 <= k < j ==> !Rules.IsValidFoundationMove(card, g.foundations[k]))
              && Clicked(g, pos) == ToFoundation(g, pos, j))
      && ((!pos.StockTop? && !(pos.TableauCard? && !card.faceUp)
             && !(card.faceUp && Rules.FitsSomeFoundation(card, g.foundations))) ==> Clicked(g, pos) == g)
  {
    var card := CardAt(PilesOf(g), pos);
    var j := Actions.FirstFitting(card, g.foundations);
    if !pos.StockTop? && card.faceUp && Rules.FitsSomeFoundation(card, g.foundations) {
      assert j >= 0;
      assert Clicked(g, pos) == ToFoundation(g, pos, j);
    }
  }

  /** A click on the stock, on the waste top or on a column's top keeps
      every card. */
  lemma ClickedOnTopsKeeps(g: GameState, pos: Position)
    requires Inv(g) && Whole(g) && ValidPosition(PilesOf(g), pos)
    requires pos.StockTop? || pos.WasteTop? || (pos.TableauCard? && pos.index == |g.tableau[pos.column]| - 1)
    ensures Whole(Clicked(g, pos))
  {
    var card := CardAt(PilesOf(g), pos);
    if pos.StockTop? {
      DrawnKeepsCards(g);
    } else if pos.TableauCard? && !card.faceUp {
      FlippedKeepsCards(g, pos.column, pos.index);
    } else if card.faceUp && Actions.FirstFitting(card, g.foundations) >= 0 {
      ToFoundationFromTops(g, pos, Actions.FirstFitting(card, g.foundations));
    }
  }

  /** handleDrop: onto a foundation the card moves when it fits there;
      onto a column the tableau move decides.  The dragged card is never
      the stock's: the stock card is face-down and not draggable. */
  function Dropped(g: GameState, pos: Position, target: Target): (r: GameState)
    requires Inv(g) && ValidPosition(PilesOf(g), pos) && !pos.StockTop?
    requires target.OnFoundation? ==> target.foundation < 4
    requires target.OnTableau? ==> target.column < 7
    ensures Inv(r)
    ensures target.OnFoundation? && !Rules.IsValidFoundationMove(CardAt(PilesOf(g), pos), g.foundations[target.foundation]) ==> r == g
  {
    match target
    case OnFoundation(f) =>
      if Rules.IsValidFoundationMove(CardAt(PilesOf(g), pos), g.foundations[f]) then ToFoundation(g, pos, f) else g
    case OnTableau(c) =>
      ToTableau(g, pos, c)
  }

  /** A drop onto a column, or of the waste top or a column's top onto a
      foundation, keeps every card. */
  lemma DroppedKeepsCards(g: GameState, pos: Position, target: Target)
    requires Inv(g) && Whole(g) && ValidPosition(PilesOf(g), pos) && !pos.StockTop?
    requires target.OnFoundation? ==> target.foundation < 4
    requires target.OnTableau? ==> target.column < 7
    requires target.OnTableau? || pos.WasteTop? || (pos.TableauCard? && pos.index == |g.tableau[pos.column]| - 1)
    ensures Whole(Dropped(g, pos, target))
  {
    match target
    case OnFoundation(f) =>
      if Rules.IsValidFoundationMove(CardAt(PilesOf(g), pos), g.foundations[f]) {
        ToFoundationFromTops(g, pos, f);
      }
    case OnTableau(c) =>
      ToTableauKeepsCards(g, pos, c);
  }

  // ---------------------------------------------------------------------
  // Undo and redo

  /** The setters handleUndo and handleRedo call with a saved snapshot. */
  function Restored(g: GameState, s: Snapshot): (r: GameState)
    ensures SnapshotOf(r) == s
    ensures r.history == g.history && r.historyIndex == g.historyIndex
    ensures r.redealCount == g.redealCount && r.gameWon == g.gameWon && r.gameLost == g.gameLost
    ensures r.missedMoves == g.missedMoves && r.stockEmptied == g.stockEmptied && r.difficulty == g.difficulty
  {
    g.(stock := s.board.stock, waste := s.board.waste, foundations := s.board.foundations,
       tableau := s.board.tableau, moves := s.moves, score := s.score, time := s.time)
  }

  /** handleUndo as written: the snapshot BEFORE the index is restored and
      the index steps back; at the first entry nothing happens. */
  function Undone(g: GameState): (r: GameState)
    requires Inv(g)
    ensures Inv(r)
    ensures Timeline(r) == History.Undo(Timeline(g))
    ensures History.CanUndo(Timeline(g)) ==> SnapshotOf(r) == History.RestoredByUndo(Timeline(g))
    ensures !History.CanUndo(Timeline(g)) ==> r == g
  {
    if g.historyIndex > 0 then Restored(g, g.history[g.historyIndex - 1]).(historyIndex := g.historyIndex - 1)
    else g
  }

  /** handleRedo: the snapshot after the index is restored and the index
      steps forward; at the tip nothing happens. */
  function Redone(g: GameState): (r: GameState)
    requires Inv(g)
    ensures Inv(r)
    ensures Timeline(r) == History.Redo(Timeline(g))
    ensures History.CanRedo(Timeline(g)) ==> SnapshotOf(r) == g.history[g.historyIndex + 1]
    ensures !History.CanRedo(Timeline(g)) ==> r == g
  {
    if g.historyIndex < |g.history| - 1 then Restored(g, g.history[g.historyIndex + 1]).(historyIndex := g.historyIndex + 1)
    else g
  }

  /** Whatever undo or redo restores is a saved snapshot, so it holds
      every card. */
  lemma TimelineKeepsCards(g: GameState)
    requires Inv(g) && Whole(g)
    ensures Whole(Undone(g)) && Whole(Redone(g))
  {
  }

  /** An undo after a redo (and a redo after an undo) puts the index back
      and shows the snapshot saved at it. */
  lemma UndoRedoRoundTrip(g: GameState)
    requires Inv(g)
    ensures History.CanUndo(Timeline(g)) ==>
      var r := Redone(Undone(g)); r.historyIndex == g.historyIndex && SnapshotOf(r) == g.history[g.historyIndex]
    ensures History.CanRedo(Timeline(g)) ==>
      var r := Undone(Redone(g)); r.historyIndex == g.historyIndex && SnapshotOf(r) == g.history[g.historyIndex]
  {
  }

  /** The intended handleUndo: the snapshot AT the index (the state the
      latest move started from) is restored and the index steps back. */
  function UndoneLatest(g: GameState): (r: GameState)
    requires Inv(g)
    ensures Inv(r)
    ensures History.CanUndo(Timeline(g)) ==> SnapshotOf(r) == g.history[g.historyIndex] && r.historyIndex == g.historyIndex - 1
    ensures !History.CanUndo(Timeline(g)) ==> r == g
  {
    if g.historyIndex > 0 then
      var u := History.UndoLatest(Timeline(g));
      Restored(g, u.1).(historyIndex := u.0.index)
    else g
  }

  lemma UndoneLatestKeepsCards(g: GameState)
    requires Inv(g) && Whole(g)
    ensures Whole(UndoneLatest(g))
  {
  }

  /** Right after any move, the written undo shows the snapshot saved
      before the PREVIOUS move, while the intended one gives back exactly
      the state the move started from. */
  lemma UndoAfterMove(g: GameState, r: GameState)
    requires Inv(g) && Inv(r)
    requires r.history == Begun(g).history && r.historyIndex == Begun(g).historyIndex
    ensures SnapshotOf(Undone(r)) == g.history[g.historyIndex]
    ensures SnapshotOf(UndoneLatest(r)) == SnapshotOf(g)
    ensures UndoneLatest(r).historyIndex == g.historyIndex
  {
    assert r.history[..r.historyIndex][g.historyIndex] == g.history[..g.historyIndex + 1][g.historyIndex];
  }

  /** So it is for a draw. */
  lemma UndoAfterDraw(g: GameState)
    requires Inv(g) && !Refused(g)
    ensures SnapshotOf(Undone(Drawn(g))) == g.history[g.historyIndex]
    ensures SnapshotOf(UndoneLatest(Drawn(g))) == SnapshotOf(g)
  {
    UndoAfterMove(g, Drawn(g));
  }

  // ---------------------------------------------------------------------
  // Automatic completion, win and loss

  predicate AllFaceUp(p: Pile)
  {
    forall i :: 0 <= i < |p| ==> p[i].faceUp
  }

  /** canAutoComplete: every column card face-up, the stock empty and the
      game not won. */
  predicate CanAutoComplete(g: GameState)
  {
    (forall c :: 0 <= c < |g.tableau| ==> AllFaceUp(g.tableau[c])) && |g.stock| == 0 && !g.gameWon
  }

  /** checkGameOver's verdict and reason for a game neither won nor lost. */
  function LossReason(validMovesExist: bool, stockEmptied: bool, movesAfterStockEmpty: nat, foundationCards: nat): (r: Option<string>)
    ensures r.None? <==> validMovesExist
    ensures r.Some? ==> (r.value == StockEmptyReason <==> stockEmptied && movesAfterStockEmpty >= 2 && foundationCards < 52)
    ensures r.Some? ==> r.value == StockEmptyReason || r.value == NoMovesReason
  {
    if validMovesExist then None
    else if stockEmptied && movesAfterStockEmpty >= 2 && foundationCards < 52 then Some(StockEmptyReason)
    else Some(NoMovesReason)
  }

  // ---------------------------------------------------------------------
  // The clock

  /** The timer effect's condition: a game started, not won, not paused.
      The effect runs again, starting or stopping the interval by this
      condition, only when one of these three flags changes. */
  predicate TimerCondition(g: GameState)
  {
    g.gameStarted && !g.gameWon && !g.gamePaused
  }

  /** The interval after initializeGame: the new game is started, not won
      and not paused, so the effect runs again (and starts the interval)
      only when the old state differed in one of those flags; otherwise
      the interval stays as it was. */
  function TimerAfterRestart(g: GameState): bool
  {
    if TimerCondition(g) then g.timerRunning else true
  }

  /** The state after one second of the interval. */
  function Ticked(g: GameState): (r: GameState)
    ensures r.time == g.time + (if g.timerRunning then 1 else 0)
    ensures r == g.(time := r.time)
  {
    if g.timerRunning then g.(time := g.time + 1) else g
  }

  /** The clock runs exactly while a game is started and neither won,
      lost nor paused. */
  predicate ClockAsIntended(g: GameState)
  {
    g.timerRunning == (TimerCondition(g) && !g.gameLost)
  }

  /** A fresh game as initializeGame leaves its flags: started, and neither
      won, lost nor paused, with the interval as `timer` says. */
  predicate FreshFlags(r: GameState, timer: bool)
  {
    r.gameStarted && !r.gameWon && !r.gameLost && !r.gamePaused && r.timerRunning == timer
  }

  /** As written, a game lost while unpaused (its interval cleared by the
      loss check) restarts with the interval still cleared: the new game's
      clock does not run, and a win then pays no time penalty. */
  lemma RestartAfterLossClockStopped(g: GameState, r: GameState)
    requires g.gameStarted && !g.gameWon && !g.gamePaused && g.gameLost && !g.timerRunning
    requires FreshFlags(r, TimerAfterRestart(g)) && r.time == 0
    ensures !ClockAsIntended(r)
    ensures Ticked(r) == r
    ensures Helpers.CalculateScore(r.moves, Ticked(r).time, true) == 500 - Helpers.Min(300, 2 * r.moves)
  {
    Helpers.ScoreInIntegers(r.moves, 0);
  }

  /** The intended restart starts the interval whatever the old state. */
  function TimerAfterRestartCorrected(g: GameState): bool
  {
    true
  }

  /** After the intended restart the clock runs as intended, and each
      second is counted. */
  lemma RestartCorrectedClockRuns(g: GameState, r: GameState)
    requires FreshFlags(r, TimerAfterRestartCorrected(g))
    ensures ClockAsIntended(r)
    ensures Ticked(r).time == r.time + 1
  {
  }

  /** A game as initializeGame deals it: every counter and flag reset but
      the clock's, a fresh deck built and shuffled by `picks`, the columns
      dealt from its end, the rest of it the stock, and the deal the only
      snapshot. */
  predicate FreshDeal(g: GameState, picks: seq<nat>)
    requires Helpers.ValidPicks(picks, 52)
  {
    && !g.gameWon && !g.gameLost && !g.gamePaused && g.gameStarted
    && g.moves == 0 && g.missedMoves == 0 && g.score == 0 && g.time == 0 && g.redealCount == 0
    && !g.stockEmptied && g.movesAfterStockEmpty == 0 && g.gameOverReason == ""
    && g.deck == Helpers.Shuffled(Deck.StandardDeck(), picks) && |g.deck| == 52
    && |g.tableau| == 7 && (forall i :: 0 <= i < 7 ==> g.tableau[i] == Deck.DealtColumn(g.deck, i))
    && g.stock == g.deck[..24] && g.waste == [] && g.foundations == Deck.Empties(4)
    && g.history == [SnapshotOf(g)] && g.historyIndex == 0
  }

  // ---------------------------------------------------------------------
  // The component

  /** The component: its state hooks are the fields of one GameState
      value, which each handler replaces. */
  class Game {
    var state: GameState

    ghost predicate Valid()
      reads this
    {
      Inv(state)
    }

    /** Every card of the deck once on the board and in every snapshot. */
    ghost predicate Complete()
      reads this
    {
      Whole(state)
    }

    // -------------------------------------------------------------------
    // Starting a game

    /** The component's first render deals a game at the easy difficulty. */
    constructor(picks: seq<nat>)
      requires Helpers.ValidPicks(picks, 52)
      ensures Valid() && Complete()
      ensures FreshDeal(state, picks)
      ensures state.difficulty == Easy && state.timerRunning
    {
      state := GameState([], [], [], Deck.Empties(4), Deck.Empties(7), 0, 0, 0, 0,
        false, false, false, false, false, false, 0, "", [], -1, Easy, 0);
      new;
      InitializeGame(picks);
    }

    /** initializeGame: a fresh deal at the same difficulty; the interval is
        started only from a state whose clock effect would restart it. */
    method InitializeGame(picks: seq<nat>)
      requires Helpers.ValidPicks(picks, 52)
      modifies this
      ensures Valid() && Complete()
      ensures FreshDeal(state, picks)
      ensures state.difficulty == old(state.difficulty)
      ensures state.timerRunning == TimerAfterRestart(old(state))
    {
      var newDeck := Deck.BuildDeck();
      var shuffled := Helpers.ShuffleArray(newDeck, picks);
      assert |shuffled| == |multiset(shuffled)| == |multiset(newDeck)| == 52;
      Deck.PermutationKeys(shuffled, newDeck);
      var dealt, remaining := Deck.Deal(shuffled);
      var board := Layout(remaining, [], Deck.Empties(4), dealt);
      assert AllCards(board) == FullDeck();
      StartHolds(board);
      state := GameState(shuffled, remaining, [], Deck.Empties(4), dealt, 0, 0, 0, 0,
        true, false, false, false, TimerAfterRestart(state), false, 0, "",
        [Snapshot(board, 0, 0, 0)], 0, state.difficulty, 0);
    }

    /** restartGame deals a new game, keeping the difficulty. */
    method RestartGame(picks: seq<nat>)
      requires Helpers.ValidPicks(picks, 52)
      modifies this
      ensures Valid() && Complete()
      ensures FreshDeal(state, picks)
      ensures state.difficulty == old(state.difficulty)
      ensures state.timerRunning == TimerAfterRestart(old(state))
    {
      InitializeGame(picks);
    }

    /** A game lost while unpaused, restarted: as written, the new deal's
        clock stays stopped and no second is counted. */
    method RestartAfterLoss(picks: seq<nat>)
      requires Valid() && Helpers.ValidPicks(picks, 52)
      requires state.gameStarted && !state.gameWon && !state.gameLost && !state.gamePaused
      requires state.timerRunning && !Rules.SomeMoveLeft(state.tableau, state.foundations, state.waste, state.stock)
      modifies this
      ensures FreshDeal(state, picks)
      ensures !ClockAsIntended(state) && Ticked(state) == state
    {
      CheckGameOver();
      var lost := state;
      RestartGame(picks);
      RestartAfterLossClockStopped(lost, state);
    }

    // -------------------------------------------------------------------
    // Bookkeeping

    /** saveToHistory. */
    method SaveToHistory(s: Snapshot)
      requires -1 <= state.historyIndex < |state.history|
      modifies this
      ensures state == Saved(old(state), s)
    {
      var c := History.Commit(Timeline(state), s);
      state := state.(history := c.entries, historyIndex := c.index);
    }

    /** checkMissedMoves. */
    method CheckMissedMoves()
      requires |state.tableau| == 7 && |state.foundations| == 4
      modifies this
      ensures state == MissedChecked(old(state))
    {
      var missed := MissedFoundationMove(state.tableau, state.foundations, state.waste);
      if missed {
        state := state.(missedMoves := state.missedMoves + 1);
      }
    }

    /** incrementMoves. */
    method IncrementMoves()
      requires |state.tableau| == 7 && |state.foundations| == 4
      modifies this
      ensures state == Counted(old(state))
    {
      var m := state.moves;
      if state.stockEmptied {
        state := state.(movesAfterStockEmpty := state.movesAfterStockEmpty + 1);
      }
      CheckMissedMoves();
      state := state.(moves := m + 1);
    }

    /** The bookkeeping every move starts with: the state saved, then
        counted. */
    method BeginMove()
      requires Valid()
      modifies this
      ensures state == Begun(old(state))
    {
      SaveToHistory(SnapshotOf(state));
      IncrementMoves();
    }

    // -------------------------------------------------------------------
    // Handlers

    /** drawFromStock, with the redeal limit of the hard difficulty. */
    method DrawFromStock()
      requires Valid()
      modifies this
      ensures state == Drawn(old(state))
      ensures Valid()
    {
      var g := state;
      if |g.stock| == 0 {
        if |g.waste| == 0 {
          return;
        }
        if g.difficulty == Hard && g.redealCount >= RedealLimit {
          return;
        }
      }
      DrawnSteps(g);
      var r := Actions.DrawFromStock(g.stock, g.waste, DrawCount(g.difficulty));
      BeginMove();
      state := state.(stock := r.stock, waste := r.waste,
        redealCount := if |g.stock| == 0 then g.redealCount + 1 else g.redealCount,
        stockEmptied := g.stockEmptied || (|g.stock| > 0 && |r.stock| == 0));
    }

    /** handleCardClick. */
    method HandleCardClick(pos: Position)
      requires Valid() && ValidPosition(PilesOf(state), pos)
      modifies this
      ensures state == Clicked(old(state), pos)
      ensures Valid()
    {
      var g := state;
      var card := CardAt(PilesOf(g), pos);
      if pos.StockTop? {
        DrawFromStock();
        return;
      }
      if pos.TableauCard? && !card.faceUp {
        var flipped := Flip(PilesOf(g), pos.column, pos.index);
        BeginMove();
        state := state.(tableau := flipped.tableau);
        return;
      }
      if card.faceUp {
        var j := Actions.FirstFittingFoundation(card, g.foundations);
        if j >= 0 {
          MoveCardToFoundation(pos, j);
          return;
        }
      }
    }

    /** moveCardToFoundation as written. */
    method MoveCardToFoundation(pos: Position, fi: nat)
      requires Valid() && ValidPosition(PilesOf(state), pos) && fi < 4
      modifies this
      ensures state == ToFoundation(old(state), pos, fi)
      ensures Valid()
    {
      var after := FoundationMoveAsWritten(PilesOf(state), pos, fi);
      BeginMove();
      state := state.(waste := after.waste, foundations := after.foundations, tableau := after.tableau);
    }

    /** moveCardToTableau. */
    method MoveCardToTableau(pos: Position, target: nat)
      requires Valid() && ValidPosition(PilesOf(state), pos) && target < 7
      modifies this
      ensures state == ToTableau(old(state), pos, target)
      ensures Valid()
    {
      if !Accepts(PilesOf(state), pos, target) {
        return;
      }
      var after := TableauMove(PilesOf(state), pos, target);
      BeginMove();
      state := state.(waste := after.waste, foundations := after.foundations, tableau := after.tableau);
    }

    /** handleDrop. */
    method HandleDrop(pos: Position, target: Target)
      requires Valid() && ValidPosition(PilesOf(state), pos) && !pos.StockTop?
      requires target.OnFoundation? ==> target.foundation < 4
      requires target.OnTableau? ==> target.column < 7
      modifies this
      ensures state == Dropped(old(state), pos, target)
      ensures Valid()
    {
      match target
      case OnFoundation(f) =>
        if Rules.IsValidFoundationMove(CardAt(PilesOf(state), pos), state.foundations[f]) {
          MoveCardToFoundation(pos, f);
        }
      case OnTableau(c) =>
        MoveCardToTableau(pos, c);
    }

    /** The setters handleUndo and handleRedo call with a snapshot. */
    method Restore(s: Snapshot)
      modifies this
      ensures state == Restored(old(state), s)
    {
      state := state.(stock := s.board.stock, waste := s.board.waste, foundations := s.board.foundations,
        tableau := s.board.tableau, moves := s.moves, score := s.score, time := s.time);
    }

    /** handleUndo. */
    method HandleUndo()
      requires Valid()
      modifies this
      ensures state == Undone(old(state))
      ensures Valid()
    {
      if state.historyIndex > 0 {
        var i := state.historyIndex;
        var previous := state.history[i - 1];
        Restore(previous);
        state := state.(historyIndex := i - 1);
      }
    }

    /** handleRedo. */
    method HandleRedo()
      requires Valid()
      modifies this
      ensures state == Redone(old(state))
      ensures Valid()
    {
      if state.historyIndex < |state.history| - 1 {
        var i := state.historyIndex;
        var next := state.history[i + 1];
        Restore(next);
        state := state.(historyIndex := i + 1);
      }
    }

    /** handleAutoComplete: when possible, the state is saved and the loop
        sends tops to the foundations until none fits; the moves counter
        grows by the number of cards sent. */
    method HandleAutoComplete()
      requires Valid()
      modifies this
      ensures Valid()
      ensures !CanAutoComplete(old(state)) ==> state == old(state)
      ensures CanAutoComplete(old(state)) ==>
        var g := old(state);
        && state == Saved(g, SnapshotOf(g)).(
             tableau := state.tableau, foundations := state.foundations, waste := state.waste, moves := state.moves)
        && AllCards(PilesOf(state)) == AllCards(PilesOf(g))
        && Stuck(state.tableau, state.foundations, state.waste)
        && Prefixes(state.tableau, g.tableau) && Prefixes(g.foundations, state.foundations) && state.waste <= g.waste
        && state.moves == g.moves + (|AllKeys(state.foundations)| - |AllKeys(g.foundations)|)
        && (Actions.AllBuiltLegally(g.foundations) ==> Actions.AllBuiltLegally(state.foundations))
    {
      var g := state;
      if !CanAutoComplete(g) {
        return;
      }
      var t, f, w, movesMade := AutoComplete(g.tableau, g.foundations, g.waste);
      SaveToHistory(SnapshotOf(g));
      state := state.(tableau := t, foundations := f, waste := w, moves := g.moves + movesMade);
    }

    /** checkWinCondition: all four foundations full makes the game won,
        once, with the final score. */
    method CheckWinCondition()
      requires Valid()
      modifies this
      ensures Valid()
      ensures var g := old(state); var won := Rules.IsGameWon(g.foundations) && !g.gameWon;
        && state.gameWon == (g.gameWon || Rules.IsGameWon(g.foundations))
        && state.score == (if won then Helpers.CalculateScore(g.moves, g.time, true) else g.score)
        && state.timerRunning == (g.timerRunning && !won)
        && state == g.(gameWon := state.gameWon, score := state.score, timerRunning := state.timerRunning)
      ensures ClockAsIntended(old(state)) ==> ClockAsIntended(state)
    {
      if Rules.IsGameWon(state.foundations) && !state.gameWon {
        state := state.(gameWon := true, score := Helpers.CalculateScore(state.moves, state.time, true),
                        timerRunning := false);
      }
    }

    /** checkGameOver: a game neither won nor lost is lost when no move is
        left, with the reason LossReason gives. */
    method CheckGameOver()
      requires Valid()
      modifies this
      ensures Valid()
      ensures var g := old(state);
        && (g.gameWon || g.gameLost ==> state == g)
        && (!g.gameWon && !g.gameLost ==>
              var verdict := LossReason(Rules.SomeMoveLeft(g.tableau, g.foundations, g.waste, g.stock),
                g.stockEmptied, g.movesAfterStockEmpty, FoundationCount(g.foundations));
              state == if verdict.Some? then g.(gameLost := true, gameOverReason := verdict.value, timerRunning := false)
                       else g)
      ensures ClockAsIntended(old(state)) ==> ClockAsIntended(state)
    {
      var g := state;
      if g.gameWon || g.gameLost {
        return;
      }
      var validMovesExist := Rules.HasValidMoves(g.tableau, g.foundations, g.waste, g.stock);
      var gameOver := false;
      var reason := "";
      if !validMovesExist {
        gameOver := true;
        reason := NoMovesReason;
      }
      if g.stockEmptied && g.movesAfterStockEmpty >= 2 {
        var totalFoundationCards := FoundationCount(g.foundations);
        if totalFoundationCards < 52 && !validMovesExist {
          gameOver := true;
          reason := StockEmptyReason;
        }
      }
      if gameOver {
        state := state.(gameLost := true, gameOverReason := reason, timerRunning := false);
      }
    }

    // -------------------------------------------------------------------
    // Effects and controls

    /** The score effect: while a game runs, the score follows the moves,
        the time and whether the game is won. */
    method RefreshScore()
      requires Valid()
      modifies this
      ensures Valid()
      ensures var g := old(state);
        state == g.(score := if g.gameStarted then Helpers.CalculateScore(g.moves, g.time, g.gameWon) else g.score)
    {
      if state.gameStarted {
        state := state.(score := Helpers.CalculateScore(state.moves, state.time, state.gameWon));
      }
    }

    /** One second of the interval: the time grows by one while the
        interval is live. */
    method Tick()
      requires Valid()
      modifies this
      ensures Valid()
      ensures state == Ticked(old(state))
    {
      if state.timerRunning {
        state := state.(time := state.time + 1);
      }
    }

    /** togglePause. */
    method TogglePause()
      requires Valid()
      modifies this
      ensures Valid()
      ensures var g := old(state);
        && state == g.(gamePaused := !g.gamePaused, timerRunning := state.timerRunning)
        && state.timerRunning == TimerCondition(state)
    {
      state := state.(gamePaused := !state.gamePaused);
      state := state.(timerRunning := TimerCondition(state));
    }

    /** The settings' difficulty choice; it takes effect at the next draw. */
    method SetDifficulty(d: Difficulty)
      requires Valid()
      modifies this
      ensures Valid()
      ensures state == old(state).(difficulty := d)
    {
      state := state.(difficulty := d);
    }
  }
}
