/**
 * The board of the game component as a value, and the transitions its
 * handlers apply to it: the click that turns a tableau card over, the move
 * of a card onto a foundation (as the component writes it, and as it is
 * evidently meant), the move of cards onto a column, the auto-complete
 * loop and the missed-move scan.
 */
module Board {
  import opened Cards
  import Rules
  import Actions

  /** The four groups of piles a snapshot holds. */
  datatype Layout = Layout(stock: Pile, waste: Pile, foundations: seq<Pile>, tableau: seq<Pile>)

  /** Four foundations and seven columns. */
  predicate Shaped(b: Layout)
  {
    |b.foundations| == 4 && |b.tableau| == 7
  }

  /** Every card on the board, by suit and rank. */
  function AllCards(b: Layout): multiset<Key>
  {
    Keys(b.stock) + Actions.Held(b.tableau, b.foundations, b.waste)
  }

  /** New stock and waste holding the cards of the old ones keep the
      board's cards. */
  lemma StockWasteCards(b: Layout, stock: Pile, waste: Pile)
    requires Keys(stock) + Keys(waste) == Keys(b.stock) + Keys(b.waste)
    ensures AllCards(b.(stock := stock, waste := waste)) == AllCards(b)
  {
    forall k ensures AllCards(b.(stock := stock, waste := waste))[k] == AllCards(b)[k] {
      assert (Keys(stock) + Keys(waste))[k] == (Keys(b.stock) + Keys(b.waste))[k];
    }
  }

  /** The board after a draw of up to `count` cards (or a recycle). */
  function DrawLayout(b: Layout, count: nat): (r: Layout)
    ensures r.foundations == b.foundations && r.tableau == b.tableau
    ensures Actions.StockWaste(r.stock, r.waste) == Actions.Drawn(b.stock, b.waste, count)
    ensures AllCards(r) == AllCards(b)
  {
    var d := Actions.Drawn(b.stock, b.waste, count);
    Actions.DrawnKeeps(b.stock, b.waste, count);
    StockWasteCards(b, d.stock, d.waste);
    b.(stock := d.stock, waste := d.waste)
  }

  /** Where a clicked or dragged card lies: the top of the stock, of the
      waste or of a foundation, or any card of a column. */
  datatype Position = StockTop | WasteTop | FoundationTop(foundation: nat) | TableauCard(column: nat, index: nat)

  /** Where a dragged card is dropped. */
  datatype Target = OnFoundation(foundation: nat) | OnTableau(column: nat)

  /** There is a card at the position. */
  predicate ValidPosition(b: Layout, pos: Position)
    requires Shaped(b)
  {
    match pos
    case StockTop => |b.stock| > 0
    case WasteTop => |b.waste| > 0
    case FoundationTop(f) => f < 4 && |b.foundations[f]| > 0
    case TableauCard(c, i) => c < 7 && i < |b.tableau[c]|
  }

  function CardAt(b: Layout, pos: Position): Card
    requires Shaped(b) && ValidPosition(b, pos)
  {
    match pos
    case StockTop => Top(b.stock)
    case WasteTop => Top(b.waste)
    case FoundationTop(f) => Top(b.foundations[f])
    case TableauCard(c, i) => b.tableau[c][i]
  }

  // ---------------------------------------------------------------------
  // Turning a tableau card over

  /** Replacing a card by one with the same suit and rank keeps the cards
      of a row of piles. */
  lemma ReplaceSameKey(ps: seq<Pile>, c: nat, i: nat, card: Card)
    requires c < |ps| && i < |ps[c]| && KeyOf(card) == KeyOf(ps[c][i])
    ensures AllKeys(ps[c := ps[c][i := card]]) == AllKeys(ps)
  {
    var q := ps[c][i := card];
    assert KeySeq(q) == KeySeq(ps[c]);
    AllKeysUpdate(ps, c, q);
    Cancel(AllKeys(ps[c := q]), AllKeys(ps), Keys(q));
  }

  /** A click on a face-down tableau card turns that card face-up where it
      lies, whatever covers it. */
  function Flip(b: Layout, column: nat, index: nat): (r: Layout)
    requires Shaped(b) && column < 7 && index < |b.tableau[column]|
    ensures Shaped(r) && r.stock == b.stock && r.waste == b.waste && r.foundations == b.foundations
    ensures forall c :: 0 <= c < 7 ==> |r.tableau[c]| == |b.tableau[c]|
    ensures r.tableau[column][index].faceUp
    ensures KeyOf(r.tableau[column][index]) == KeyOf(b.tableau[column][index])
    ensures forall c, i :: 0 <= c < 7 && 0 <= i < |b.tableau[c]| && (c != column || i != index) ==>
      r.tableau[c][i] == b.tableau[c][i]
    ensures AllCards(r) == AllCards(b)
  {
    var card := b.tableau[column][index];
    ReplaceSameKey(b.tableau, column, index, card.(faceUp := true));
    b.(tableau := b.tableau[column := b.tableau[column][index := card.(faceUp := true)]])
  }

  /** Turning a card over twice is turning it over once. */
  lemma FlipIdempotent(b: Layout, column: nat, index: nat)
    requires Shaped(b) && column < 7 && index < |b.tableau[column]|
    ensures Flip(Flip(b, column, index), column, index) == Flip(b, column, index)
  {
    var once := Flip(b, column, index);
    var up := b.tableau[column][index].(faceUp := true);
    assert once.tableau[column][index] == up && up.(faceUp := true) == up;
    assert once.tableau[column][index := up] == once.tableau[column];
    assert once.tableau[column := once.tableau[column]] == once.tableau;
  }

  // ---------------------------------------------------------------------
  // Moving a card onto a foundation

  /** moveCardToFoundation as the component writes it: the card goes onto
      the foundation; a column source is cut back to the cards below the
      card (its new top exposed), a waste source loses its top, and any
      other source loses nothing. */
  function FoundationMoveAsWritten(b: Layout, pos: Position, fi: nat): (r: Layout)
    requires Shaped(b) && ValidPosition(b, pos) && fi < 4
    ensures Shaped(r) && r.stock == b.stock
    ensures r.foundations[fi] == b.foundations[fi] + [CardAt(b, pos)]
    ensures forall f :: 0 <= f < 4 && f != fi ==> r.foundations[f] == b.foundations[f]
    ensures pos.WasteTop? ==> r.waste == Pop(b.waste) && r.tableau == b.tableau
    ensures pos.TableauCard? ==>
      && r.waste == b.waste
      && r.tableau[pos.column] == Actions.ExposeTop(b.tableau[pos.column][..pos.index])
      && forall c :: 0 <= c < 7 && c != pos.column ==> r.tableau[c] == b.tableau[c]
    ensures (pos.StockTop? || pos.FoundationTop?) ==> r.waste == b.waste && r.tableau == b.tableau
  {
    var f := b.foundations[fi := b.foundations[fi] + [CardAt(b, pos)]];
    match pos
    case TableauCard(c, i) =>
      b.(foundations := f, tableau := b.tableau[c := Actions.ExposeTop(b.tableau[c][..i])])
    case WasteTop =>
      b.(foundations := f, waste := Pop(b.waste))
    case _ =>
      b.(foundations := f)
  }

  /** The foundations gain exactly the moved card, in both the written and
      the corrected move. */
  lemma GainOne(b: Layout, card: Card, fi: nat)
    requires Shaped(b) && fi < 4
    ensures AllKeys(b.foundations[fi := b.foundations[fi] + [card]]) == AllKeys(b.foundations) + multiset{KeyOf(card)}
  {
    PushOnto(b.foundations, fi, card);
  }

  /** As written, moving a card from a column takes away with it every card
      that covers it: the board afterwards lacks exactly those cards, so a
      covered card sent to a foundation loses cards. */
  lemma AsWrittenDropsCovering(b: Layout, column: nat, index: nat, fi: nat)
    requires Shaped(b) && column < 7 && index < |b.tableau[column]| && fi < 4
    ensures var r := FoundationMoveAsWritten(b, TableauCard(column, index), fi);
      AllCards(r) + Keys(b.tableau[column][index + 1..]) == AllCards(b)
    ensures index < |b.tableau[column]| - 1 ==>
      |AllCards(FoundationMoveAsWritten(b, TableauCard(column, index), fi))| < |AllCards(b)|
  {
    var col := b.tableau[column];
    var card := col[index];
    var r := FoundationMoveAsWritten(b, TableauCard(column, index), fi);
    GainOne(b, card, fi);
    CutColumn(b.tableau, column, index);
    KeysSplit(col[index..], 1);
    assert col[index..][..1] == [card] && col[index..][1..] == col[index + 1..];
    assert KeySeq([card]) == [KeyOf(card)];
    Rebalance(b, r, Keys(col[index + 1..]), KeyOf(card));
    if index < |col| - 1 {
      assert |Keys(col[index + 1..])| == |col[index + 1..]| > 0;
    }
  }

  /** A move that keeps the stock and the waste, takes `lost` and one card
      off the tableau and puts that card on the foundations loses `lost`. */
  lemma Rebalance(b: Layout, r: Layout, lost: multiset<Key>, card: Key)
    requires r.stock == b.stock && r.waste == b.waste
    requires AllKeys(r.tableau) + (multiset{card} + lost) == AllKeys(b.tableau)
    requires AllKeys(r.foundations) == AllKeys(b.foundations) + multiset{card}
    ensures AllCards(r) + lost == AllCards(b)
  {
    forall k ensures (AllCards(r) + lost)[k] == AllCards(b)[k] {
      assert (AllKeys(r.tableau) + (multiset{card} + lost))[k] == AllKeys(b.tableau)[k];
    }
  }

  /** Cutting a column back to its first i cards (the new top exposed)
      removes exactly the cards from i up. */
  lemma CutColumn(ps: seq<Pile>, c: nat, i: nat)
    requires c < |ps| && i <= |ps[c]|
    ensures AllKeys(ps[c := Actions.ExposeTop(ps[c][..i])]) + Keys(ps[c][i..]) == AllKeys(ps)
  {
    var q := Actions.ExposeTop(ps[c][..i]);
    AllKeysUpdate(ps, c, q);
    KeysSplit(ps[c], i);
    Cancel(AllKeys(ps[c := q]) + Keys(ps[c][i..]), AllKeys(ps), Keys(q));
  }

  /** As written, a card moved from a foundation (or from the stock) is
      added without being taken away: the board gains a second copy. */
  lemma AsWrittenDuplicates(b: Layout, pos: Position, fi: nat)
    requires Shaped(b) && ValidPosition(b, pos) && fi < 4
    requires pos.FoundationTop? || pos.StockTop?
    ensures AllCards(FoundationMoveAsWritten(b, pos, fi)) == AllCards(b) + multiset{KeyOf(CardAt(b, pos))}
  {
    GainOne(b, CardAt(b, pos), fi);
  }

  /** When the card is the top of the waste or of a column, the written
      move is the corrected one and keeps every card. */
  lemma AsWrittenOnTops(b: Layout, pos: Position, fi: nat)
    requires Shaped(b) && ValidPosition(b, pos) && fi < 4
    requires pos.WasteTop? || (pos.TableauCard? && pos.index == |b.tableau[pos.column]| - 1)
    ensures FoundationMoveAsWritten(b, pos, fi) == FoundationMoveCorrected(b, pos, fi)
    ensures AllCards(FoundationMoveAsWritten(b, pos, fi)) == AllCards(b)
  {
    if pos.TableauCard? {
      assert b.tableau[pos.column][..pos.index] == Pop(b.tableau[pos.column]);
    }
  }

  /** The intended move onto a foundation: only a top card moves, and it
      leaves its source (a column's new top is exposed); a covered card,
      the stock, or a foundation onto itself moves nothing. */
  function FoundationMoveCorrected(b: Layout, pos: Position, fi: nat): (r: Layout)
    requires Shaped(b) && ValidPosition(b, pos) && fi < 4
    ensures Shaped(r) && r.stock == b.stock
    ensures AllCards(r) == AllCards(b)
    ensures r != b ==> r.foundations[fi] == b.foundations[fi] + [CardAt(b, pos)]
    ensures pos.TableauCard? && pos.index < |b.tableau[pos.column]| - 1 ==> r == b
  {
    match pos
    case TableauCard(c, i) =>
      var m := Actions.MoveTableauToFoundation(b.tableau, b.foundations, c, i, fi);
      Actions.HeldFrame(b.tableau, b.foundations, m.tableau, m.foundations, b.waste);
      b.(tableau := m.tableau, foundations := m.foundations)
    case WasteTop =>
      var m := Actions.MoveWasteToFoundation(b.waste, b.foundations, fi);
      WasteHeld(b, m.waste, m.foundations);
      b.(waste := m.waste, foundations := m.foundations)
    case FoundationTop(f) =>
      if f == fi then b
      else
        var card := Top(b.foundations[f]);
        var popped := b.foundations[f := Pop(b.foundations[f])];
        TakeTop(b.foundations, f, Pop(b.foundations[f]));
        PushOnto(popped, fi, card);
        var r := b.(foundations := popped[fi := popped[fi] + [card]]);
        assert AllKeys(r.foundations) == AllKeys(b.foundations);
        r
    case StockTop => b
  }

  lemma WasteHeld(b: Layout, w: Pile, f: seq<Pile>)
    requires Keys(w) + AllKeys(f) == Keys(b.waste) + AllKeys(b.foundations)
    ensures Actions.Held(b.tableau, f, w) == Actions.Held(b.tableau, b.foundations, b.waste)
  {
    forall k ensures Actions.Held(b.tableau, f, w)[k] == Actions.Held(b.tableau, b.foundations, b.waste)[k] {
      assert (Keys(w) + AllKeys(f))[k] == (Keys(b.waste) + AllKeys(b.foundations))[k];
    }
  }

  // ---------------------------------------------------------------------
  // Moving cards onto a column

  /** The check moveCardToTableau makes before it moves anything: the
      dragged card against the target column's top. */
  predicate Accepts(b: Layout, pos: Position, target: nat)
    requires Shaped(b) && ValidPosition(b, pos) && target < 7
  {
    Rules.IsValidMove(CardAt(b, pos), TopOpt(b.tableau[target]), |b.tableau[target]| == 0)
  }

  /** The cards a move onto a column carries: a column's card with every
      card on it, or the single top of the waste or of a foundation. */
  function Carried(b: Layout, pos: Position): Pile
    requires Shaped(b) && ValidPosition(b, pos)
  {
    match pos
    case StockTop => []
    case WasteTop => [Top(b.waste)]
    case FoundationTop(f) => [Top(b.foundations[f])]
    case TableauCard(c, i) => b.tableau[c][i..]
  }

  /** moveCardToTableau once the check has passed: the carried cards go
      onto the target column, in order, and leave their source (a column's
      new top is exposed); the stock does not take part. */
  function TableauMove(b: Layout, pos: Position, target: nat): (r: Layout)
    requires Shaped(b) && ValidPosition(b, pos) && target < 7
    ensures Shaped(r) && r.stock == b.stock
    ensures AllCards(r) == AllCards(b)
    ensures !(pos.TableauCard? && pos.column == target) ==>
      r.tableau[target] == b.tableau[target] + Carried(b, pos)
    ensures pos.TableauCard? && pos.column != target ==>
      && r.waste == b.waste && r.foundations == b.foundations
      && r.tableau[pos.column] == Actions.ExposeTop(b.tableau[pos.column][..pos.index])
      && forall c :: 0 <= c < 7 && c != pos.column && c != target ==> r.tableau[c] == b.tableau[c]
    ensures pos.TableauCard? && pos.column == target ==>
      var col := b.tableau[target];
      && r.waste == b.waste && r.foundations == b.foundations
      && r.tableau == b.tableau[target := Actions.ExposeTop(col[..pos.index]) + col[pos.index..]]
    ensures pos.WasteTop? ==>
      && r.waste == Pop(b.waste) && r.foundations == b.foundations
      && forall c :: 0 <= c < 7 && c != target ==> r.tableau[c] == b.tableau[c]
    ensures pos.FoundationTop? ==>
      && r.waste == b.waste
      && r.foundations == b.foundations[pos.foundation := Pop(b.foundations[pos.foundation])]
      && forall c :: 0 <= c < 7 && c != target ==> r.tableau[c] == b.tableau[c]
    ensures pos.StockTop? ==> r == b
  {
    match pos
    case TableauCard(c, i) =>
      var t := Actions.MoveTableauToTableau(b.tableau, c, i, target);
      Actions.HeldFrame(b.tableau, b.foundations, t, b.foundations, b.waste);
      b.(tableau := t)
    case WasteTop =>
      var m := Actions.MoveWasteToTableau(b.waste, b.tableau, target);
      ColumnHeld(b, m.waste, m.tableau);
      b.(waste := m.waste, tableau := m.tableau)
    case FoundationTop(f) =>
      var m := Actions.MoveFoundationToTableau(b.foundations, b.tableau, f, target);
      Actions.HeldFrame(b.tableau, b.foundations, m.tableau, m.foundations, b.waste);
      assert m.foundations == b.foundations[f := Pop(b.foundations[f])];
      b.(tableau := m.tableau, foundations := m.foundations)
    case StockTop => b
  }

  lemma ColumnHeld(b: Layout, w: Pile, t: seq<Pile>)
    requires Keys(w) + AllKeys(t) == Keys(b.waste) + AllKeys(b.tableau)
    ensures Actions.Held(t, b.foundations, w) == Actions.Held(b.tableau, b.foundations, b.waste)
  {
    forall k ensures Actions.Held(t, b.foundations, w)[k] == Actions.Held(b.tableau, b.foundations, b.waste)[k] {
      assert (Keys(w) + AllKeys(t))[k] == (Keys(b.waste) + AllKeys(b.tableau))[k];
    }
  }

  // ---------------------------------------------------------------------
  // The missed-move scan

  /** checkMissedMoves' scan: whether the waste top, or a face-up column
      top, fits some foundation. */
  method MissedFoundationMove(tableau: seq<Pile>, foundations: seq<Pile>, waste: Pile) returns (missed: bool)
    requires |tableau| == 7 && |foundations| == 4
    ensures missed <==> !Actions.NoFoundationMove(tableau, foundations, waste)
  {
    missed := false;
    if |waste| > 0 {
      var j := Actions.FirstFittingFoundation(Top(waste), foundations);
      missed := j >= 0;
    }
    if !missed {
      for i := 0 to 7
        invariant !missed
        invariant forall c :: 0 <= c < i ==> Actions.TopStays(tableau[c], foundations)
      {
        if |tableau[i]| == 0 {
          continue;
        }
        var card := Top(tableau[i]);
        if !card.faceUp {
          continue;
        }
        var j := Actions.FirstFittingFoundation(card, foundations);
        if j >= 0 {
          missed := true;
          assert !Actions.TopStays(tableau[i], foundations);
          break;
        }
      }
    }
  }

  // ---------------------------------------------------------------------
  // Counting the foundation cards

  /** The reduce that sums the foundations' lengths. */
  function FoundationCount(foundations: seq<Pile>): nat
  {
    if foundations == [] then 0
    else FoundationCount(foundations[..|foundations| - 1]) + |foundations[|foundations| - 1]|
  }

  /** The sum of the lengths is the number of cards on the foundations. */
  lemma {:induction false} FoundationCountIsCards(foundations: seq<Pile>)
    ensures FoundationCount(foundations) == |AllKeys(foundations)|
  {
    if foundations != [] {
      FoundationCountIsCards(foundations[..|foundations| - 1]);
      assert |Keys(foundations[|foundations| - 1])| == |foundations[|foundations| - 1]|;
    }
  }

  // ---------------------------------------------------------------------
  // Auto-complete

  /** No waste top and no column top, face-up or not, fits a foundation. */
  predicate Stuck(tableau: seq<Pile>, foundations: seq<Pile>, waste: Pile)
  {
    && (|waste| > 0 ==> !Rules.FitsSomeFoundation(Top(waste), foundations))
    && forall c :: 0 <= c < |tableau| ==> TopFixed(tableau[c], foundations)
  }

  predicate TopFixed(pile: Pile, foundations: seq<Pile>)
  {
    |pile| > 0 ==> !Rules.FitsSomeFoundation(Top(pile), foundations)
  }

  /** Every pile of `small` is a prefix of the pile at the same place in `big`. */
  predicate Prefixes(small: seq<Pile>, big: seq<Pile>)
  {
    |small| == |big| && forall c :: 0 <= c < |big| ==> small[c] <= big[c]
  }

  /** Every pile of `big` extends the pile at the same place in `small`. */
  lemma PrefixesTrans(a: seq<Pile>, b: seq<Pile>, c: seq<Pile>)
    requires Prefixes(a, b) && Prefixes(b, c)
    ensures Prefixes(a, c)
  {
  }

  /** The top of column i moved onto foundation j, without exposing
      anything: the cards are kept, the foundations gain one and the
      column loses one. */
  lemma TopStep(tableau: seq<Pile>, foundations: seq<Pile>, i: nat, j: nat)
    requires i < |tableau| && |tableau[i]| > 0 && j < |foundations|
    ensures var card := Top(tableau[i]);
      var t := tableau[i := Pop(tableau[i])];
      var f := foundations[j := foundations[j] + [card]];
      && AllKeys(t) + AllKeys(f) == AllKeys(tableau) + AllKeys(foundations)
      && |AllKeys(f)| == |AllKeys(foundations)| + 1
      && |AllKeys(t)| + 1 == |AllKeys(tableau)|
  {
    var card := Top(tableau[i]);
    var t := tableau[i := Pop(tableau[i])];
    var f := foundations[j := foundations[j] + [card]];
    PushOnto(foundations, j, card);
    TakeTop(tableau, i, Pop(tableau[i]));
    forall k ensures (AllKeys(t) + AllKeys(f))[k] == (AllKeys(tableau) + AllKeys(foundations))[k] {
    }
  }

  /** The same move only shortens column i and lengthens foundation j. */
  lemma TopStepPrefixes(tableau: seq<Pile>, foundations: seq<Pile>, i: nat, j: nat)
    requires i < |tableau| && |tableau[i]| > 0 && j < |foundations|
    ensures Prefixes(tableau[i := Pop(tableau[i])], tableau)
    ensures Prefixes(foundations, foundations[j := foundations[j] + [Top(tableau[i])]])
  {
  }

  /** Column i is the one the auto-complete scan moves from: every earlier
      column's top stays (and, after a waste move, every earlier column is
      empty), its top went onto the first foundation that takes it, and
      nothing was turned over. */
  predicate FirstTopMove(tableau: seq<Pile>, foundations: seq<Pile>, wasteMoved: bool, i: int,
                         newTableau: seq<Pile>, newFoundations: seq<Pile>)
  {
    && 0 <= i < |tableau| && |tableau[i]| > 0
    && (forall c :: 0 <= c < i ==> TopFixed(tableau[c], foundations))
    && (wasteMoved ==> forall c :: 0 <= c < i ==> |tableau[c]| == 0)
    && var j := Actions.FirstFitting(Top(tableau[i]), foundations);
    && 0 <= j < |foundations|
    && newTableau == tableau[i := Pop(tableau[i])]
    && newFoundations == foundations[j := foundations[j] + [Top(tableau[i])]]
  }

  /** The column scan of one auto-complete pass: the first non-empty
      column whose top fits a foundation gives up its top; the scan stops
      there, or at the first non-empty column when the waste top already
      moved in this pass. */
  method ScanTops(tableau: seq<Pile>, foundations: seq<Pile>, wasteMoved: bool)
    returns (newTableau: seq<Pile>, newFoundations: seq<Pile>, columnMoved: bool)
    requires |tableau| == 7 && |foundations| == 4
    ensures |newTableau| == 7 && |newFoundations| == 4
    ensures AllKeys(newTableau) + AllKeys(newFoundations) == AllKeys(tableau) + AllKeys(foundations)
    ensures Prefixes(newTableau, tableau) && Prefixes(foundations, newFoundations)
    ensures !columnMoved ==> newTableau == tableau && newFoundations == foundations
    ensures columnMoved ==>
      && |AllKeys(newFoundations)| == |AllKeys(foundations)| + 1
      && |AllKeys(newTableau)| + 1 == |AllKeys(tableau)|
    ensures columnMoved ==> exists i :: FirstTopMove(tableau, foundations, wasteMoved, i, newTableau, newFoundations)
    ensures !columnMoved && !wasteMoved ==> forall c :: 0 <= c < 7 ==> TopFixed(tableau[c], foundations)
    ensures Actions.AllBuiltLegally(foundations) ==> Actions.AllBuiltLegally(newFoundations)
  {
    newTableau, newFoundations := tableau, foundations;
    columnMoved := false;
    for i := 0 to 7
      invariant !columnMoved
      invariant newTableau == tableau && newFoundations == foundations
      invariant forall c :: 0 <= c < i ==> TopFixed(tableau[c], foundations)
      invariant wasteMoved ==> forall c :: 0 <= c < i ==> |tableau[c]| == 0
    {
      var column := tableau[i];
      if |column| == 0 {
        continue;
      }
      var card := Top(column);
      var j := Actions.FirstFittingFoundation(card, foundations);
      if j >= 0 {
        Actions.LegalStep(foundations, j, card);
        TopStep(tableau, foundations, i, j);
        TopStepPrefixes(tableau, foundations, i, j);
        newFoundations := foundations[j := foundations[j] + [card]];
        newTableau := tableau[i := Pop(column)];
        columnMoved := true;
        assert FirstTopMove(tableau, foundations, wasteMoved, i, newTableau, newFoundations);
        return;
      }
      if wasteMoved {
        return;
      }
    }
  }

  /** The waste step of one auto-complete pass: the waste top goes onto
      the first foundation that takes it, if any. */
  method WastePass(tableau: seq<Pile>, foundations: seq<Pile>, waste: Pile)
    returns (newFoundations: seq<Pile>, newWaste: Pile, moved: bool)
    requires |foundations| == 4
    ensures |newFoundations| == 4
    ensures Actions.Held(tableau, newFoundations, newWaste) == Actions.Held(tableau, foundations, waste)
    ensures Prefixes(foundations, newFoundations) && newWaste <= waste
    ensures !moved ==> newFoundations == foundations && newWaste == waste
    ensures !moved && |waste| > 0 ==> !Rules.FitsSomeFoundation(Top(waste), foundations)
    ensures moved ==> |AllKeys(newFoundations)| == |AllKeys(foundations)| + 1 && |Keys(newWaste)| + 1 == |Keys(waste)|
    ensures moved ==>
      && |waste| > 0 && newWaste == Pop(waste)
      && 0 <= Actions.FirstFitting(Top(waste), foundations) < 4
      && newFoundations == foundations[Actions.FirstFitting(Top(waste), foundations) :=
           foundations[Actions.FirstFitting(Top(waste), foundations)] + [Top(waste)]]
    ensures Actions.AllBuiltLegally(foundations) ==> Actions.AllBuiltLegally(newFoundations)
  {
    newFoundations, newWaste, moved := foundations, waste, false;
    if |waste| > 0 {
      var card := Top(waste);
      var j := Actions.FirstFittingFoundation(card, foundations);
      if j >= 0 {
        Actions.LegalStep(foundations, j, card);
        Actions.WasteStep(tableau, foundations, waste, j);
        newFoundations := foundations[j := foundations[j] + [card]];
        newWaste := Pop(waste);
        moved := true;
      }
    }
  }

  /** handleAutoComplete's loop: passes until one moves nothing, a pass
      trying the waste top and then the columns.  No card is turned over
      and none is checked for its face.  Every card is kept, the piles only
      lose tops and the foundations only gain them, one per move counted,
      and at the end no top that is left fits. */
  method AutoComplete(tableau: seq<Pile>, foundations: seq<Pile>, waste: Pile)
    returns (newTableau: seq<Pile>, newFoundations: seq<Pile>, newWaste: Pile, movesMade: nat)
    requires |tableau| == 7 && |foundations| == 4
    ensures |newTableau| == 7 && |newFoundations| == 4
    ensures Actions.Held(newTableau, newFoundations, newWaste) == Actions.Held(tableau, foundations, waste)
    ensures Stuck(newTableau, newFoundations, newWaste)
    ensures Prefixes(newTableau, tableau) && Prefixes(foundations, newFoundations) && newWaste <= waste
    ensures |AllKeys(newFoundations)| == |AllKeys(foundations)| + movesMade
    ensures Actions.AllBuiltLegally(foundations) ==> Actions.AllBuiltLegally(newFoundations)
  {
    movesMade := 0;
    newTableau, newFoundations, newWaste := tableau, foundations, waste;
    var keepMoving := true;
    while keepMoving
      invariant |newTableau| == 7 && |newFoundations| == 4
      invariant Actions.Held(newTableau, newFoundations, newWaste) == Actions.Held(tableau, foundations, waste)
      invariant !keepMoving ==> Stuck(newTableau, newFoundations, newWaste)
      invariant Prefixes(newTableau, tableau) && Prefixes(foundations, newFoundations) && newWaste <= waste
      invariant |AllKeys(newFoundations)| == |AllKeys(foundations)| + movesMade
      invariant Actions.AllBuiltLegally(foundations) ==> Actions.AllBuiltLegally(newFoundations)
      decreases |Keys(newWaste)| + |AllKeys(newTableau)| + (if keepMoving then 1 else 0)
    {
      keepMoving := false;
      ghost var outside := |Keys(newWaste)| + |AllKeys(newTableau)|;

      ghost var before := newFoundations;
      var wasteMoved;
      newFoundations, newWaste, wasteMoved := WastePass(newTableau, newFoundations, newWaste);
      PrefixesTrans(foundations, before, newFoundations);
      if wasteMoved {
        keepMoving := true;
        movesMade := movesMade + 1;
      }

      ghost var passTableau, passFoundations := newTableau, newFoundations;
      var columnMoved;
      newTableau, newFoundations, columnMoved := ScanTops(newTableau, newFoundations, keepMoving);
      Actions.HeldFrame(passTableau, passFoundations, newTableau, newFoundations, newWaste);
      PrefixesTrans(newTableau, passTableau, tableau);
      PrefixesTrans(foundations, passFoundations, newFoundations);
      if columnMoved {
        keepMoving := true;
        movesMade := movesMade + 1;
      }
      assert keepMoving ==> |Keys(newWaste)| + |AllKeys(newTableau)| < outside;
    }
  }
}
