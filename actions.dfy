/**
 * The moves of the engine as pure state transitions on the piles: drawing
 * from the stock (with recycling of the waste), the five single moves, and
 * the repeated automatic move of cards onto the foundations.
 *
 * Every transition leaves the piles it is not about alone and keeps the
 * cards of the piles it touches: their keys, taken together, are the same
 * before and after.
 */
module Actions {
  import opened Cards
  import Helpers
  import Rules

  datatype StockWaste = StockWaste(stock: Pile, waste: Pile)
  datatype WasteTableau = WasteTableau(waste: Pile, tableau: seq<Pile>)
  datatype WasteFoundations = WasteFoundations(waste: Pile, foundations: seq<Pile>)
  datatype TableauFoundations = TableauFoundations(tableau: seq<Pile>, foundations: seq<Pile>)
  datatype AutoResult = AutoResult(tableau: seq<Pile>, foundations: seq<Pile>, waste: Pile, moved: bool)

  // ---------------------------------------------------------------------
  // Drawing

  /** The waste turned back into a stock: every card face-down, in reverse
      order, so that the card drawn first is drawn first again. */
  function Recycled(waste: Pile): (r: Pile)
    ensures |r| == |waste| && Keys(r) == Keys(waste)
    ensures forall i :: 0 <= i < |waste| ==> r[i] == waste[|waste| - 1 - i].(faceUp := false)
  {
    var r := Reverse(WithFace(waste, false));
    KeysReverse(WithFace(waste, false));
    KeysWithFace(waste, false);
    forall i | 0 <= i < |waste| ensures r[i] == waste[|waste| - 1 - i].(faceUp := false) {
      ReverseAt(WithFace(waste, false), i);
    }
    r
  }

  /** The piles drawFromStock leaves (its specification). */
  function Drawn(stock: Pile, waste: Pile, count: nat): StockWaste
  {
    if |stock| == 0 then
      if |waste| == 0 then StockWaste(stock, waste) else StockWaste(Recycled(waste), [])
    else
      var k := Helpers.Min(count, |stock|);
      StockWaste(stock[..|stock| - k], waste + PoppedFaceUp(stock, k))
  }

  /** The draw keeps the cards of the stock and the waste together. */
  lemma DrawnKeeps(stock: Pile, waste: Pile, count: nat)
    ensures var d := Drawn(stock, waste, count);
      Keys(d.stock) + Keys(d.waste) == Keys(stock) + Keys(waste)
  {
    if |stock| > 0 {
      var k := Helpers.Min(count, |stock|);
      var top := stock[|stock| - k..];
      KeysSplit(stock, |stock| - k);
      KeysReverse(top);
      KeysWithFace(Reverse(top), true);
      KeysConcat(waste, PoppedFaceUp(stock, k));
    }
  }

  /** drawFromStock: with a stock, pops up to `count` cards, turns them
      face-up and lays them on the waste in pop order; with an empty stock,
      turns a non-empty waste over into the stock; with neither, nothing. */
  method DrawFromStock(stock: Pile, waste: Pile, count: nat) returns (r: StockWaste)
    ensures r == Drawn(stock, waste, count)
    ensures |stock| == 0 && |waste| == 0 ==> r == StockWaste(stock, waste)
    ensures |stock| == 0 && |waste| > 0 ==> r == StockWaste(Recycled(waste), [])
    ensures |stock| > 0 ==>
      var k := Helpers.Min(count, |stock|);
      r == StockWaste(stock[..|stock| - k], waste + PoppedFaceUp(stock, k))
    ensures |stock| > 0 ==> forall i :: |waste| <= i < |r.waste| ==> r.waste[i].faceUp
    ensures |stock| > 0 && count > 0 ==> |r.stock| < |stock|
    ensures Keys(r.stock) + Keys(r.waste) == Keys(stock) + Keys(waste)
  {
    if |stock| == 0 {
      if |waste| == 0 {
        return StockWaste(stock, waste);
      }
      return StockWaste(Recycled(waste), []);
    }
    var drawnCards, newStock := PopFaceUp(stock, count);
    KeysConcat(waste, drawnCards);
    r := StockWaste(newStock, waste + drawnCards);
  }

  /** Two recyclings restore the waste except for the face of its cards. */
  lemma RecycleTwice(waste: Pile)
    ensures Recycled(Recycled(waste)) == WithFace(waste, false)
  {
    var r := Recycled(Recycled(waste));
    assert forall i :: 0 <= i < |waste| ==> r[i] == waste[i].(faceUp := false);
  }

  // ---------------------------------------------------------------------
  // Single moves

  /** The column after its top was taken away: the new top, if any, is
      turned face-up; nothing else changes. */
  function ExposeTop(column: Pile): (r: Pile)
    ensures |r| == |column| && Keys(r) == Keys(column)
    ensures forall i :: 0 <= i < |column| - 1 ==> r[i] == column[i]
    ensures |column| > 0 ==> Top(r) == Top(column).(faceUp := true)
  {
    if |column| > 0 && !Top(column).faceUp then
      var up := Top(column).(faceUp := true);
      KeysPop(column);
      KeysPush(Pop(column), up);
      Pop(column) + [up]
    else column
  }

  /** moveWasteToTableau: the waste top goes onto the given column.  An
      empty waste returns the piles whatever the column index; the index
      must name a column only when a card moves. */
  function MoveWasteToTableau(waste: Pile, tableau: seq<Pile>, columnIndex: nat): (r: WasteTableau)
    requires |waste| > 0 ==> columnIndex < |tableau|
    ensures |waste| == 0 ==> r == WasteTableau(waste, tableau)
    ensures |waste| > 0 ==>
      && r.waste == Pop(waste)
      && |r.tableau| == |tableau|
      && r.tableau[columnIndex] == tableau[columnIndex] + [Top(waste)]
      && forall c :: 0 <= c < |tableau| && c != columnIndex ==> r.tableau[c] == tableau[c]
    ensures Keys(r.waste) + AllKeys(r.tableau) == Keys(waste) + AllKeys(tableau)
  {
    if |waste| == 0 then WasteTableau(waste, tableau)
    else
      var card := Top(waste);
      KeysPop(waste);
      PushOnto(tableau, columnIndex, card);
      WasteTableau(Pop(waste), tableau[columnIndex := tableau[columnIndex] + [card]])
  }

  /** moveWasteToFoundation: the waste top goes onto the given foundation
      (the caller has checked that it fits).  An empty waste returns the
      piles whatever the foundation index. */
  function MoveWasteToFoundation(waste: Pile, foundations: seq<Pile>, foundationIndex: nat): (r: WasteFoundations)
    requires |waste| > 0 ==> foundationIndex < |foundations|
    ensures |waste| == 0 ==> r == WasteFoundations(waste, foundations)
    ensures |waste| > 0 ==>
      && r.waste == Pop(waste)
      && |r.foundations| == |foundations|
      && r.foundations[foundationIndex] == foundations[foundationIndex] + [Top(waste)]
      && forall f :: 0 <= f < |foundations| && f != foundationIndex ==> r.foundations[f] == foundations[f]
    ensures Keys(r.waste) + AllKeys(r.foundations) == Keys(waste) + AllKeys(foundations)
  {
    if |waste| == 0 then WasteFoundations(waste, foundations)
    else
      var card := Top(waste);
      KeysPop(waste);
      PushOnto(foundations, foundationIndex, card);
      WasteFoundations(Pop(waste), foundations[foundationIndex := foundations[foundationIndex] + [card]])
  }

  /** moveTableauToFoundation: only the top card of a column moves; the
      column's new top is turned face-up.  Any other card index is a no-op,
      whatever the foundation index. */
  function MoveTableauToFoundation(tableau: seq<Pile>, foundations: seq<Pile>, columnIndex: nat, cardIndex: nat,
                                   foundationIndex: nat): (r: TableauFoundations)
    requires columnIndex < |tableau|
    requires cardIndex == |tableau[columnIndex]| - 1 ==> foundationIndex < |foundations|
    ensures cardIndex != |tableau[columnIndex]| - 1 ==> r == TableauFoundations(tableau, foundations)
    ensures cardIndex == |tableau[columnIndex]| - 1 ==>
      var column := tableau[columnIndex];
      && |r.tableau| == |tableau| && |r.foundations| == |foundations|
      && r.tableau[columnIndex] == ExposeTop(Pop(column))
      && r.foundations[foundationIndex] == foundations[foundationIndex] + [Top(column)]
      && (forall c :: 0 <= c < |tableau| && c != columnIndex ==> r.tableau[c] == tableau[c])
      && (forall f :: 0 <= f < |foundations| && f != foundationIndex ==> r.foundations[f] == foundations[f])
    ensures AllKeys(r.tableau) + AllKeys(r.foundations) == AllKeys(tableau) + AllKeys(foundations)
  {
    var column := tableau[columnIndex];
    if |column| == 0 || cardIndex >= |column| then TableauFoundations(tableau, foundations)
    else if cardIndex != |column| - 1 then TableauFoundations(tableau, foundations)
    else
      TopToFoundationKeys(tableau, foundations, columnIndex, foundationIndex);
      TableauFoundations(tableau[columnIndex := ExposeTop(Pop(column))],
                         foundations[foundationIndex := foundations[foundationIndex] + [Top(column)]])
  }

  /** A column's top moved onto a foundation, the column's new top turned
      face-up: the two rows together keep their cards. */
  lemma TopToFoundationKeys(tableau: seq<Pile>, foundations: seq<Pile>, c: nat, f: nat)
    requires c < |tableau| && f < |foundations| && |tableau[c]| > 0
    ensures AllKeys(tableau[c := ExposeTop(Pop(tableau[c]))]) + AllKeys(foundations[f := foundations[f] + [Top(tableau[c])]])
      == AllKeys(tableau) + AllKeys(foundations)
  {
    TakeTop(tableau, c, ExposeTop(Pop(tableau[c])));
    PushOnto(foundations, f, Top(tableau[c]));
  }

  /** moveTableauToTableau: the cards from cardIndex up move, in order, onto
      the target column; the source column's new top is turned face-up.  The
      source column is cut and exposed before the target is extended, so a
      move onto the same column puts the cards back on its remainder.  An
      out-of-range card index is a no-op whatever the target index. */
  function MoveTableauToTableau(tableau: seq<Pile>, sourceColumnIndex: nat, cardIndex: nat, targetColumnIndex: nat): (r: seq<Pile>)
    requires sourceColumnIndex < |tableau|
    requires cardIndex < |tableau[sourceColumnIndex]| ==> targetColumnIndex < |tableau|
    ensures cardIndex >= |tableau[sourceColumnIndex]| ==> r == tableau
    ensures cardIndex < |tableau[sourceColumnIndex]| && sourceColumnIndex != targetColumnIndex ==>
      var source := tableau[sourceColumnIndex];
      && |r| == |tableau|
      && r[sourceColumnIndex] == ExposeTop(source[..cardIndex])
      && r[targetColumnIndex] == tableau[targetColumnIndex] + source[cardIndex..]
      && forall c :: 0 <= c < |tableau| && c != sourceColumnIndex && c != targetColumnIndex ==> r[c] == tableau[c]
    ensures cardIndex < |tableau[sourceColumnIndex]| && sourceColumnIndex == targetColumnIndex ==>
      var source := tableau[sourceColumnIndex];
      r == tableau[sourceColumnIndex := ExposeTop(source[..cardIndex]) + source[cardIndex..]]
    ensures AllKeys(r) == AllKeys(tableau)
  {
    var source := tableau[sourceColumnIndex];
    if |source| == 0 || cardIndex >= |source| then tableau
    else
      var cardsToMove := source[cardIndex..];
      var t1 := tableau[sourceColumnIndex := ExposeTop(source[..cardIndex])];
      var t2 := t1[targetColumnIndex := t1[targetColumnIndex] + cardsToMove];
      MoveRunKeys(tableau, sourceColumnIndex, cardIndex, targetColumnIndex);
      t2
  }

  lemma MoveRunKeys(tableau: seq<Pile>, s: nat, cardIndex: nat, t: nat)
    requires s < |tableau| && t < |tableau| && cardIndex < |tableau[s]|
    ensures var source := tableau[s];
      var t1 := tableau[s := ExposeTop(source[..cardIndex])];
      AllKeys(t1[t := t1[t] + source[cardIndex..]]) == AllKeys(tableau)
  {
    var source := tableau[s];
    var prefix, suffix := source[..cardIndex], source[cardIndex..];
    var t1 := tableau[s := ExposeTop(prefix)];
    var t2 := t1[t := t1[t] + suffix];
    AllKeysUpdate(tableau, s, ExposeTop(prefix));
    KeysSplit(source, cardIndex);
    Cancel(AllKeys(t1) + Keys(suffix), AllKeys(tableau), Keys(prefix));
    AllKeysUpdate(t1, t, t1[t] + suffix);
    KeysConcat(t1[t], suffix);
    Cancel(AllKeys(t2), AllKeys(t1) + Keys(suffix), Keys(t1[t]));
  }

  /** moveFoundationToTableau: the top of a foundation goes onto a column.
      An empty foundation returns the piles whatever the column index. */
  function MoveFoundationToTableau(foundations: seq<Pile>, tableau: seq<Pile>, foundationIndex: nat, columnIndex: nat): (r: TableauFoundations)
    requires foundationIndex < |foundations|
    requires |foundations[foundationIndex]| > 0 ==> columnIndex < |tableau|
    ensures |foundations[foundationIndex]| == 0 ==> r == TableauFoundations(tableau, foundations)
    ensures |foundations[foundationIndex]| > 0 ==>
      var foundation := foundations[foundationIndex];
      && |r.tableau| == |tableau| && |r.foundations| == |foundations|
      && r.foundations[foundationIndex] == Pop(foundation)
      && r.tableau[columnIndex] == tableau[columnIndex] + [Top(foundation)]
      && (forall c :: 0 <= c < |tableau| && c != columnIndex ==> r.tableau[c] == tableau[c])
      && (forall f :: 0 <= f < |foundations| && f != foundationIndex ==> r.foundations[f] == foundations[f])
    ensures AllKeys(r.tableau) + AllKeys(r.foundations) == AllKeys(tableau) + AllKeys(foundations)
  {
    var foundation := foundations[foundationIndex];
    if |foundation| == 0 then TableauFoundations(tableau, foundations)
    else
      var card := Top(foundation);
      TakeTop(foundations, foundationIndex, Pop(foundation));
      PushOnto(tableau, columnIndex, card);
      TableauFoundations(tableau[columnIndex := tableau[columnIndex] + [card]],
                         foundations[foundationIndex := Pop(foundation)])
  }

  /** A card moved onto a foundation and moved back leaves both rows as
      they were. */
  lemma FoundationRoundTrip(tableau: seq<Pile>, foundations: seq<Pile>, columnIndex: nat, foundationIndex: nat)
    requires columnIndex < |tableau| && foundationIndex < |foundations|
    requires |tableau[columnIndex]| > 0
    requires |tableau[columnIndex]| == 1 || tableau[columnIndex][|tableau[columnIndex]| - 2].faceUp
    ensures var there := MoveTableauToFoundation(tableau, foundations, columnIndex, |tableau[columnIndex]| - 1, foundationIndex);
      MoveFoundationToTableau(there.foundations, there.tableau, foundationIndex, columnIndex)
        == TableauFoundations(tableau, foundations)
  {
    var column := tableau[columnIndex];
    var rest := Pop(column);
    assert ExposeTop(rest) == rest;
    var t1, f1 := tableau[columnIndex := rest], foundations[foundationIndex := foundations[foundationIndex] + [Top(column)]];
    assert MoveTableauToFoundation(tableau, foundations, columnIndex, |column| - 1, foundationIndex)
      == TableauFoundations(t1, f1);
    PutBack(tableau, foundations, columnIndex, foundationIndex);
  }

  /** The rows with a column's top moved onto a foundation, and that card
      moved back. */
  lemma PutBack(tableau: seq<Pile>, foundations: seq<Pile>, c: nat, f: nat)
    requires c < |tableau| && f < |foundations| && |tableau[c]| > 0
    ensures var t1 := tableau[c := Pop(tableau[c])];
      var f1 := foundations[f := foundations[f] + [Top(tableau[c])]];
      MoveFoundationToTableau(f1, t1, f, c) == TableauFoundations(tableau, foundations)
  {
    var column := tableau[c];
    var grown := foundations[f] + [Top(column)];
    var t1, f1 := tableau[c := Pop(column)], foundations[f := grown];
    assert Pop(grown) == foundations[f] && Top(grown) == Top(column);
    assert Pop(column) + [Top(column)] == column;
    assert t1[c := t1[c] + [Top(grown)]] == tableau;
    assert f1[f := Pop(grown)] == foundations;
  }

  // ---------------------------------------------------------------------
  // Automatic moves to the foundations

  /** The test the automatic move writes out inline, on rank names through
      the rank-value table. */
  predicate AutoFits(card: Card, foundation: Pile)
  {
    || (|foundation| == 0 && RankName(card.rank) == "A")
    || (&& |foundation| > 0
        && card.suit == Top(foundation).suit
        && Helpers.CardValue(RankName(card.rank)) == Helpers.CardValue(RankName(Top(foundation).rank)) + 1)
  }

  /** The inline test is the foundation rule. */
  lemma AutoFitsIsFoundationRule(card: Card, foundation: Pile)
    ensures AutoFits(card, foundation) == Rules.IsValidFoundationMove(card, foundation)
  {
    Helpers.CardValueOfName(card.rank);
    Helpers.RankNameInjective(card.rank, Ace);
    if |foundation| > 0 {
      Helpers.CardValueOfName(Top(foundation).rank);
    }
  }

  /** The first foundation from the k-th on that takes the card, or -1
      when none of them does. */
  function FirstFitFrom(card: Card, foundations: seq<Pile>, k: nat): (j: int)
    requires k <= |foundations|
    ensures j == -1 || k <= j < |foundations|
    ensures j >= 0 ==> Rules.IsValidFoundationMove(card, foundations[j])
    ensures j >= 0 ==> forall i :: k <= i < j ==> !Rules.IsValidFoundationMove(card, foundations[i])
    ensures j == -1 <==> forall i :: k <= i < |foundations| ==> !Rules.IsValidFoundationMove(card, foundations[i])
    decreases |foundations| - k
  {
    if k == |foundations| then -1
    else if Rules.IsValidFoundationMove(card, foundations[k]) then k
    else FirstFitFrom(card, foundations, k + 1)
  }

  /** The first foundation, in order, that takes the card, or -1. */
  function FirstFitting(card: Card, foundations: seq<Pile>): int
  {
    FirstFitFrom(card, foundations, 0)
  }

  /** The first foundation, in order, that takes the card (the inner
      search loop with its break), or -1 when none does. */
  method FirstFittingFoundation(card: Card, foundations: seq<Pile>) returns (j: int)
    ensures -1 <= j < |foundations|
    ensures j >= 0 ==> Rules.IsValidFoundationMove(card, foundations[j])
    ensures j >= 0 ==> forall k :: 0 <= k < j ==> !Rules.IsValidFoundationMove(card, foundations[k])
    ensures j == -1 <==> !Rules.FitsSomeFoundation(card, foundations)
    ensures j == FirstFitting(card, foundations)
  {
    for k := 0 to |foundations|
      invariant forall k' :: 0 <= k' < k ==> !Rules.IsValidFoundationMove(card, foundations[k'])
    {
      AutoFitsIsFoundationRule(card, foundations[k]);
      if AutoFits(card, foundations[k]) {
        return k;
      }
    }
    return -1;
  }

  /** The top of the pile, if any and face-up, fits on no foundation. */
  predicate TopStays(pile: Pile, foundations: seq<Pile>)
  {
    |pile| > 0 && Top(pile).faceUp ==> !Rules.FitsSomeFoundation(Top(pile), foundations)
  }

  /** No waste top and no face-up tableau top fits on any foundation. */
  predicate NoFoundationMove(tableau: seq<Pile>, foundations: seq<Pile>, waste: Pile)
  {
    && (|waste| > 0 ==> !Rules.FitsSomeFoundation(Top(waste), foundations))
    && forall c :: 0 <= c < |tableau| ==> TopStays(tableau[c], foundations)
  }

  ghost predicate AllBuiltLegally(foundations: seq<Pile>)
  {
    forall f :: 0 <= f < |foundations| ==> Rules.BuiltLegally(foundations[f])
  }

  /** The cards of the three groups of piles the automatic move works on. */
  function Held(tableau: seq<Pile>, foundations: seq<Pile>, waste: Pile): multiset<Key>
  {
    Keys(waste) + AllKeys(tableau) + AllKeys(foundations)
  }

  /** The waste top moved onto foundation j: the cards are kept, the
      foundations gain one and the waste loses one. */
  lemma WasteStep(tableau: seq<Pile>, foundations: seq<Pile>, waste: Pile, j: nat)
    requires |waste| > 0 && j < |foundations|
    ensures var f := foundations[j := foundations[j] + [Top(waste)]];
      && Held(tableau, f, Pop(waste)) == Held(tableau, foundations, waste)
      && |AllKeys(f)| == |AllKeys(foundations)| + 1
      && |Keys(Pop(waste))| + 1 == |Keys(waste)|
  {
    var f := foundations[j := foundations[j] + [Top(waste)]];
    KeysPop(waste);
    PushOnto(foundations, j, Top(waste));
    forall k ensures Held(tableau, f, Pop(waste))[k] == Held(tableau, foundations, waste)[k] {
    }
  }

  /** The top of column i moved onto foundation j, the new top exposed:
      the cards are kept, the foundations gain one and the column loses one. */
  lemma ColumnStep(tableau: seq<Pile>, foundations: seq<Pile>, i: nat, j: nat)
    requires i < |tableau| && |tableau[i]| > 0 && j < |foundations|
    ensures var card := Top(tableau[i]);
      var t := tableau[i := ExposeTop(Pop(tableau[i]))];
      var f := foundations[j := foundations[j] + [card]];
      && AllKeys(t) + AllKeys(f) == AllKeys(tableau) + AllKeys(foundations)
      && |AllKeys(f)| == |AllKeys(foundations)| + 1
      && |AllKeys(t)| + 1 == |AllKeys(tableau)|
  {
    var card := Top(tableau[i]);
    var t := tableau[i := ExposeTop(Pop(tableau[i]))];
    var f := foundations[j := foundations[j] + [card]];
    PushOnto(foundations, j, card);
    KeysPop(tableau[i]);
    TakeTop(tableau, i, ExposeTop(Pop(tableau[i])));
    forall k ensures (AllKeys(t) + AllKeys(f))[k] == (AllKeys(tableau) + AllKeys(foundations))[k] {
    }
  }

  /** Changing only the tableau and the foundations, and keeping their
      cards, keeps the cards of all three groups. */
  lemma HeldFrame(tableau: seq<Pile>, foundations: seq<Pile>, t: seq<Pile>, f: seq<Pile>, waste: Pile)
    requires AllKeys(t) + AllKeys(f) == AllKeys(tableau) + AllKeys(foundations)
    ensures Held(t, f, waste) == Held(tableau, foundations, waste)
  {
    forall k ensures Held(t, f, waste)[k] == Held(tableau, foundations, waste)[k] {
      assert (AllKeys(t) + AllKeys(f))[k] == (AllKeys(tableau) + AllKeys(foundations))[k];
    }
  }

  /** An accepted card keeps every foundation legally built. */
  lemma LegalStep(foundations: seq<Pile>, j: nat, card: Card)
    requires j < |foundations| && Rules.IsValidFoundationMove(card, foundations[j])
    ensures AllBuiltLegally(foundations) ==> AllBuiltLegally(foundations[j := foundations[j] + [card]])
  {
    if AllBuiltLegally(foundations) {
      Rules.AcceptedKeepsBuilt(foundations[j], card);
    }
  }

  /** Column i is the one the column scan moves from: its top is face-up,
      every earlier column's top stays (and, after a waste move, no earlier
      column has a face-up top at all), that top went onto the first
      foundation that takes it, and the column's new top was exposed. */
  predicate FirstColumnMove(tableau: seq<Pile>, foundations: seq<Pile>, wasteMoved: bool, i: int,
                            newTableau: seq<Pile>, newFoundations: seq<Pile>)
  {
    && 0 <= i < |tableau| && |tableau[i]| > 0 && Top(tableau[i]).faceUp
    && (forall c :: 0 <= c < i ==> TopStays(tableau[c], foundations))
    && (wasteMoved ==> forall c :: 0 <= c < i ==> |tableau[c]| == 0 || !Top(tableau[c]).faceUp)
    && var j := FirstFitting(Top(tableau[i]), foundations);
    && 0 <= j < |foundations|
    && newTableau == tableau[i := ExposeTop(Pop(tableau[i]))]
    && newFoundations == foundations[j := foundations[j] + [Top(tableau[i])]]
  }

  /** The column scan of one pass of the automatic move: the first column
      whose top is face-up and fits a foundation gives up that top (its new
      top exposed); the scan stops there, or at the first column with a
      face-up top at all when the waste top already moved in this pass. */
  method ScanColumns(tableau: seq<Pile>, foundations: seq<Pile>, wasteMoved: bool)
    returns (newTableau: seq<Pile>, newFoundations: seq<Pile>, columnMoved: bool)
    requires |tableau| == 7 && |foundations| == 4
    ensures |newTableau| == 7 && |newFoundations| == 4
    ensures AllKeys(newTableau) + AllKeys(newFoundations) == AllKeys(tableau) + AllKeys(foundations)
    ensures !columnMoved ==> newTableau == tableau && newFoundations == foundations
    ensures columnMoved ==>
      && |AllKeys(newFoundations)| == |AllKeys(foundations)| + 1
      && |AllKeys(newTableau)| + 1 == |AllKeys(tableau)|
      && exists c :: 0 <= c < 7 && !TopStays(tableau[c], foundations)
    ensures columnMoved ==> exists i :: FirstColumnMove(tableau, foundations, wasteMoved, i, newTableau, newFoundations)
    ensures !columnMoved && !wasteMoved ==> forall c :: 0 <= c < 7 ==> TopStays(tableau[c], foundations)
    ensures AllBuiltLegally(foundations) ==> AllBuiltLegally(newFoundations)
  {
    newTableau, newFoundations := tableau, foundations;
    columnMoved := false;
    for i := 0 to 7
      invariant !columnMoved
      invariant newTableau == tableau && newFoundations == foundations
      invariant forall c :: 0 <= c < i ==> TopStays(tableau[c], foundations)
      invariant wasteMoved ==> forall c :: 0 <= c < i ==> |tableau[c]| == 0 || !Top(tableau[c]).faceUp
    {
      var column := tableau[i];
      if |column| == 0 {
        continue;
      }
      var card := Top(column);
      if !card.faceUp {
        continue;
      }
      var j := FirstFittingFoundation(card, foundations);
      if j >= 0 {
        LegalStep(foundations, j, card);
        ColumnStep(tableau, foundations, i, j);
        assert !TopStays(tableau[i], foundations);
        newFoundations := foundations[j := foundations[j] + [card]];
        newTableau := tableau[i := ExposeTop(Pop(column))];
        columnMoved := true;
        assert FirstColumnMove(tableau, foundations, wasteMoved, i, newTableau, newFoundations);
        return;
      }
      if wasteMoved {
        return;
      }
    }
  }

  /** autoMoveToFoundation: passes until one moves nothing.  A pass first
      tries the waste top, then scans the columns.  The result has no move
      to the foundations left, keeps every card, moves something exactly
      when the foundations grew, and keeps legally built foundations
      legally built. */
  method AutoMoveToFoundation(tableau: seq<Pile>, foundations: seq<Pile>, waste: Pile) returns (r: AutoResult)
    requires |tableau| == 7 && |foundations| == 4
    ensures |r.tableau| == 7 && |r.foundations| == 4
    ensures NoFoundationMove(r.tableau, r.foundations, r.waste)
    ensures Held(r.tableau, r.foundations, r.waste) == Held(tableau, foundations, waste)
    ensures r.moved <==> |AllKeys(r.foundations)| > |AllKeys(foundations)|
    ensures !r.moved ==> r.tableau == tableau && r.foundations == foundations && r.waste == waste
    ensures NoFoundationMove(tableau, foundations, waste) ==> !r.moved
    ensures AllBuiltLegally(foundations) ==> AllBuiltLegally(r.foundations)
  {
    var moved := false;
    var newTableau, newFoundations, newWaste := tableau, foundations, waste;
    var keepTrying := true;
    while keepTrying
      invariant |newTableau| == 7 && |newFoundations| == 4
      invariant Held(newTableau, newFoundations, newWaste) == Held(tableau, foundations, waste)
      invariant !keepTrying ==> NoFoundationMove(newTableau, newFoundations, newWaste)
      invariant !moved ==> newTableau == tableau && newFoundations == foundations && newWaste == waste
      invariant moved ==> |AllKeys(newFoundations)| > |AllKeys(foundations)|
      invariant NoFoundationMove(tableau, foundations, waste) ==> !moved
      invariant AllBuiltLegally(foundations) ==> AllBuiltLegally(newFoundations)
      decreases |Keys(newWaste)| + |AllKeys(newTableau)| + (if keepTrying then 1 else 0)
    {
      keepTrying := false;
      ghost var outside := |Keys(newWaste)| + |AllKeys(newTableau)|;

      if |newWaste| > 0 {
        var card := Top(newWaste);
        var j := FirstFittingFoundation(card, newFoundations);
        if j >= 0 {
          LegalStep(newFoundations, j, card);
          WasteStep(newTableau, newFoundations, newWaste, j);
          newFoundations := newFoundations[j := newFoundations[j] + [card]];
          newWaste := Pop(newWaste);
          moved := true;
          keepTrying := true;
        }
      }

      ghost var passTableau, passFoundations := newTableau, newFoundations;
      var columnMoved;
      newTableau, newFoundations, columnMoved := ScanColumns(newTableau, newFoundations, keepTrying);
      HeldFrame(passTableau, passFoundations, newTableau, newFoundations, newWaste);
      if columnMoved {
        moved := true;
        keepTrying := true;
      }
      assert keepTrying ==> |Keys(newWaste)| + |AllKeys(newTableau)| < outside;
    }
    r := AutoResult(newTableau, newFoundations, newWaste, moved);
  }

  /** Running the automatic move on its own result moves nothing. */
  method AutoMoveTwice(tableau: seq<Pile>, foundations: seq<Pile>, waste: Pile) returns (once: AutoResult, twice: AutoResult)
    requires |tableau| == 7 && |foundations| == 4
    ensures !twice.moved
    ensures twice.tableau == once.tableau && twice.foundations == once.foundations && twice.waste == once.waste
  {
    once := AutoMoveToFoundation(tableau, foundations, waste);
    twice := AutoMoveToFoundation(once.tableau, once.foundations, once.waste);
  }
}
