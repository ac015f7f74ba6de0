/**
 * The rule predicates: where a card may be placed on the tableau and on a
 * foundation, whether any move is left, and whether the game is won.
 */
module Rules {
  import opened Cards
  import Helpers

  /** The first position of x in s, or -1 (Array.prototype.indexOf). */
  function IndexOf(s: seq<string>, x: string): (i: int)
    ensures -1 <= i < |s|
    ensures i >= 0 ==> s[i] == x && forall k :: 0 <= k < i ==> s[k] != x
    ensures i == -1 ==> forall k :: 0 <= k < |s| ==> s[k] != x
  {
    if s == [] then -1
    else if s[0] == x then 0
    else var j := IndexOf(s[1..], x); if j == -1 then -1 else j + 1
  }

  /** VALUES.indexOf(name of r) is r - 1: the rules' rank arithmetic on
      positions in VALUES is arithmetic on ranks. */
  lemma ValuesIndexOf(r: Rank)
    ensures IndexOf(Values, RankName(r)) == r - 1
  {
    var i := IndexOf(Values, RankName(r));
    if i != r - 1 {
      assert 0 <= i && Values[i] == RankName(i + 1);
      Helpers.RankNameInjective(i + 1, r);
    }
  }

  // ---------------------------------------------------------------------
  // Tableau placement

  /** isValidMove: a King on an empty column; otherwise only on a face-up
      target card of the other colour whose rank is one higher. */
  predicate IsValidMove(card: Card, targetCard: Option<Card>, isEmptyColumn: bool)
  {
    if isEmptyColumn then card.rank == King
    else if targetCard.None? || !targetCard.value.faceUp then false
    else
      var target := targetCard.value;
      var isAlternateColor :=
        ((card.suit == Hearts || card.suit == Diamonds) && (target.suit == Clubs || target.suit == Spades)) ||
        ((card.suit == Clubs || card.suit == Spades) && (target.suit == Hearts || target.suit == Diamonds));
      // positions in VALUES, see ValuesIndexOf
      var cardIndex := card.rank - 1;
      var targetIndex := target.rank - 1;
      var isDescending := cardIndex == targetIndex - 1;
      isAlternateColor && isDescending
  }

  /** On an empty column exactly Kings are accepted, whatever the target
      card; on a non-empty column a missing or face-down target refuses
      everything; otherwise the colours must differ and the card must rank
      exactly one below the target.  So a King never goes on a non-empty
      column and two cards of one colour never match. */
  lemma TableauRule(card: Card, targetCard: Option<Card>, isEmptyColumn: bool)
    ensures isEmptyColumn ==> (IsValidMove(card, targetCard, isEmptyColumn) <==> card.rank == King)
    ensures !isEmptyColumn && (targetCard.None? || !targetCard.value.faceUp) ==>
      !IsValidMove(card, targetCard, isEmptyColumn)
    ensures !isEmptyColumn && targetCard.Some? && targetCard.value.faceUp ==>
      (IsValidMove(card, targetCard, isEmptyColumn) <==>
        Helpers.AreOppositeColors(card, targetCard.value) && card.rank + 1 == targetCard.value.rank)
    ensures !isEmptyColumn && card.rank == King ==> !IsValidMove(card, targetCard, isEmptyColumn)
    ensures !isEmptyColumn && targetCard.Some? && !Helpers.AreOppositeColors(card, targetCard.value) ==>
      !IsValidMove(card, targetCard, isEmptyColumn)
  {
  }

  // ---------------------------------------------------------------------
  // Foundation placement

  /** isValidFoundationMove: an Ace on an empty foundation; otherwise the
      card of the top's suit ranked one higher. */
  predicate IsValidFoundationMove(card: Card, foundation: Pile)
  {
    if |foundation| == 0 then card.rank == Ace
    else
      var topCard := Top(foundation);
      var isSameSuit := card.suit == topCard.suit;
      var isAscending := card.rank - 1 == topCard.rank - 1 + 1;
      isSameSuit && isAscending
  }

  /** A foundation every card of which was accepted by IsValidFoundationMove
      onto the cards below it: one grown from empty by accepted cards only. */
  ghost predicate BuiltLegally(foundation: Pile)
  {
    forall k :: 0 <= k < |foundation| ==> IsValidFoundationMove(foundation[k], foundation[..k])
  }

  /** A run A, 2, .., n of one suit. */
  ghost predicate IsRun(foundation: Pile)
  {
    forall k :: 0 <= k < |foundation| ==> foundation[k].rank == k + 1 && foundation[k].suit == foundation[0].suit
  }

  lemma {:induction false} RunAt(foundation: Pile, k: nat)
    requires BuiltLegally(foundation) && k < |foundation|
    ensures foundation[k].rank == k + 1 && foundation[k].suit == foundation[0].suit
  {
    assert IsValidFoundationMove(foundation[k], foundation[..k]);
    if k > 0 {
      RunAt(foundation, k - 1);
      assert foundation[..k][k - 1] == foundation[k - 1];
    }
  }

  /** A foundation grown only through IsValidFoundationMove is exactly an
      A..n run of one suit; so it holds at most 13 cards, and with 13 its
      top is the King. */
  lemma BuiltLegallyIsRun(foundation: Pile)
    ensures BuiltLegally(foundation) <==> IsRun(foundation)
    ensures BuiltLegally(foundation) ==> |foundation| <= 13
    ensures BuiltLegally(foundation) && |foundation| == 13 ==> Top(foundation).rank == King
  {
    if BuiltLegally(foundation) {
      forall k | 0 <= k < |foundation| ensures foundation[k].rank == k + 1 && foundation[k].suit == foundation[0].suit {
        RunAt(foundation, k);
      }
      if |foundation| > 0 {
        RunAt(foundation, |foundation| - 1);
      }
    }
    if IsRun(foundation) {
      forall k | 0 <= k < |foundation| ensures IsValidFoundationMove(foundation[k], foundation[..k]) {
        if k > 0 {
          assert Top(foundation[..k]) == foundation[k - 1];
        }
      }
    }
  }

  /** Placing an accepted card keeps a foundation legally built. */
  lemma AcceptedKeepsBuilt(foundation: Pile, card: Card)
    requires BuiltLegally(foundation) && IsValidFoundationMove(card, foundation)
    ensures BuiltLegally(foundation + [card])
  {
    var f := foundation + [card];
    forall k | 0 <= k < |f| ensures IsValidFoundationMove(f[k], f[..k]) {
      if k < |foundation| {
        assert f[..k] == foundation[..k];
      } else {
        assert f[..k] == foundation;
      }
    }
  }

  // ---------------------------------------------------------------------
  // Any move left?

  /** The test of the scan for a destination column: a King on an empty
      column, otherwise IsValidMove on a face-up top. */
  predicate FitsColumn(card: Card, column: Pile)
  {
    if |column| == 0 then card.rank == King
    else Top(column).faceUp && IsValidMove(card, Some(Top(column)), false)
  }

  /** The scan's column test is the drop test of the tableau. */
  lemma FitsColumnIsValidMove(card: Card, column: Pile)
    ensures FitsColumn(card, column) == IsValidMove(card, TopOpt(column), |column| == 0)
  {
  }

  predicate FitsSomeFoundation(card: Card, foundations: seq<Pile>)
  {
    exists k :: 0 <= k < |foundations| && IsValidFoundationMove(card, foundations[k])
  }

  /** Card j of column i is a candidate (its column's top is face-up and it
      is face-up) with a destination on a foundation or another column. */
  predicate TableauCardMoves(tableau: seq<Pile>, foundations: seq<Pile>, i: nat, j: nat)
    requires i < |tableau| && j < |tableau[i]|
  {
    var card := tableau[i][j];
    && Top(tableau[i]).faceUp
    && card.faceUp
    && (FitsSomeFoundation(card, foundations)
        || exists k :: 0 <= k < |tableau| && k != i && FitsColumn(card, tableau[k]))
  }

  predicate WasteMoves(tableau: seq<Pile>, foundations: seq<Pile>, waste: Pile)
  {
    |waste| > 0 &&
    (FitsSomeFoundation(Top(waste), foundations)
     || exists k :: 0 <= k < |tableau| && FitsColumn(Top(waste), tableau[k]))
  }

  /** Some move is left: a draw (the stock is not empty), the waste top has
      a destination, or a candidate tableau card has one. */
  predicate SomeMoveLeft(tableau: seq<Pile>, foundations: seq<Pile>, waste: Pile, stock: Pile)
  {
    || |stock| > 0
    || WasteMoves(tableau, foundations, waste)
    || exists i, j :: 0 <= i < |tableau| && 0 <= j < |tableau[i]| && TableauCardMoves(tableau, foundations, i, j)
  }

  /** hasValidMoves: the scan with early returns over the stock, the waste
      top, and every face-up card of each column whose top is face-up. */
  method HasValidMoves(tableau: seq<Pile>, foundations: seq<Pile>, waste: Pile, stock: Pile) returns (r: bool)
    requires |tableau| == 7 && |foundations| == 4
    ensures r == SomeMoveLeft(tableau, foundations, waste, stock)
    ensures |stock| > 0 ==> r
  {
    if |stock| > 0 {
      return true;
    }
    if |waste| > 0 {
      var wasteCard := Top(waste);
      for i := 0 to 4
        invariant forall k :: 0 <= k < i ==> !IsValidFoundationMove(wasteCard, foundations[k])
      {
        if IsValidFoundationMove(wasteCard, foundations[i]) {
          return true;
        }
      }
      for i := 0 to 7
        invariant forall k :: 0 <= k < i ==> !FitsColumn(wasteCard, tableau[k])
      {
        var tableauStack := tableau[i];
        if |tableauStack| == 0 {
          if wasteCard.rank == King {
            return true;
          }
        } else {
          var topCard := Top(tableauStack);
          if topCard.faceUp && IsValidMove(wasteCard, Some(topCard), false) {
            return true;
          }
        }
      }
    }
    assert !WasteMoves(tableau, foundations, waste);
    for i := 0 to 7
      invariant forall i', j :: 0 <= i' < i && 0 <= j < |tableau[i']| ==> !TableauCardMoves(tableau, foundations, i', j)
    {
      var sourceStack := tableau[i];
      if |sourceStack| == 0 || !Top(sourceStack).faceUp {
        continue;
      }
      for j := 0 to |sourceStack|
        invariant forall i', j' :: 0 <= i' < i && 0 <= j' < |tableau[i']| ==> !TableauCardMoves(tableau, foundations, i', j')
        invariant forall j' :: 0 <= j' < j ==> !TableauCardMoves(tableau, foundations, i, j')
      {
        if !sourceStack[j].faceUp {
          continue;
        }
        var card := sourceStack[j];
        for k := 0 to 4
          invariant forall k' :: 0 <= k' < k ==> !IsValidFoundationMove(card, foundations[k'])
        {
          if IsValidFoundationMove(card, foundations[k]) {
            assert TableauCardMoves(tableau, foundations, i, j);
            return true;
          }
        }
        for k := 0 to 7
          invariant forall k' :: 0 <= k' < k && k' != i ==> !FitsColumn(card, tableau[k'])
        {
          if k == i {
            continue;
          }
          var targetStack := tableau[k];
          if |targetStack| == 0 {
            if card.rank == King {
              assert FitsColumn(card, tableau[k]);
              assert TableauCardMoves(tableau, foundations, i, j);
              return true;
            }
          } else {
            var topCard := Top(targetStack);
            if topCard.faceUp && IsValidMove(card, Some(topCard), false) {
              assert FitsColumn(card, tableau[k]);
              assert TableauCardMoves(tableau, foundations, i, j);
              return true;
            }
          }
        }
      }
    }
    return false;
  }

  // ---------------------------------------------------------------------
  // Won?

  /** isGameWon: every foundation holds 13 cards. */
  predicate IsGameWon(foundations: seq<Pile>)
  {
    forall i :: 0 <= i < |foundations| ==> |foundations[i]| == 13
  }

  /** With the four foundations of the game: won exactly when each holds 13
      cards, and not won when any holds fewer; when they were built legally,
      a won game has a King on top of each. */
  lemma GameWonMeaning(foundations: seq<Pile>)
    requires |foundations| == 4
    ensures IsGameWon(foundations) <==>
      |foundations[0]| == 13 && |foundations[1]| == 13 && |foundations[2]| == 13 && |foundations[3]| == 13
    ensures (exists i :: 0 <= i < 4 && |foundations[i]| < 13) ==> !IsGameWon(foundations)
    ensures IsGameWon(foundations) && (forall i :: 0 <= i < 4 ==> BuiltLegally(foundations[i])) ==>
      forall i :: 0 <= i < 4 ==> Top(foundations[i]).rank == King
  {
    if IsGameWon(foundations) && (forall i :: 0 <= i < 4 ==> BuiltLegally(foundations[i])) {
      forall i | 0 <= i < 4 ensures Top(foundations[i]).rank == King {
        BuiltLegallyIsRun(foundations[i]);
      }
    }
  }
}
