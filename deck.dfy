/**
 * The deck: the 52-card deck in construction order, the deal of the seven
 * tableau columns, and the deck component that keeps a shuffled deck and
 * reshuffles, deals and draws from it.
 */
module Deck {
  import opened Cards
  import Helpers

  /** The suits in construction order. */
  const Suits: seq<Suit> := [Hearts, Diamonds, Clubs, Spades]

  /** The id of a card, `suit-value`. */
  function CardId(c: Card): string
  {
    SuitName(c.suit) + "-" + RankName(c.rank)
  }

  function SuitAt(i: nat): Suit
    requires i < 52
  {
    Suits[i / 13]
  }

  /** The new deck: hearts, diamonds, clubs, spades, each from A to K, all
      face-down. */
  function StandardDeck(): (d: Pile)
    ensures |d| == 52
    ensures forall i :: 0 <= i < 52 ==> d[i] == Card(SuitAt(i), i % 13 + 1, false)
  {
    seq(52, i requires 0 <= i < 52 => Card(SuitAt(i), i % 13 + 1, false))
  }

  lemma Position(s: nat, v: nat)
    requires s < 4 && v < 13
    ensures (13 * s + v) / 13 == s && (13 * s + v) % 13 == v
  {
  }

  /** Each (suit, rank) pair is in the deck exactly once, at position
      13 * (suit's place) + rank - 1. */
  lemma StandardDeckIsComplete(s: Suit, r: Rank)
    ensures var i := 13 * (if s == Hearts then 0 else if s == Diamonds then 1 else if s == Clubs then 2 else 3) + r - 1;
      0 <= i < 52 && KeyOf(StandardDeck()[i]) == (s, r)
  {
    var k := if s == Hearts then 0 else if s == Diamonds then 1 else if s == Clubs then 2 else 3;
    Position(k, r - 1);
  }

  lemma StandardDeckIsDistinct(i: nat, j: nat)
    requires i < 52 && j < 52 && i != j
    ensures KeyOf(StandardDeck()[i]) != KeyOf(StandardDeck()[j])
    ensures CardId(StandardDeck()[i]) != CardId(StandardDeck()[j])
  {
    var d := StandardDeck();
    assert SuitAt(i) == SuitAt(j) ==> i / 13 == j / 13;
    assert d[i].rank == d[j].rank ==> i % 13 == j % 13;
    assert i == 13 * (i / 13) + i % 13 && j == 13 * (j / 13) + j % 13;
    CardIdInjective(d[i], d[j]);
  }

  lemma NoDashInNames(s: Suit, r: Rank)
    ensures forall k :: 0 <= k < |SuitName(s)| ==> SuitName(s)[k] != '-'
    ensures forall k :: 0 <= k < |RankName(r)| ==> RankName(r)[k] != '-'
  {
  }

  /** The position of the first dash of a text, or its length. */
  function FirstDash(s: string): nat
  {
    if s == [] || s[0] == '-' then 0 else 1 + FirstDash(s[1..])
  }

  lemma {:induction false} FirstDashAfter(x: string, y: string)
    requires forall k :: 0 <= k < |x| ==> x[k] != '-'
    ensures FirstDash(x + "-" + y) == |x|
  {
    if x != [] {
      assert (x + "-" + y)[1..] == x[1..] + "-" + y;
      FirstDashAfter(x[1..], y);
    }
  }

  /** Two words without a dash, each followed by a dash and a tail, are
      equal texts only when the words and the tails are. */
  lemma SplitAtDash(x: string, y: string, x': string, y': string)
    requires forall k :: 0 <= k < |x| ==> x[k] != '-'
    requires forall k :: 0 <= k < |x'| ==> x'[k] != '-'
    requires x + "-" + y == x' + "-" + y'
    ensures x == x' && y == y'
  {
    var t := x + "-" + y;
    FirstDashAfter(x, y);
    FirstDashAfter(x', y');
    assert x == t[..|x|] == x';
    assert y == t[|x| + 1..] == y';
  }

  lemma SuitNameInjective(s1: Suit, s2: Suit)
    ensures SuitName(s1) == SuitName(s2) ==> s1 == s2
  {
  }

  /** Card ids tell cards apart by suit and rank. */
  lemma CardIdInjective(a: Card, b: Card)
    ensures CardId(a) == CardId(b) <==> KeyOf(a) == KeyOf(b)
  {
    if CardId(a) == CardId(b) {
      NoDashInNames(a.suit, a.rank);
      NoDashInNames(b.suit, b.rank);
      SplitAtDash(SuitName(a.suit), RankName(a.rank), SuitName(b.suit), RankName(b.rank));
      SuitNameInjective(a.suit, b.suit);
      Helpers.RankNameInjective(a.rank, b.rank);
    }
  }

  /** The construction loops: for each suit, for each value, push the
      face-down card. */
  method BuildDeck() returns (deck: Pile)
    ensures deck == StandardDeck()
  {
    deck := [];
    for s := 0 to 4
      invariant deck == StandardDeck()[..13 * s]
    {
      for v := 0 to 13
        invariant deck == StandardDeck()[..13 * s + v]
      {
        Position(s, v);
        assert StandardDeck()[..13 * s + v + 1] == StandardDeck()[..13 * s + v] + [StandardDeck()[13 * s + v]];
        deck := deck + [Card(Suits[s], v + 1, false)];
      }
    }
  }

  // ---------------------------------------------------------------------
  // Keys are kept by permutations

  /** Taking card k out of a pile takes its key out of the pile's keys. */
  lemma KeysRemoveAt(b: Pile, k: nat)
    requires k < |b|
    ensures Keys(b) == Keys(b[..k] + b[k + 1..]) + multiset{KeyOf(b[k])}
  {
    assert b == (b[..k] + [b[k]]) + b[k + 1..];
    KeysConcat(b[..k] + [b[k]], b[k + 1..]);
    KeysPush(b[..k], b[k]);
    KeysConcat(b[..k], b[k + 1..]);
  }

  lemma RemoveAtMultiset(b: Pile, k: nat)
    requires k < |b|
    ensures multiset(b[..k] + b[k + 1..]) == multiset(b) - multiset{b[k]}
  {
    assert b == b[..k] + [b[k]] + b[k + 1..];
  }

  /** Piles that are permutations of each other hold the same cards. */
  lemma {:induction false} PermutationKeys(a: Pile, b: Pile)
    requires multiset(a) == multiset(b)
    ensures Keys(a) == Keys(b)
    decreases |a|
  {
    if |a| == 0 {
      assert |multiset(b)| == 0;
    } else {
      var x := Top(a);
      assert x in multiset(b);
      var k :| 0 <= k < |b| && b[k] == x;
      RemoveAtMultiset(b, k);
      assert a == Pop(a) + [x];
      assert multiset(Pop(a)) == multiset(a) - multiset{x};
      PermutationKeys(Pop(a), b[..k] + b[k + 1..]);
      KeysPop(a);
      KeysRemoveAt(b, k);
    }
  }

  // ---------------------------------------------------------------------
  // Dealing

  /** The number of cards dealt to the columns before column i. */
  function Tri(i: nat): nat
  {
    if i == 0 then 0 else Tri(i - 1) + i
  }

  /** Tri(i) is the triangular number i(i+1)/2. */
  lemma {:induction false} TriClosedForm(i: nat)
    ensures 2 * Tri(i) == i * (i + 1)
  {
    if i > 0 {
      TriClosedForm(i - 1);
      assert i * (i + 1) == (i - 1) * i + 2 * i;
    }
  }

  /** Column i of the deal: its j-th card is the (Tri(i) + j)-th card popped
      off the deck's end, only the last card face-up. */
  function DealtColumn(deck: Pile, i: nat): (column: Pile)
    requires i < 7 && |deck| >= 28
    ensures |column| == i + 1
    ensures Tri(i + 1) <= 28
    ensures forall j :: 0 <= j <= i ==> column[j] == deck[|deck| - 1 - (Tri(i) + j)].(faceUp := j == i)
  {
    TriMonotone(i + 1, 7);
    assert Tri(7) == 28;
    seq(i + 1, j requires 0 <= j <= i => deck[|deck| - 1 - (Tri(i) + j)].(faceUp := j == i))
  }

  lemma {:induction false} TriMonotone(i: nat, k: nat)
    requires i <= k
    ensures Tri(i) <= Tri(k)
    decreases k - i
  {
    if i < k {
      TriMonotone(i, k - 1);
    }
  }

  /** The inner deal loop: pops i + 1 cards off the end of the remainder,
      turning only the last of them face-up. */
  method DealColumn(remaining: Pile, i: nat) returns (column: Pile, rest: Pile)
    requires i < |remaining|
    ensures |column| == i + 1
    ensures forall j :: 0 <= j <= i ==> column[j] == remaining[|remaining| - 1 - j].(faceUp := j == i)
    ensures rest == remaining[..|remaining| - (i + 1)]
    ensures Keys(column) + Keys(rest) == Keys(remaining)
  {
    column, rest := [], remaining;
    for j := 0 to i + 1
      invariant |column| == j
      invariant forall j' :: 0 <= j' < j ==> column[j'] == remaining[|remaining| - 1 - j'].(faceUp := j' == i)
      invariant rest == remaining[..|remaining| - j]
      invariant Keys(column) + Keys(rest) == Keys(remaining)
    {
      var card := Top(rest).(faceUp := j == i);
      KeysPop(rest);
      KeysPush(column, card);
      column := column + [card];
      rest := Pop(rest);
    }
  }

  /** The deal loops: column i gets i + 1 cards popped off the deck's end,
      the last of them face-up; the first |deck| - 28 cards remain, in
      order, and no card is lost. */
  method Deal(deck: Pile) returns (tableau: seq<Pile>, remaining: Pile)
    requires |deck| >= 28
    ensures |tableau| == 7
    ensures forall i :: 0 <= i < 7 ==> tableau[i] == DealtColumn(deck, i)
    ensures remaining == deck[..|deck| - 28]
    ensures AllKeys(tableau) + Keys(remaining) == Keys(deck)
  {
    tableau := Empties(7);
    remaining := deck;
    assert Tri(7) == 28;
    for i := 0 to 7
      invariant |tableau| == 7
      invariant Tri(i) <= 28
      invariant remaining <= deck && |remaining| == |deck| - Tri(i)
      invariant tableau == DealtColumns(deck, i) + Empties(7 - i)
      invariant AllKeys(tableau) + Keys(remaining) == Keys(deck)
    {
      TriMonotone(i + 1, 7);
      var column, rest := DealColumn(remaining, i);
      DealtFromRemainder(deck, i, remaining, column);
      assert AllKeys(tableau[i := column]) + Keys(rest) == Keys(deck) by {
        DealOne(tableau, i, column, remaining, rest);
      }
      NextColumn(deck, i);
      tableau := tableau[i := column];
      remaining := rest;
    }
    assert tableau == DealtColumns(deck, 7);
    assert remaining == deck[..|deck| - 28];
  }

  lemma NextColumn(deck: Pile, i: nat)
    requires i < 7 && |deck| >= 28
    ensures (DealtColumns(deck, i) + Empties(7 - i))[i := DealtColumn(deck, i)]
      == DealtColumns(deck, i + 1) + Empties(7 - (i + 1))
  {
    var a := (DealtColumns(deck, i) + Empties(7 - i))[i := DealtColumn(deck, i)];
    var b := DealtColumns(deck, i + 1) + Empties(7 - (i + 1));
    assert |a| == |b|;
    forall k | 0 <= k < |a| ensures a[k] == b[k] {
    }
  }

  /** The first n columns of the deal. */
  function DealtColumns(deck: Pile, n: nat): (r: seq<Pile>)
    requires n <= 7 && |deck| >= 28
    ensures |r| == n && forall c :: 0 <= c < n ==> r[c] == DealtColumn(deck, c)
  {
    seq(n, c requires 0 <= c < n => DealtColumn(deck, c))
  }

  /** n empty columns (`Array(n).fill().map(() => [])`). */
  function Empties(n: nat): (r: seq<Pile>)
    ensures |r| == n && AllKeys(r) == multiset{}
    ensures forall k :: 0 <= k < n ==> r[k] == []
  {
    if n == 0 then []
    else
      var r := Empties(n - 1) + [[]];
      assert r[..n - 1] == Empties(n - 1);
      assert Keys([]) == multiset{};
      r
  }

  /** The column popped off what is left after the first i columns is
      column i of the deal. */
  lemma DealtFromRemainder(deck: Pile, i: nat, remaining: Pile, column: Pile)
    requires i < 7 && |deck| >= 28 && Tri(i + 1) <= 28
    requires remaining <= deck && |remaining| == |deck| - Tri(i)
    requires |column| == i + 1
    requires forall j :: 0 <= j <= i ==> column[j] == remaining[|remaining| - 1 - j].(faceUp := j == i)
    ensures column == DealtColumn(deck, i)
  {
    var d := DealtColumn(deck, i);
    forall j | 0 <= j <= i ensures column[j] == d[j] {
      assert remaining[|remaining| - 1 - j] == deck[|deck| - 1 - (Tri(i) + j)];
    }
  }

  /** Filling the empty column i from the remainder keeps the cards. */
  lemma DealOne(tableau: seq<Pile>, i: nat, column: Pile, remaining: Pile, rest: Pile)
    requires i < |tableau| && tableau[i] == [] && Keys(column) + Keys(rest) == Keys(remaining)
    ensures AllKeys(tableau[i := column]) + Keys(rest) == AllKeys(tableau) + Keys(remaining)
  {
    AllKeysUpdate(tableau, i, column);
    assert Keys(tableau[i]) == multiset{};
    forall k ensures (AllKeys(tableau[i := column]) + Keys(rest))[k] == (AllKeys(tableau) + Keys(remaining))[k] {
      assert (AllKeys(tableau[i := column]) + Keys(tableau[i]))[k] == (AllKeys(tableau) + Keys(column))[k];
      assert (Keys(column) + Keys(rest))[k] == Keys(remaining)[k];
    }
  }

  // ---------------------------------------------------------------------
  // The deck component

  class DeckComponent {
    var deck: Pile

    /** The component starts with the new deck shuffled under the picks. */
    constructor (picks: seq<nat>)
      requires Helpers.ValidPicks(picks, 52)
      ensures deck == Helpers.Shuffled(StandardDeck(), picks)
      ensures Keys(deck) == Keys(StandardDeck())
    {
      var newDeck := BuildDeck();
      var shuffledDeck := Helpers.ShuffleArray(newDeck, picks);
      PermutationKeys(shuffledDeck, newDeck);
      deck := shuffledDeck;
    }

    /** reshuffleDeck: the current cards turned face-down and shuffled. */
    method ReshuffleDeck(picks: seq<nat>) returns (reshuffled: Pile)
      requires Helpers.ValidPicks(picks, |deck|)
      modifies this
      ensures reshuffled == Helpers.Shuffled(WithFace(old(deck), false), picks)
      ensures multiset(reshuffled) == multiset(WithFace(old(deck), false))
      ensures Keys(reshuffled) == Keys(old(deck))
      ensures forall i :: 0 <= i < |reshuffled| ==> !reshuffled[i].faceUp
      ensures deck == reshuffled
    {
      var faceDown := WithFace(deck, false);
      reshuffled := Helpers.ShuffleArray(faceDown, picks);
      PermutationKeys(reshuffled, faceDown);
      KeysWithFace(deck, false);
      forall i | 0 <= i < |reshuffled| ensures !reshuffled[i].faceUp {
        assert reshuffled[i] in multiset(faceDown);
      }
      deck := reshuffled;
    }

    /** dealTableau: deals the seven columns off the deck, which keeps the
        rest. */
    method DealTableau() returns (tableau: seq<Pile>, remainingDeck: Pile)
      requires |deck| >= 28
      modifies this
      ensures |tableau| == 7
      ensures forall i :: 0 <= i < 7 ==> tableau[i] == DealtColumn(old(deck), i)
      ensures remainingDeck == old(deck)[..|old(deck)| - 28]
      ensures AllKeys(tableau) + Keys(remainingDeck) == Keys(old(deck))
      ensures deck == remainingDeck
    {
      tableau, remainingDeck := Deal(deck);
      deck := remainingDeck;
    }

    /** drawCards: nothing from an empty deck; otherwise up to `count`
        cards popped off the end, face-up, in pop order. */
    method DrawCards(count: nat) returns (drawnCards: Pile, remainingDeck: Pile)
      modifies this
      ensures |old(deck)| == 0 ==> drawnCards == [] && remainingDeck == [] && deck == old(deck)
      ensures |old(deck)| > 0 ==>
        var k := Helpers.Min(count, |old(deck)|);
        && drawnCards == PoppedFaceUp(old(deck), k)
        && remainingDeck == old(deck)[..|old(deck)| - k]
        && deck == remainingDeck
      ensures forall i :: 0 <= i < |drawnCards| ==> drawnCards[i].faceUp
      ensures Keys(drawnCards) + Keys(remainingDeck) == Keys(old(deck))
    {
      if |deck| == 0 {
        return [], [];
      }
      drawnCards, remainingDeck := PopFaceUp(deck, count);
      deck := remainingDeck;
    }
  }
}
