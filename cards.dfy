/**
 * Cards and piles of the Klondike engine, and the card bookkeeping that the
 * conservation properties of the other modules are stated with.
 *
 * A card is a suit, a rank and a face-up flag; a pile is a sequence whose
 * top is its last element.  The suit and rank of a card (its key) never
 * change; a multiset of keys says which cards a group of piles holds.
 */
module Cards {

  datatype Option<T> = None | Some(value: T)

  datatype Suit = Hearts | Diamonds | Clubs | Spades

  /** Ranks in their playing order: A = 1, 2 .. 10, J = 11, Q = 12, K = 13. */
  type Rank = r: int | 1 <= r <= 13 witness 1

  const Ace: Rank := 1
  const King: Rank := 13

  datatype Card = Card(suit: Suit, rank: Rank, faceUp: bool)

  /** A pile of cards; its top is the last element. */
  type Pile = seq<Card>

  /** The rank names in order (the VALUES table of the rules). */
  const Values: seq<string> := ["A", "2", "3", "4", "5", "6", "7", "8", "9", "10", "J", "Q", "K"]

  function RankName(r: Rank): string
  {
    Values[r - 1]
  }

  function SuitName(s: Suit): string
  {
    match s
    case Hearts => "hearts"
    case Diamonds => "diamonds"
    case Clubs => "clubs"
    case Spades => "spades"
  }

  function Top(p: Pile): Card
    requires |p| > 0
  {
    p[|p| - 1]
  }

  /** The pile without its top card (slice(0, -1)). */
  function Pop(p: Pile): Pile
    requires |p| > 0
  {
    p[..|p| - 1]
  }

  /** The top card, if any (what `pile[pile.length - 1]` yields). */
  function TopOpt(p: Pile): Option<Card>
  {
    if |p| == 0 then None else Some(Top(p))
  }

  /** Every card of the pile with its face flag set to `up`. */
  function WithFace(p: Pile, up: bool): (r: Pile)
    ensures |r| == |p|
    ensures forall i :: 0 <= i < |p| ==> r[i] == p[i].(faceUp := up)
  {
    seq(|p|, i requires 0 <= i < |p| => p[i].(faceUp := up))
  }

  function Reverse(p: Pile): (r: Pile)
    ensures |r| == |p|
  {
    if p == [] then [] else Reverse(p[1..]) + [p[0]]
  }

  lemma {:induction false} ReverseAt(p: Pile, k: nat)
    requires k < |p|
    ensures Reverse(p)[k] == p[|p| - 1 - k]
  {
    if k < |p| - 1 {
      ReverseAt(p[1..], k);
    }
  }

  /** The cards taken by popping `k` cards off the end of `p`, in pop order,
      each turned face-up. */
  function PoppedFaceUp(p: Pile, k: nat): Pile
    requires k <= |p|
  {
    WithFace(Reverse(p[|p| - k..]), true)
  }

  // ---------------------------------------------------------------------
  // Card keys

  type Key = (Suit, Rank)

  function KeyOf(c: Card): Key
  {
    (c.suit, c.rank)
  }

  function KeySeq(p: Pile): (r: seq<Key>)
    ensures |r| == |p|
    ensures forall i :: 0 <= i < |p| ==> r[i] == KeyOf(p[i])
  {
    seq(|p|, i requires 0 <= i < |p| => KeyOf(p[i]))
  }

  /** The cards of a pile, ignoring order and face. */
  function Keys(p: Pile): multiset<Key>
  {
    multiset(KeySeq(p))
  }

  /** The cards of a row of piles (the tableau or the foundations). */
  function AllKeys(ps: seq<Pile>): multiset<Key>
  {
    if ps == [] then multiset{} else AllKeys(ps[..|ps| - 1]) + Keys(ps[|ps| - 1])
  }

  lemma KeysConcat(a: Pile, b: Pile)
    ensures Keys(a + b) == Keys(a) + Keys(b)
  {
    assert KeySeq(a + b) == KeySeq(a) + KeySeq(b);
  }

  lemma KeysPop(p: Pile)
    requires |p| > 0
    ensures Keys(p) == Keys(Pop(p)) + multiset{KeyOf(Top(p))}
  {
    assert p == Pop(p) + [Top(p)];
    KeysConcat(Pop(p), [Top(p)]);
    assert KeySeq([Top(p)]) == [KeyOf(Top(p))];
  }

  lemma KeysWithFace(p: Pile, up: bool)
    ensures Keys(WithFace(p, up)) == Keys(p)
  {
    assert KeySeq(WithFace(p, up)) == KeySeq(p);
  }

  lemma KeysSplit(p: Pile, k: nat)
    requires k <= |p|
    ensures Keys(p) == Keys(p[..k]) + Keys(p[k..])
  {
    assert p == p[..k] + p[k..];
    KeysConcat(p[..k], p[k..]);
  }

  lemma {:induction false} KeysReverse(p: Pile)
    ensures Keys(Reverse(p)) == Keys(p)
  {
    if p != [] {
      KeysReverse(p[1..]);
      KeysConcat(Reverse(p[1..]), [p[0]]);
      KeysSplit(p, 1);
      assert p[..1] == [p[0]];
    }
  }

  /** Replacing pile i of a row by q changes the row's cards accordingly. */
  lemma {:induction false} AllKeysUpdate(ps: seq<Pile>, i: nat, q: Pile)
    requires i < |ps|
    ensures AllKeys(ps[i := q]) + Keys(ps[i]) == AllKeys(ps) + Keys(q)
  {
    var n := |ps| - 1;
    var ps' := ps[i := q];
    assert AllKeys(ps') == AllKeys(ps'[..n]) + Keys(ps'[n]);
    assert AllKeys(ps) == AllKeys(ps[..n]) + Keys(ps[n]);
    if i < n {
      assert ps'[..n] == ps[..n][i := q] && ps'[n] == ps[n] && ps[..n][i] == ps[i];
      AllKeysUpdate(ps[..n], i, q);
      calc {
        AllKeys(ps') + Keys(ps[i]);
        AllKeys(ps[..n][i := q]) + Keys(ps[i]) + Keys(ps[n]);
        AllKeys(ps[..n]) + Keys(q) + Keys(ps[n]);
        AllKeys(ps) + Keys(q);
      }
    } else {
      assert ps'[..n] == ps[..n];
    }
  }

  /** One more pop extends the popped cards by the next card below. */
  lemma PoppedFaceUpStep(p: Pile, k: nat)
    requires k < |p|
    ensures PoppedFaceUp(p, k + 1) == PoppedFaceUp(p, k) + [p[|p| - 1 - k].(faceUp := true)]
  {
    var n := |p| - k;
    assert p[n - 1..][1..] == p[n..];
    assert Reverse(p[n - 1..]) == Reverse(p[n..]) + [p[n - 1]];
  }

  lemma KeysPush(p: Pile, c: Card)
    ensures Keys(p + [c]) == Keys(p) + multiset{KeyOf(c)}
  {
    KeysConcat(p, [c]);
    assert KeySeq([c]) == [KeyOf(c)];
  }

  /** Putting card c on pile j of a row adds exactly c to the row. */
  lemma PushOnto(ps: seq<Pile>, j: nat, c: Card)
    requires j < |ps|
    ensures AllKeys(ps[j := ps[j] + [c]]) == AllKeys(ps) + multiset{KeyOf(c)}
  {
    AllKeysUpdate(ps, j, ps[j] + [c]);
    KeysPush(ps[j], c);
    Cancel(AllKeys(ps[j := ps[j] + [c]]), AllKeys(ps) + multiset{KeyOf(c)}, Keys(ps[j]));
  }

  /** Replacing pile i of a row by q, which holds the cards of pile i less
      its top, removes exactly that top card from the row. */
  lemma TakeTop(ps: seq<Pile>, i: nat, q: Pile)
    requires i < |ps| && |ps[i]| > 0 && Keys(q) == Keys(Pop(ps[i]))
    ensures AllKeys(ps[i := q]) + multiset{KeyOf(Top(ps[i]))} == AllKeys(ps)
  {
    AllKeysUpdate(ps, i, q);
    KeysPop(ps[i]);
    Cancel(AllKeys(ps[i := q]) + multiset{KeyOf(Top(ps[i]))}, AllKeys(ps), Keys(q));
  }

  lemma Cancel(a: multiset<Key>, b: multiset<Key>, x: multiset<Key>)
    requires a + x == b + x
    ensures a == b
  {
    forall k ensures a[k] == b[k] {
      assert (a + x)[k] == (b + x)[k];
    }
  }

  // ---------------------------------------------------------------------
  // Popping cards off a pile

  /** Moving the top of `rest`, turned face-up, onto `drawn` keeps the
      cards of the two. */
  lemma MoveTopKeys(drawn: Pile, rest: Pile)
    requires |rest| > 0
    ensures Keys(drawn + [Top(rest).(faceUp := true)]) + Keys(Pop(rest)) == Keys(drawn) + Keys(rest)
  {
    KeysPop(rest);
    KeysPush(drawn, Top(rest).(faceUp := true));
  }

  /** Pops up to `count` cards off the end of `pile`, one at a time, turning
      each face-up and collecting them in pop order (the drawing loops of
      the stock and of the deck). */
  method PopFaceUp(pile: Pile, count: nat) returns (drawn: Pile, rest: Pile)
    ensures var k := if count < |pile| then count else |pile|;
      rest == pile[..|pile| - k] && drawn == PoppedFaceUp(pile, k)
    ensures Keys(drawn) + Keys(rest) == Keys(pile)
    ensures forall i :: 0 <= i < |drawn| ==> drawn[i].faceUp
  {
    drawn, rest := [], pile;
    var i := 0;
    while i < count && |rest| > 0
      invariant 0 <= i <= count && i <= |pile|
      invariant rest == pile[..|pile| - i]
      invariant drawn == PoppedFaceUp(pile, i)
      invariant Keys(drawn) + Keys(rest) == Keys(pile)
    {
      var card := Top(rest).(faceUp := true);
      PoppedFaceUpStep(pile, i);
      MoveTopKeys(drawn, rest);
      drawn := drawn + [card];
      rest := Pop(rest);
      i := i + 1;
    }
  }
}
