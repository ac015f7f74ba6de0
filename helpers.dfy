/**
 * The helper functions of the engine: rank values, card colours, the
 * Fisher–Yates shuffle (with its random picks supplied by the caller),
 * the M:SS clock text and the end-of-game score.
 */
module Helpers {
  import opened Cards

  // ---------------------------------------------------------------------
  // Rank values

  /** The numeric value of a rank name: "A" is 1, "2".."10" their number,
      "J", "Q", "K" are 11, 12, 13; any other rank-like string is 0.  (The
      lookup is into an object literal, so a property name every object
      inherits, such as "toString", would give a non-number; no caller
      passes one, and the model maps it to 0.) */
  function CardValue(v: string): (n: nat)
    ensures n <= 13
    ensures n != 0 ==> RankName(n) == v
  {
    if v == "A" then 1
    else if v == "2" then 2
    else if v == "3" then 3
    else if v == "4" then 4
    else if v == "5" then 5
    else if v == "6" then 6
    else if v == "7" then 7
    else if v == "8" then 8
    else if v == "9" then 9
    else if v == "10" then 10
    else if v == "J" then 11
    else if v == "Q" then 12
    else if v == "K" then 13
    else 0
  }

  /** Every rank name maps back to its rank, so the map is injective on the
      thirteen names, and a string is a rank name exactly when its value is
      not 0. */
  lemma CardValueOfName(r: Rank)
    ensures CardValue(RankName(r)) == r
  {
    if r == 1 {} else if r == 2 {} else if r == 3 {} else if r == 4 {}
    else if r == 5 {} else if r == 6 {} else if r == 7 {} else if r == 8 {}
    else if r == 9 {} else if r == 10 {} else if r == 11 {} else if r == 12 {}
    else {}
  }

  lemma RankNameInjective(r1: Rank, r2: Rank)
    ensures RankName(r1) == RankName(r2) <==> r1 == r2
  {
    CardValueOfName(r1);
    CardValueOfName(r2);
  }

  // ---------------------------------------------------------------------
  // Colours

  datatype Color = Red | Black

  function CardColor(s: Suit): Color
  {
    if s == Hearts || s == Diamonds then Red else Black
  }

  predicate AreOppositeColors(a: Card, b: Card)
  {
    CardColor(a.suit) != CardColor(b.suit)
  }

  /** Exactly hearts and diamonds are red; the opposite-colour relation is
      symmetric, irreflexive on suits, and holds between a red and a black
      suit. */
  lemma ColorFacts(a: Card, b: Card)
    ensures CardColor(a.suit) == Red <==> a.suit in {Hearts, Diamonds}
    ensures AreOppositeColors(a, b) == AreOppositeColors(b, a)
    ensures a.suit == b.suit ==> !AreOppositeColors(a, b)
    ensures AreOppositeColors(a, b) <==> (CardColor(a.suit) == Red) != (CardColor(b.suit) == Red)
  {
  }

  // ---------------------------------------------------------------------
  // Fisher–Yates shuffle

  /** The picks of a shuffle of n elements: for each position i > 0, the
      position j in [0, i] it is swapped with (what Math.random chose). */
  predicate ValidPicks(picks: seq<nat>, n: nat)
  {
    |picks| == n && forall i :: 0 < i < n ==> picks[i] <= i
  }

  function Swap<T>(s: seq<T>, i: nat, j: nat): seq<T>
    requires i < |s| && j < |s|
  {
    s[i := s[j]][j := s[i]]
  }

  /** The sequence after the loop's iterations i, i - 1, .., 1. */
  function ShuffleFrom<T>(s: seq<T>, picks: seq<nat>, i: nat): seq<T>
    requires ValidPicks(picks, |s|) && (i < |s| || i == 0)
    decreases i
  {
    if i == 0 then s else ShuffleFrom(Swap(s, i, picks[i]), picks, i - 1)
  }

  /** The shuffle of s under the given picks. */
  function Shuffled<T>(s: seq<T>, picks: seq<nat>): seq<T>
    requires ValidPicks(picks, |s|)
  {
    if |s| == 0 then s else ShuffleFrom(s, picks, |s| - 1)
  }

  /** Whatever the picks, the shuffle is a permutation of its input. */
  lemma {:induction false} ShuffleFromPermutes<T>(s: seq<T>, picks: seq<nat>, i: nat)
    requires ValidPicks(picks, |s|) && (i < |s| || i == 0)
    ensures |ShuffleFrom(s, picks, i)| == |s|
    ensures multiset(ShuffleFrom(s, picks, i)) == multiset(s)
    decreases i
  {
    if i > 0 {
      var s' := Swap(s, i, picks[i]);
      assert multiset(s') == multiset(s);
      ShuffleFromPermutes(s', picks, i - 1);
    }
  }

  lemma ShuffledPermutes<T>(s: seq<T>, picks: seq<nat>)
    requires ValidPicks(picks, |s|)
    ensures |Shuffled(s, picks)| == |s| && multiset(Shuffled(s, picks)) == multiset(s)
  {
    if |s| > 0 {
      ShuffleFromPermutes(s, picks, |s| - 1);
    }
  }

  /** shuffleArray: copies the input into a fresh array and swaps position i
      with picks[i] for i from the last position down to 1.  The input, a
      value, is left as it was. */
  method ShuffleArray<T>(s: seq<T>, picks: seq<nat>) returns (r: seq<T>)
    requires ValidPicks(picks, |s|)
    ensures r == Shuffled(s, picks)
    ensures multiset(r) == multiset(s)
  {
    ShuffledPermutes(s, picks);
    var a := new T[|s|](k requires 0 <= k < |s| => s[k]);
    assert a[..] == s;
    if a.Length == 0 {
      return a[..];
    }
    var i := a.Length - 1;
    while i > 0
      invariant 0 <= i < a.Length
      invariant ShuffleFrom(a[..], picks, i) == Shuffled(s, picks)
    {
      var j := picks[i];
      ghost var before := a[..];
      a[i], a[j] := a[j], a[i];
      assert a[..] == Swap(before, i, j);
      i := i - 1;
    }
    r := a[..];
  }

  // ---------------------------------------------------------------------
  // Clock text

  function DigitChar(d: nat): char
    requires d < 10
  {
    (48 + d) as char
  }

  function DigitValue(c: char): nat
  {
    if '0' <= c <= '9' then (c as int) - 48 else 0
  }

  lemma DigitRoundTrip(d: nat)
    requires d < 10
    ensures DigitValue(DigitChar(d)) == d
  {
  }

  /** The decimal numeral of n, without leading zeros (`${n}`). */
  function Decimal(n: nat): (s: string)
    ensures |s| >= 1
    decreases n
  {
    if n < 10 then [DigitChar(n)] else Decimal(n / 10) + [DigitChar(n % 10)]
  }

  /** The value of a string of decimal digits. */
  function ParseDecimal(s: string): nat
  {
    if s == [] then 0 else 10 * ParseDecimal(s[..|s| - 1]) + DigitValue(s[|s| - 1])
  }

  lemma {:induction false} DecimalRoundTrip(n: nat)
    ensures ParseDecimal(Decimal(n)) == n
    decreases n
  {
    var s := Decimal(n);
    if n < 10 {
      assert s[..0] == [];
    } else {
      DecimalRoundTrip(n / 10);
      assert s[..|s| - 1] == Decimal(n / 10);
    }
  }

  /** formatTime: minutes, a colon, and the seconds padded to two digits. */
  function FormatTime(seconds: nat): string
  {
    var minutes := seconds / 60;
    var remainingSeconds := seconds % 60;
    Decimal(minutes) + ":" + (if remainingSeconds < 10 then "0" else "") + Decimal(remainingSeconds)
  }

  /** Reads back an M:SS text: the part before the colon three characters
      from the end is the minutes, the last two characters the seconds. */
  function ParseTime(s: string): Option<nat>
  {
    if |s| >= 4 && s[|s| - 3] == ':' then
      Some(60 * ParseDecimal(s[..|s| - 3]) + ParseDecimal(s[|s| - 2..]))
    else None
  }

  /** The seconds always take exactly two digits after the colon. */
  lemma FormatTimeShape(seconds: nat)
    ensures FormatTime(seconds) ==
      Decimal(seconds / 60) + ":" + [DigitChar(seconds % 60 / 10), DigitChar(seconds % 60 % 10)]
  {
    var r := seconds % 60;
    if r < 10 {
      assert Decimal(r) == [DigitChar(r)];
      assert "0" == [DigitChar(0)];
    } else {
      assert Decimal(r / 10) == [DigitChar(r / 10)];
    }
  }

  /** The clock text determines the number of seconds it shows. */
  lemma FormatTimeRoundTrip(seconds: nat)
    ensures ParseTime(FormatTime(seconds)) == Some(seconds)
  {
    FormatTimeShape(seconds);
    var m := Decimal(seconds / 60);
    var ss: string := [DigitChar(seconds % 60 / 10), DigitChar(seconds % 60 % 10)];
    var s := m + ":" + ss;
    assert s[|s| - 3] == ':' && s[..|s| - 3] == m && s[|s| - 2..] == ss;
    DecimalRoundTrip(seconds / 60);
    DigitRoundTrip(seconds % 60 / 10);
    DigitRoundTrip(seconds % 60 % 10);
    assert ss[..|ss| - 1] == [ss[0]] && [ss[0]][..0] == [];
    assert ParseDecimal([ss[0]]) == DigitValue(ss[0]);
    assert ParseDecimal(ss) == 10 * (seconds % 60 / 10) + seconds % 60 % 10 == seconds % 60;
  }

  // ---------------------------------------------------------------------
  // Score

  function Min(a: int, b: int): int { if a < b then a else b }

  function Max(a: int, b: int): int { if a < b then b else a }

  function MinReal(a: real, b: real): real { if a < b then a else b }

  /** calculateScore: 0 unless the game is won; otherwise 500 less a moves
      penalty (2 a move, at most 300) and a time penalty (a fifth of the
      seconds as a fraction, at most 200), floored, and never below 0. */
  function CalculateScore(moves: nat, timeInSeconds: nat, isWon: bool): int
  {
    if !isWon then 0
    else
      var baseScore := 500;
      var movesPenalty := Min(300, moves * 2);
      var timePenalty := MinReal(200.0, timeInSeconds as real / 5.0);
      Max(0, ((baseScore - movesPenalty) as real - timePenalty).Floor)
  }

  /** The score without fractions: the time penalty is the number of
      seconds divided by 5, rounded up, capped at 200. */
  lemma ScoreInIntegers(moves: nat, timeInSeconds: nat)
    ensures CalculateScore(moves, timeInSeconds, true) ==
      500 - Min(300, 2 * moves) - Min(200, (timeInSeconds + 4) / 5)
  {
    var k := 500 - Min(300, 2 * moves);
    var x := timeInSeconds as real / 5.0;
    var q := (timeInSeconds + 4) / 5;
    assert timeInSeconds <= 5 * q < timeInSeconds + 5;
    if x < 200.0 {
      var n := k - q;
      assert (n as real) <= (k as real) - x < (n as real) + 1.0;
      assert ((k as real) - x).Floor == n;
      assert q <= 200;
    } else {
      assert ((k as real) - 200.0).Floor == k - 200;
      assert q >= 200;
    }
  }

  /** A lost game scores 0; a won game scores between 0 and 500, 500 with
      no moves in no time, and never more with more moves or more time. */
  lemma ScoreFacts(m1: nat, t1: nat, m2: nat, t2: nat, isWon: bool)
    requires m1 <= m2 && t1 <= t2
    ensures !isWon ==> CalculateScore(m1, t1, isWon) == 0
    ensures 0 <= CalculateScore(m1, t1, isWon) <= 500
    ensures CalculateScore(0, 0, true) == 500
    ensures CalculateScore(m2, t2, isWon) <= CalculateScore(m1, t1, isWon)
    ensures isWon ==> CalculateScore(m1, t1, true) >= 500 - 300 - 200
  {
    ScoreInIntegers(m1, t1);
    ScoreInIntegers(m2, t2);
    ScoreInIntegers(0, 0);
  }
}
