/** The rules of the game (src/domain/bet.rs): which bets win on which face of the die, and
    that every kind of bet is fair. */
module Rules {
  import opened Operations

  predicate IsFace(dice: nat) { 1 <= dice <= 6 }

  /** A kind of bet that the text format can name. */
  predicate IsPlayable(kind: BetKind) {
    kind.Exact? ==> IsFace(kind.face)
  }

  /** High wins from some face on, Low exactly where High does not. */
  lemma HighAndLow(d: nat, e: nat)
    requires IsFace(d) && IsFace(e) && d <= e
    ensures High.Wins(d) ==> High.Wins(e)
    ensures Low.Wins(d) <==> !High.Wins(d)
  {
  }

  /** Odd wins on 1 and on every other face from there, Even exactly where Odd does not. */
  lemma OddAndEven(d: nat)
    ensures Odd.Wins(1) && (Odd.Wins(d + 1) <==> !Odd.Wins(d))
    ensures Even.Wins(d) <==> !Odd.Wins(d)
  {
  }

  /** An exact bet wins on its own face, and two of them never on the same. */
  lemma ExactFaces(f: nat, g: nat, d: nat)
    ensures Exact(f).Wins(f)
    ensures f != g ==> !(Exact(f).Wins(d) && Exact(g).Wins(d))
  {
  }

  /** What a bet of this kind returns on the faces from 1 to n. */
  function Returns(kind: BetKind, prize: nat, n: nat): nat {
    if n == 0 then 0 else Returns(kind, prize, n - 1) + if kind.Wins(n) then prize else 0
  }

  /** How often a kind wins on the faces from 1 to n. */
  function WinningFaces(kind: BetKind, n: nat): nat {
    if n == 0 then 0 else WinningFaces(kind, n - 1) + if kind.Wins(n) then 1 else 0
  }

  lemma {:induction false} ReturnsPrizes(kind: BetKind, prize: nat, n: nat)
    ensures Returns(kind, prize, n) == WinningFaces(kind, n) * prize
  {
    if n != 0 {
      ReturnsPrizes(kind, prize, n - 1);
    }
  }

  lemma FairOdds(kind: BetKind)
    requires IsPlayable(kind)
    ensures WinningFaces(kind, 6) * kind.Multiplier() == 6
  {
    assert WinningFaces(kind, 2) == (if kind.Wins(1) then 1 else 0) + if kind.Wins(2) then 1 else 0;
    assert WinningFaces(kind, 4)
        == WinningFaces(kind, 2) + (if kind.Wins(3) then 1 else 0) + if kind.Wins(4) then 1 else 0;
    assert WinningFaces(kind, 6)
        == WinningFaces(kind, 4) + (if kind.Wins(5) then 1 else 0) + if kind.Wins(6) then 1 else 0;
  }

  /** Every bet is fair: over the six faces it returns six stakes. */
  lemma {:induction false} Fair(b: Bet)
    requires IsPlayable(b.kind)
    ensures Returns(b.kind, b.Prize(), 6) == 6 * b.amount
  {
    ReturnsPrizes(b.kind, b.Prize(), 6);
    FairOdds(b.kind);
    assert Returns(b.kind, b.Prize(), 6) == b.amount * (WinningFaces(b.kind, 6) * b.kind.Multiplier());
  }
}
