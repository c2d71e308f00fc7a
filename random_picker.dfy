/** The random picker: a strip of 80 cards drawn from the backlog with the winner at
    index 65, an animation that slides the strip until the pointer rests on the winner's
    card, and the winner announced when the animation ends. Random numbers are inputs in
    [0, 1); the two timers are pending events the environment fires. */
module RandomPicker {
  import opened Common
  import opened GamesSlice

  const CardWidth: int := 200
  const CardGap: int := 16
  const TotalItems: nat := 80
  const WinnerIndex: nat := 65
  /** Distance in pixels from the start of one card to the start of the next. */
  const Stride: int := CardWidth + CardGap

  /** A value of `Math.random()`. */
  type Draw = u: real | 0.0 <= u < 1.0

  lemma ScaledDrawBelow(n: nat, u: Draw)
    requires n > 0
    ensures 0 <= (u * n as real).Floor < n
  {
    assert u * (n as real) <= (n as real) * u;
    assert (n as real) * u < (n as real) * 1.0;
  }

  /** `candidates[Math.floor(Math.random() * candidates.length)]`. */
  function Pick(games: seq<Game>, u: Draw): (g: Game)
    requires |games| > 0
    ensures g in games
  {
    ScaledDrawBelow(|games|, u);
    games[(u * |games| as real).Floor]
  }

  /** The draw used for strip position `i`: every position except the winner's takes the
      next draw, in order. */
  function DrawIndex(i: nat): (j: nat)
    requires i < TotalItems && i != WinnerIndex
    ensures j < TotalItems - 1
  {
    if i < WinnerIndex then i else i - 1
  }

  /** The strip: the winner at `WinnerIndex`, a random game of the backlog everywhere else. */
  function Strip(games: seq<Game>, winner: Game, draws: seq<Draw>): (r: seq<Game>)
    requires |games| > 0 && |draws| == TotalItems - 1
    ensures |r| == TotalItems
    ensures r[WinnerIndex] == winner
    ensures forall i :: 0 <= i < TotalItems && i != WinnerIndex ==> r[i] == Pick(games, draws[DrawIndex(i)])
    ensures forall i :: 0 <= i < TotalItems && i != WinnerIndex ==> r[i] in games
  {
    seq(TotalItems, i requires 0 <= i < TotalItems =>
      if i == WinnerIndex then winner else Pick(games, draws[DrawIndex(i)]))
  }

  /** `generateStrip(forcedWinner)`: the forced winner if there is one, else a random pick. */
  function GenerateStrip(games: seq<Game>, forced: Option<Game>, u: Draw, draws: seq<Draw>): (r: seq<Game>)
    requires |games| > 0 && |draws| == TotalItems - 1
    ensures |r| == TotalItems
    ensures forced.Some? ==> r[WinnerIndex] == forced.value
    ensures forced.None? ==> r[WinnerIndex] == Pick(games, u) && r[WinnerIndex] in games
  {
    Strip(games, if forced.Some? then forced.value else Pick(games, u), draws)
  }

  /** Without a forced winner every card of the strip comes from the backlog. */
  lemma StripFromBacklog(games: seq<Game>, u: Draw, draws: seq<Draw>)
    requires |games| > 0 && |draws| == TotalItems - 1
    ensures forall g :: g in GenerateStrip(games, None, u, draws) ==> g in games
  {
    var r := GenerateStrip(games, None, u, draws);
    forall g | g in r ensures g in games {
      var i :| 0 <= i < |r| && r[i] == g;
    }
  }

  /** The offset the strip slides to: the winner's card start, half a card further, and a
      jitter of up to 40% of a card width either way. */
  function TargetOffset(jitterDraw: Draw): (offset: real)
    ensures -14220.0 <= offset < -14060.0
  {
    var jitter := jitterDraw * (CardWidth as real) * 0.8 - (CardWidth as real) * 0.4;
    -((WinnerIndex * Stride) as real) - (CardWidth as real) / 2.0 + jitter
  }

  /** The pointer rests inside the winner's card, at least 20 pixels from either edge:
      the strip has moved `-offset` pixels, and card `WinnerIndex` covers the pixels from
      `WinnerIndex * Stride` to `WinnerIndex * Stride + CardWidth`. */
  lemma PointerOnWinner(jitterDraw: Draw)
    ensures var p := -TargetOffset(jitterDraw);
            (WinnerIndex * Stride) as real + 20.0 < p <= (WinnerIndex * Stride + CardWidth) as real - 20.0
  {
  }

  /** A scheduled timer: the 100 ms start of the animation and the 6.5 s end of it, each
      closing over the winner chosen when the spin began. */
  datatype Timer = StartAnimation(winner: Game) | EndAnimation(winner: Game)

  class Picker {
    var games: seq<Game>
    var isSpinning: bool
    var winner: Option<Game>
    var offset: real
    var items: seq<Game>
    /** Timers scheduled and not yet fired. */
    var pending: seq<Timer>

    /** The page mounts and its effect builds the first strip when there are games. */
    constructor (backlog: seq<Game>, u: Draw, draws: seq<Draw>)
      requires |draws| == TotalItems - 1
      ensures games == backlog && !isSpinning && winner == None && offset == 0.0 && pending == []
      ensures |backlog| == 0 ==> items == []
      ensures |backlog| > 0 ==> items == GenerateStrip(backlog, None, u, draws)
    {
      games := backlog;
      isSpinning := false;
      winner := None;
      offset := 0.0;
      pending := [];
      if |backlog| > 0 {
        items := GenerateStrip(backlog, None, u, draws);
      } else {
        items := [];
      }
    }

    /** The effect that runs when the backlog changes: a new strip at offset 0 when it has games. */
    method SetGames(backlog: seq<Game>, u: Draw, draws: seq<Draw>)
      requires |draws| == TotalItems - 1
      modifies this
      ensures games == backlog && isSpinning == old(isSpinning) && winner == old(winner)
      ensures pending == old(pending)
      ensures |backlog| == 0 ==> items == old(items) && offset == old(offset)
      ensures |backlog| > 0 ==> items == GenerateStrip(backlog, None, u, draws) && offset == 0.0
    {
      games := backlog;
      if |backlog| > 0 {
        items := GenerateStrip(backlog, None, u, draws);
        offset := 0.0;
      }
    }

    /** `handleSpin`: ignored while spinning or with an empty backlog; otherwise the
        announcement is cleared, the strip returns to offset 0 with a fresh winner at
        `WinnerIndex`, and the start of the animation is scheduled. */
    method HandleSpin(u: Draw, draws: seq<Draw>)
      requires |draws| == TotalItems - 1
      modifies this
      ensures games == old(games)
      ensures old(isSpinning) || |games| == 0 ==>
        isSpinning == old(isSpinning) && winner == old(winner) && offset == old(offset)
        && items == old(items) && pending == old(pending)
      ensures !old(isSpinning) && |games| > 0 ==>
        && !isSpinning && winner == None && offset == 0.0
        && items == Strip(games, Pick(games, u), draws)
        && pending == old(pending) + [StartAnimation(Pick(games, u))]
    {
      if isSpinning || |games| == 0 {
        return;
      }
      isSpinning := false;
      winner := None;
      offset := 0.0;
      var next := Pick(games, u);
      items := Strip(games, next, draws);
      pending := pending + [StartAnimation(next)];
    }

    /** The 100 ms timer fires: the strip starts sliding to its target and the end of the
        animation is scheduled with the same winner. */
    method FireStart(k: nat, jitterDraw: Draw)
      requires k < |pending| && pending[k].StartAnimation?
      modifies this
      ensures isSpinning && offset == TargetOffset(jitterDraw)
      ensures pending == old(pending[..k] + pending[k + 1..]) + [EndAnimation(old(pending[k].winner))]
      ensures games == old(games) && items == old(items) && winner == old(winner)
    {
      var w := pending[k].winner;
      isSpinning := true;
      offset := TargetOffset(jitterDraw);
      pending := pending[..k] + pending[k + 1..] + [EndAnimation(w)];
    }

    /** The 6.5 s timer fires: the spin stops and its winner is announced. */
    method FireEnd(k: nat)
      requires k < |pending| && pending[k].EndAnimation?
      modifies this
      ensures !isSpinning && winner == Some(old(pending[k].winner))
      ensures pending == old(pending[..k] + pending[k + 1..])
      ensures games == old(games) && items == old(items) && offset == old(offset)
    {
      winner := Some(pending[k].winner);
      isSpinning := false;
      pending := pending[..k] + pending[k + 1..];
    }

    /** Either button of the winner dialog: the dialog closes and nothing else changes. */
    method CloseWinner()
      modifies this
      ensures winner == None
      ensures games == old(games) && items == old(items) && offset == old(offset)
      ensures isSpinning == old(isSpinning) && pending == old(pending)
    {
      winner := None;
    }
  }

  /** One uninterrupted spin: click, the start timer, the end timer. The announced winner
      is the card the pointer rests on, and it comes from the backlog. */
  method Spin(p: Picker, u: Draw, draws: seq<Draw>, jitterDraw: Draw)
    requires !p.isSpinning && |p.games| > 0 && p.pending == [] && |draws| == TotalItems - 1
    modifies p
    ensures !p.isSpinning && p.pending == [] && p.games == old(p.games)
    ensures |p.items| == TotalItems && p.winner == Some(p.items[WinnerIndex])
    ensures p.winner.value in p.games
    ensures p.offset == TargetOffset(jitterDraw)
  {
    p.HandleSpin(u, draws);
    p.FireStart(0, jitterDraw);
    p.FireEnd(0);
  }

  /** A second click inside the 100 ms before the first animation starts is not refused,
      since `isSpinning` is still false: both spins run, the first end timer announces the
      first winner, and the strip on screen is the second one. */
  method ClickTwiceBeforeStart(p: Picker, u1: Draw, u2: Draw, draws1: seq<Draw>, draws2: seq<Draw>,
                               jitter1: Draw, jitter2: Draw)
    requires !p.isSpinning && |p.games| > 0 && p.pending == []
    requires |draws1| == TotalItems - 1 && |draws2| == TotalItems - 1
    modifies p
    ensures p.games == old(p.games)
    ensures p.items == Strip(p.games, Pick(p.games, u2), draws2)
    ensures p.winner == Some(Pick(p.games, u1))
    ensures p.pending == [EndAnimation(Pick(p.games, u2))]
  {
    p.HandleSpin(u1, draws1);
    p.HandleSpin(u2, draws2);
    p.FireStart(0, jitter1);
    p.FireStart(0, jitter2);
    p.FireEnd(0);
  }
}
