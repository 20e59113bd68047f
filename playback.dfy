/** The playback controller of the Towers of Hanoi demo: the board, the move
    queue, the animation flag, the button's label and the step log, with the
    reset, the generator, the timer tick and the button's click handler.
    The timer is not modelled as a clock: whoever drives the model calls
    `Tick` while the interval is live, as `setInterval` would. */
module Playback {
  import opened Board
  import opened Solver

  /** The three texts the button ever shows. */
  datatype ButtonLabel = AnimateLabel | AnimatingLabel | ResetLabel

  function LabelText(b: ButtonLabel): (text: string)
  {
    match b
    case AnimateLabel => "Animate (3 Disks)"
    case AnimatingLabel => "Animating..."
    case ResetLabel => "Reset"
  }

  const PEG_NAMES: seq<string> := ["Source (A)", "Auxiliary (B)", "Destination (C)"]

  /** What the steps panel shows right after a reset. */
  const PLACEHOLDER: string := "Click \"Animate\" to start the simulation."

  predicate IsDigit(c: char)
  {
    '0' <= c <= '9'
  }

  function DigitChar(d: nat): (c: char)
    requires d < 10
    ensures IsDigit(c) && c as int - '0' as int == d
  {
    (d + '0' as int) as char
  }

  /** The number a string of decimal digits denotes, most significant first:
      the last digit plus ten times the value of the rest. */
  ghost function DigitsValue(s: string): nat
    requires forall i :: 0 <= i < |s| ==> IsDigit(s[i])
  {
    if s == [] then 0
    else
      assert IsDigit(s[|s| - 1]);
      10 * DigitsValue(s[..|s| - 1]) + (s[|s| - 1] as int - '0' as int)
  }

  /** Decimal text of a number, as a template literal renders it. */
  function NatText(n: nat): (r: string)
    ensures r != [] && forall i :: 0 <= i < |r| ==> IsDigit(r[i])
    ensures DigitsValue(r) == n
    ensures n >= 10 ==> r[0] != '0'
    decreases n
  {
    if n < 10 then
      var r := [DigitChar(n)];
      assert r[..0] == [];
      r
    else
      var front := NatText(n / 10);
      var r := front + [DigitChar(n % 10)];
      assert r[..|r| - 1] == front;
      r
  }

  function IntText(i: int): (text: string)
  {
    if i < 0 then "-" + NatText(-i) else NatText(i)
  }

  /** The log line a tick appends for moving `disk` along `m`. */
  function StepText(disk: int, m: Move): (line: string)
    requires m.from < 3 && m.to < 3
  {
    "Move Disk " + IntText(disk) + " from " + PEG_NAMES[m.from] + " to " + PEG_NAMES[m.to] + "<br>"
  }

  class HanoiDemo {
    const numDisks: nat
    var pegs: Pegs
    /** The move queue; its front is the next move to play. */
    var moves: seq<Move>
    var isAnimating: bool
    var button: ButtonLabel
    /** Whether the `setInterval` that calls the tick is live. */
    var timerActive: bool
    /** The steps panel; its HTML is the concatenation of these entries. */
    var log: seq<string>

    /** The controller's invariant: the board is legal and holds every disk
        once; the timer runs exactly while animating; the button shows the
        label of the current phase; and while animating, what is left of the
        queue plays legally from the current board to the solved board. */
    ghost predicate Valid()
      reads this
    {
      Stacked(pegs) &&
      AllDisks(pegs) == multiset(Desc(numDisks)) &&
      (timerActive <==> isAnimating) &&
      (isAnimating <==> button == AnimatingLabel) &&
      (button == AnimateLabel ==> pegs == Initial(numDisks) && moves == []) &&
      (button == ResetLabel ==> pegs == Solved(numDisks) && moves == [] && |log| == Pow2(numDisks) - 1) &&
      (isAnimating ==>
        Replay(pegs, moves) == Some(Solved(numDisks)) &&
        |log| + |moves| == Pow2(numDisks) - 1)
    }

    /** The state `initializeHanoi` leaves behind. */
    ghost predicate AtRest()
      reads this
    {
      pegs == Initial(numDisks) && moves == [] && !isAnimating &&
      button == AnimateLabel && !timerActive && log == [PLACEHOLDER]
    }

    /** Page start-up, which runs the reset once. */
    constructor (n: nat)
      ensures numDisks == n && Valid() && AtRest()
    {
      numDisks := n;
      new;
      Initialize();
    }

    /** `initializeHanoi`: stop the timer, put every disk back on peg 0,
        empty the queue. Calling it again changes nothing. */
    method Initialize()
      modifies this
      ensures Valid() && AtRest()
      ensures old(AtRest()) ==> unchanged(this)
    {
      timerActive := false;
      isAnimating := false;
      button := AnimateLabel;
      moves := [];
      pegs := Initial(numDisks);
      log := [PLACEHOLDER];
      InitialStacked(numDisks);
    }

    /** `hanoi(n, from, to, aux)`: appends the moves for n disks to the
        queue, leaving the moves already there untouched. It is the inner
        step `Click` runs between the reset and setting the flags, so on its
        own it promises nothing about `Valid()`. */
    method Generate(n: nat, from: nat, to: nat, aux: nat)
      modifies this`moves
      ensures moves == old(moves) + HanoiMoves(n, from, to, aux)
      decreases n
    {
      if n > 0 {
        Generate(n - 1, from, aux, to);
        moves := moves + [Move(from, to)];
        Generate(n - 1, aux, to, from);
      }
    }

    /** `animateHanoi`: with an empty queue, stop and offer "Reset"; otherwise
        play the front move, moving one disk, and log it. */
    method Tick()
      requires Valid() && timerActive
      modifies this
      ensures Valid()
      ensures old(moves) == [] ==>
        pegs == old(pegs) && moves == [] && log == old(log) &&
        !isAnimating && button == ResetLabel && !timerActive
      ensures old(moves) != [] ==>
        CanMove(old(pegs), old(moves)[0]) &&
        pegs == Step(old(pegs), old(moves)[0]) &&
        moves == old(moves)[1..] &&
        log == old(log) + [StepText(Top(old(pegs)[old(moves)[0].from]), old(moves)[0])] &&
        isAnimating && button == AnimatingLabel && timerActive
    ensures old(moves) != [] ==>
      var m := old(moves)[0];
      m.from != m.to &&
      pegs[m.from] == Pop(old(pegs)[m.from]) &&
      pegs[m.to] == old(pegs)[m.to] + [Top(old(pegs)[m.from])] &&
      (forall k :: 0 <= k < 3 && k != m.from && k != m.to ==> pegs[k] == old(pegs)[k]) &&
      AllDisks(pegs) == AllDisks(old(pegs))
    {
      if moves == [] {
        isAnimating := false;
        button := ResetLabel;
        timerActive := false;
        return;
      }
      var move := moves[0];
      moves := moves[1..];
      var disk := Top(pegs[move.from]);
      forall k | 0 <= k < 3 {
        StepMovesTopDisk(pegs, move, k);
      }
      StepKeepsStacked(pegs, move);
      StepConserves(pegs, move);
      pegs := Step(pegs, move);
      log := log + [StepText(disk, move)];
    }

    /** The button's click handler. While animating it does nothing; after a
        finished run ("Reset" on the button) it only resets; otherwise it
        resets, queues the 2^n - 1 moves of `hanoi(numDisks, 0, 2, 1)`,
        clears the log and starts the timer. */
    method Click()
      requires Valid()
      modifies this
      ensures Valid()
      ensures old(isAnimating) ==> unchanged(this)
      ensures !old(isAnimating) && old(button) == ResetLabel ==> AtRest()
      ensures !old(isAnimating) && old(button) != ResetLabel ==>
        pegs == Initial(numDisks) &&
        moves == HanoiMoves(numDisks, 0, 2, 1) &&
        |moves| == Pow2(numDisks) - 1 &&
        log == [] && isAnimating && button == AnimatingLabel && timerActive
    {
      if isAnimating {
        return;
      }
      if LabelText(button) == "Reset" {
        Initialize();
        return;
      }
      Initialize();
      Generate(numDisks, 0, 2, 1);
      assert moves == HanoiMoves(numDisks, 0, 2, 1);
      isAnimating := true;
      button := AnimatingLabel;
      log := [];
      timerActive := true;
      SolvesFromInitial(numDisks);
      MovesLength(numDisks, 0, 2, 1);
    }
  }
}
