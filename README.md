# Towers of Hanoi demo — a verified model

This project models the Towers of Hanoi engine of the browser demo in
`hanoi.js`: the recursive move generator `hanoi(n, from, to, aux)`, the
board `pegs` (three arrays used as stacks, top at the end), the timer tick
`animateHanoi` that consumes the move queue from the front, the reset
`initializeHanoi`, and the button's click handler with its `isAnimating`
guard and its "Reset" label check.

Modules, one per component of the file:

- `Board` (board.dfy): moves, the three pegs, the tick's pop/push as the
  function `Step`, and `Replay`, which plays a queue front to back and
  yields `None` at the first move that would pop an empty peg, put a disk
  on a smaller one, run from a peg to itself, or name a peg off the board.
  Lemmas: the reset tower `[n, ..., 1]`, conservation and stacking kept by
  every legal move.
- `Solver` (solver.dfy): `HanoiMoves`, the pure specification of the
  generator, with its length `2^n - 1`, the shape of its moves, and the
  correctness theorem `SolveMoves` (replaying it is legal throughout and
  carries the tower from `from` to `to`).
- `Playback` (playback.dfy): class `HanoiDemo` with the source's state as
  fields (`pegs`, `moves`, `isAnimating`, the button label, whether the
  interval timer is live, the steps log), its invariant `Valid()`, and the
  methods `Initialize`, `Generate` (the recursive generator appending to
  `moves`, proved to append exactly `HanoiMoves`), `Tick` and `Click`.
- `ThreeDisks` (three_disks.dfy): the demo as shipped (3 disks): the exact
  seven-move queue, the board after every tick, and a client `Session` that
  drives one start, seven ticks, the closing tick, a re-entrant click, the
  reset click and a new start through the class's contracts.

The invariant `Valid()` is the heart of the controller: every peg is
strictly decreasing from bottom to top, the board holds the disks of
`[n, ..., 1]` exactly once each, the timer is live exactly while animating,
the label matches the phase, and while animating the rest of the queue
replays legally from the current board to the solved board, with
`|log| + |moves| == 2^n - 1`. The constructor, `Initialize`, `Tick` and
`Click` keep it; `Generate` is the inner step `Click` runs between the reset
and setting the flags, and on its own it does not promise the invariant.
So no tick ever pops an empty peg, and a finished run ("Reset" on the
button) always shows the solved board and a log of exactly `2^n - 1` lines.

Two behaviours of the code worth noting: the reset writes a placeholder
line into the steps panel (hanoi.js:46), and only a start empties it
(hanoi.js:173); and with zero disks a start queues nothing, but the run
still needs one empty tick to reach "Reset" (hanoi.js:130-135, 175).

## Model

| member | source | states |
|---|---|---|
| `Board.DescAt` | hanoi.js:45 | the reset tower has length n and holds `n - i` at index i, as `Array.from({length: numDisks}, (_, i) => numDisks - i)` builds it |
| `Board.DescCount` | hanoi.js:45 | the reset tower holds each disk 1..n exactly once and nothing else |
| `Board.InitialStacked` | hanoi.js:45 | the reset board and the solved board are stacked (every peg strictly decreasing) and hold exactly the disks of the tower |
| `Board.StepMovesTopDisk` | hanoi.js:138-140 | a legal move runs between two different pegs, removes exactly the top disk of `from`, appends exactly that disk to `to`, and leaves the third peg unchanged |
| `Board.StepConserves` | hanoi.js:139-140 | the pop/push leaves the multiset of all disks on the board unchanged |
| `Board.StepKeepsStacked` | hanoi.js:139-140 | a legal move keeps every peg strictly decreasing from bottom to top |
| `Board.ReplayAppend` | hanoi.js:138 | consuming a queue from the front: replaying `a + b` is replaying `a` and then `b` from the board `a` left, and fails if either part fails |
| `Board.ReplayKeepsInvariants` | hanoi.js:138-140 | along a legal replay every intermediate board is stacked and holds the same disks as the first |
| `Solver.MovesLength` | hanoi.js:121-127 | `hanoi(n, …)` produces exactly `2^n - 1` moves (none for n = 0) |
| `Solver.MovesWellFormed` | hanoi.js:121-127 | with three distinct pegs among {0,1,2}, every generated move has `from != to` and both ends among the three pegs given |
| `Solver.SolveNoDisks` | hanoi.js:122 | with n = 0 nothing is generated and the board stays as it is |
| `Solver.ClearSmaller` | hanoi.js:123 | the first recursive call legally moves the n-1 smaller disks from `from` to `aux`, uncovering disk n |
| `Solver.MoveLargest` | hanoi.js:124 | the middle move `{from, to}` is legal and puts disk n on `to`, the third peg untouched |
| `Solver.RestackSmaller` | hanoi.js:125 | the second recursive call legally moves the n-1 smaller disks from `aux` onto disk n |
| `Solver.ReplayThreeParts` | hanoi.js:122-126 | the queue for n disks replays as its three parts in order: first call, middle move, second call |
| `Solver.SolveTower` | hanoi.js:121-127 | the recursive case of the correctness theorem, assembled from the three parts |
| `Solver.SolveMoves` | hanoi.js:121-127 | when the top n disks of `from` form the tower and every other top is larger, replaying the generated moves never pops an empty peg, never puts a disk on a smaller one, and ends with the tower moved onto `to`, the other two pegs as they were below it |
| `Solver.ReplayFromInitialKeepsInvariants` | hanoi.js:138-140 | every board along the replay of `hanoi(n, 0, 2, 1)` from the reset board is reached legally, is strictly decreasing peg by peg, and holds the disks of `[n, ..., 1]` exactly |
| `Solver.SolvesFromInitial` | hanoi.js:121-127 | replaying `hanoi(n, 0, 2, 1)` from the reset board is legal throughout and ends with pegs 0 and 1 empty and peg 2 holding `[n, ..., 1]` |
| `Playback.DigitChar` | hanoi.js:144 | a digit 0..9 renders as the one decimal character that denotes it |
| `Playback.NatText` | hanoi.js:144 | the disk number in a log line renders as its decimal numeral: a non-empty string of digits whose value (`DigitsValue`, most significant digit first) is the number itself, with no leading zero |
| `Playback.HanoiDemo.constructor` | hanoi.js:181-184 | page start-up runs the reset once: the invariant holds and the demo is at rest |
| `Playback.HanoiDemo.Initialize` | hanoi.js:37-48 | from any state: timer stopped, `isAnimating` false, label "Animate (3 Disks)", empty queue, every disk on peg 0 largest at the bottom, placeholder log; calling it on a state it produced changes nothing (idempotent) |
| `Playback.HanoiDemo.Generate` | hanoi.js:121-127 | the recursive `hanoi` appends exactly `HanoiMoves(n, from, to, aux)` to the queue and leaves the earlier entries untouched |
| `Playback.HanoiDemo.Tick` | hanoi.js:129-149 | empty queue: board and log unchanged, `isAnimating` false, label "Reset", timer stopped; otherwise the front move is legal, exactly it is removed, exactly one disk (the top of `from`) moves onto `to`, the third peg and the multiset of disks are unchanged, one log line naming that disk and both peg names is appended; the invariant is kept |
| `Playback.HanoiDemo.Click` | hanoi.js:151-176 | while animating: nothing changes; with label "Reset": only the reset, no moves; otherwise: reset, queue exactly `hanoi(numDisks, 0, 2, 1)` (`2^numDisks - 1` moves), empty log, `isAnimating` true, label "Animating...", timer started; the invariant is kept |
| `ThreeDisks.TowerOfThree` | hanoi.js:25-45 | with 3 disks the reset board is `[[3,2,1],[],[]]` and the solved board `[[],[],[3,2,1]]` |
| `ThreeDisks.ThreeDiskMoves` | hanoi.js:166 | `hanoi(3, 0, 2, 1)` queues `[(0,2),(0,1),(2,1),(0,2),(1,0),(1,2),(0,2)]` |
| `ThreeDisks.StepTo` | hanoi.js:139-140 | a move's resulting board, determined peg by peg |
| `ThreeDisks.ThreeDiskBoards` | hanoi.js:138-140 | the boards after each of the seven ticks, from `[[3,2,1],[],[]]` to `[[],[],[3,2,1]]` |
| `ThreeDisks.FirstLogLine` | hanoi.js:144-147 | the first tick logs "Move Disk 1 from Source (A) to Destination (C)" followed by `<br>` |
| `ThreeDisks.PlayAll` | hanoi.js:129-149 | seven ticks of a fresh three-disk run leave the puzzle solved, the queue empty, the timer live and seven log lines (the boards in between are stated by `ThreeDiskBoards` and checked in its body) |

## Left out

- Canvas drawing (`drawHanoi`, `drawDisk`, `resizeHanoiCanvas`, the resize listener): floating-point presentation, no effect on the state.
- DOM lookups, the missing-element early return, debug logging, `scrollTop`, and the status text: I/O with no effect on the modelled state.
- `hanoiBtn.disabled`: every assignment sets it to the value `isAnimating` gets, so it is not a separate field.
- The interval's timing (`setInterval(animateHanoi, 1500)`, the 50 ms start-up delay): the timer is the field `timerActive`, and the caller invokes `Tick` while it is live, as the interval would; a click arriving during the 50 ms before start-up is not modelled.
- The steps panel is the sequence of strings whose concatenation is its HTML; HTML parsing is not modelled.
- `numDisks` is a constructor parameter; the source fixes it at 3 (hanoi.js:25), which `ThreeDisks` uses. The label text "Animate (3 Disks)" is kept literally, as in the source.
- `Playback.HanoiDemo.Tick`: JavaScript's `pop()` of an empty array yielding `undefined` is not modelled; the invariant proves that the tick never meets an empty `from` peg.
- `Board.CanMove`: a move from a peg to itself is refused, although the tick's pop then push would put the disk back; the generator never produces one (`Solver.MovesWellFormed`), so no run of the demo meets it.
- Minimality of the generated solution (no shorter legal sequence exists) is not proved.
- saveload.js, anim.js and codeviewer.js: browser image I/O, a canvas animation and a static text viewer, independent of the engine.
