/** The demo as it ships, with three disks: the exact queue, the board after
    each of its seven moves, and one full session driven through the
    controller. */
module ThreeDisks {
  import opened Board
  import opened Solver
  import opened Playback

  const DISKS: nat := 3

  /** The queue built by `hanoi(3, 0, 2, 1)`. */
  lemma ThreeDiskMoves()
    ensures HanoiMoves(DISKS, 0, 2, 1) ==
      [Move(0, 2), Move(0, 1), Move(2, 1), Move(0, 2), Move(1, 0), Move(1, 2), Move(0, 2)]
  {
  }

  lemma TowerOfThree()
    ensures Desc(DISKS) == [3, 2, 1]
    ensures Initial(DISKS) == [[3, 2, 1], [], []] && Solved(DISKS) == [[], [], [3, 2, 1]]
  {
    assert Desc(1) == [1];
    assert Desc(2) == [2, 1];
  }

  /** A move's result, checked peg by peg. */
  lemma StepTo(pegs: Pegs, m: Move, want: Pegs)
    requires CanMove(pegs, m)
    requires want[m.from] == Pop(pegs[m.from])
    requires want[m.to] == pegs[m.to] + [Top(pegs[m.from])]
    requires forall k :: 0 <= k < 3 && k != m.from && k != m.to ==> want[k] == pegs[k]
    ensures Step(pegs, m) == want
  {
    forall k | 0 <= k < 3 ensures Step(pegs, m)[k] == want[k] {
      StepMovesTopDisk(pegs, m, k);
    }
  }

  /** The board after each tick of the three-disk run, ending solved. */
  lemma ThreeDiskBoards()
    ensures Step(Initial(DISKS), Move(0, 2)) == [[3, 2], [], [1]]
    ensures Step([[3, 2], [], [1]], Move(0, 1)) == [[3], [2], [1]]
    ensures Step([[3], [2], [1]], Move(2, 1)) == [[3], [2, 1], []]
    ensures Step([[3], [2, 1], []], Move(0, 2)) == [[], [2, 1], [3]]
    ensures Step([[], [2, 1], [3]], Move(1, 0)) == [[1], [2], [3]]
    ensures Step([[1], [2], [3]], Move(1, 2)) == [[1], [], [3, 2]]
    ensures Step([[1], [], [3, 2]], Move(0, 2)) == Solved(DISKS)
  {
    TowerOfThree();
    assert Step([[3, 2, 1], [], []], Move(0, 2)) == [[3, 2], [], [1]] by {
      assert Pop([3, 2, 1]) == [3, 2];
      StepTo([[3, 2, 1], [], []], Move(0, 2), [[3, 2], [], [1]]);
    }
    assert Step([[3, 2], [], [1]], Move(0, 1)) == [[3], [2], [1]] by {
      assert Pop([3, 2]) == [3];
      StepTo([[3, 2], [], [1]], Move(0, 1), [[3], [2], [1]]);
    }
    assert Step([[3], [2], [1]], Move(2, 1)) == [[3], [2, 1], []] by {
      assert Pop([1]) == [];
      StepTo([[3], [2], [1]], Move(2, 1), [[3], [2, 1], []]);
    }
    assert Step([[3], [2, 1], []], Move(0, 2)) == [[], [2, 1], [3]] by {
      assert Pop([3]) == [];
      StepTo([[3], [2, 1], []], Move(0, 2), [[], [2, 1], [3]]);
    }
    assert Step([[], [2, 1], [3]], Move(1, 0)) == [[1], [2], [3]] by {
      assert Pop([2, 1]) == [2];
      StepTo([[], [2, 1], [3]], Move(1, 0), [[1], [2], [3]]);
    }
    assert Step([[1], [2], [3]], Move(1, 2)) == [[1], [], [3, 2]] by {
      assert Pop([2]) == [];
      StepTo([[1], [2], [3]], Move(1, 2), [[1], [], [3, 2]]);
    }
    assert Step([[1], [], [3, 2]], Move(0, 2)) == [[], [], [3, 2, 1]] by {
      assert Pop([1]) == [];
      StepTo([[1], [], [3, 2]], Move(0, 2), [[], [], [3, 2, 1]]);
    }
  }

  /** The log line of the first tick. */
  lemma FirstLogLine()
    ensures StepText(1, Move(0, 2)) == "Move Disk 1 from Source (A) to Destination (C)<br>"
  {
    assert IntText(1) == "1";
  }

  /** The seven ticks of a three-disk run, board by board. */
  method PlayAll(demo: HanoiDemo)
    requires demo.Valid() && demo.numDisks == DISKS && demo.timerActive
    requires demo.pegs == Initial(DISKS) && demo.log == []
    requires demo.moves == HanoiMoves(DISKS, 0, 2, 1)
    modifies demo
    ensures demo.Valid() && demo.timerActive && demo.isAnimating
    ensures demo.pegs == Solved(DISKS) && demo.moves == [] && |demo.log| == 7
  {
    ThreeDiskMoves();
    ThreeDiskBoards();
    demo.Tick();
    assert demo.pegs == [[3, 2], [], [1]];
    assert demo.log == [StepText(1, Move(0, 2))];
    demo.Tick();
    assert demo.pegs == [[3], [2], [1]];
    demo.Tick();
    assert demo.pegs == [[3], [2, 1], []];
    demo.Tick();
    assert demo.pegs == [[], [2, 1], [3]];
    demo.Tick();
    assert demo.pegs == [[1], [2], [3]];
    demo.Tick();
    assert demo.pegs == [[1], [], [3, 2]];
    demo.Tick();
  }

  /** A whole session: start, a click that is ignored while animating, seven
      ticks, the closing tick, the reset click, and a new start. */
  method Session()
  {
    TowerOfThree();
    var demo := new HanoiDemo(DISKS);
    assert demo.pegs == [[3, 2, 1], [], []];
    demo.Click();
    assert demo.isAnimating && demo.log == [] && |demo.moves| == 7 by {
      ThreeDiskMoves();
    }

    demo.Click();  // ignored while animating
    PlayAll(demo);
    assert demo.pegs == [[], [], [3, 2, 1]];

    demo.Tick();  // the queue is empty: the run ends
    assert !demo.isAnimating && !demo.timerActive && LabelText(demo.button) == "Reset";
    assert demo.pegs == [[], [], [3, 2, 1]] && |demo.log| == 7;

    demo.Click();  // "Reset": only reinitializes
    assert demo.pegs == [[3, 2, 1], [], []] && demo.moves == [] && !demo.isAnimating;

    demo.Click();  // a new run
    assert demo.isAnimating && |demo.moves| == 7 by {
      ThreeDiskMoves();
    }
  }
}
