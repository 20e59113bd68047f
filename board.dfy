/** The board of the Towers of Hanoi demo: three pegs, each an array of disk
    sizes used as a stack whose top is its LAST element, and the one mutation
    the demo ever performs on it, "pop the top of one peg, push it on another". */
module Board {

  datatype Option<+T> = None | Some(value: T)

  /** A move record `{from, to}`: take the top disk of peg `from`, put it on peg `to`. */
  datatype Move = Move(from: nat, to: nat)

  /** The three pegs, each listed bottom first. */
  type Pegs = p: seq<seq<int>> | |p| == 3 witness [[], [], []]

  function Top(peg: seq<int>): (d: int)
    requires peg != []
  {
    peg[|peg| - 1]
  }

  function Pop(peg: seq<int>): (rest: seq<int>)
    requires peg != []
  {
    peg[..|peg| - 1]
  }

  /** `[n, n-1, ..., 1]`: the tower of n disks, largest at the bottom. */
  function Desc(n: nat): (tower: seq<int>)
  {
    if n == 0 then [] else [n] + Desc(n - 1)
  }

  /** The board after a reset: every disk on peg 0. */
  function Initial(n: nat): (board: Pegs)
  {
    [Desc(n), [], []]
  }

  /** The solved board: every disk on peg 2. */
  function Solved(n: nat): (board: Pegs)
  {
    [[], [], Desc(n)]
  }

  /** Reading from bottom to top, sizes strictly decrease. */
  predicate Decreasing(peg: seq<int>)
  {
    forall i, j :: 0 <= i < j < |peg| ==> peg[i] > peg[j]
  }

  predicate Stacked(pegs: Pegs)
  {
    Decreasing(pegs[0]) && Decreasing(pegs[1]) && Decreasing(pegs[2])
  }

  /** Every disk on the board, whichever peg it is on. */
  function AllDisks(pegs: Pegs): (disks: multiset<int>)
  {
    multiset(pegs[0]) + multiset(pegs[1]) + multiset(pegs[2])
  }

  /** A move is legal when both pegs exist, `from` has a disk, and that disk is
      smaller than the disk it would land on. */
  predicate CanMove(pegs: Pegs, m: Move)
  {
    m.from < 3 && m.to < 3 && pegs[m.from] != [] &&
    (pegs[m.to] == [] || Top(pegs[m.from]) < Top(pegs[m.to]))
  }

  /** One move as the tick performs it: `pegs[from].pop()`, then
      `pegs[to].push(disk)` on the board as the pop left it. */
  function Step(pegs: Pegs, m: Move): (next: Pegs)
    requires m.from < 3 && m.to < 3 && pegs[m.from] != []
  {
    var disk := Top(pegs[m.from]);
    var popped := pegs[m.from := Pop(pegs[m.from])];
    popped[m.to := popped[m.to] + [disk]]
  }

  /** Plays a move queue front to back; None as soon as a move is illegal
      (it would pop an empty peg, put a disk on a smaller one, run from a
      peg to itself, or name a peg off the board). */
  function Replay(pegs: Pegs, ms: seq<Move>): (last: Option<Pegs>)
    decreases |ms|
  {
    if ms == [] then Some(pegs)
    else if CanMove(pegs, ms[0]) then Replay(Step(pegs, ms[0]), ms[1..])
    else None
  }

  lemma {:induction false} DescAt(n: nat)
    ensures |Desc(n)| == n
    ensures forall i :: 0 <= i < n ==> Desc(n)[i] == n - i
  {
    if n > 0 {
      DescAt(n - 1);
      assert forall i :: 1 <= i < n ==> Desc(n)[i] == Desc(n - 1)[i - 1];
    }
  }

  /** The tower holds each disk 1..n exactly once and no other. */
  lemma {:induction false} DescCount(n: nat, x: int)
    ensures multiset(Desc(n))[x] == if 1 <= x <= n then 1 else 0
  {
    if n > 0 {
      DescCount(n - 1, x);
      assert multiset(Desc(n)) == multiset{n} + multiset(Desc(n - 1));
    }
  }

  lemma DescDecreasing(n: nat)
    ensures Decreasing(Desc(n))
  {
    DescAt(n);
  }

  lemma InitialStacked(n: nat)
    ensures Stacked(Initial(n)) && Stacked(Solved(n))
    ensures AllDisks(Initial(n)) == multiset(Desc(n)) == AllDisks(Solved(n))
  {
    DescDecreasing(n);
  }

  /** The tick moves exactly one disk, the top of `from`, onto `to`, and
      leaves the third peg alone. */
  lemma StepMovesTopDisk(pegs: Pegs, m: Move, k: nat)
    requires CanMove(pegs, m) && k < 3
    ensures m.from != m.to
    ensures Step(pegs, m)[m.from] == Pop(pegs[m.from])
    ensures Step(pegs, m)[m.to] == pegs[m.to] + [Top(pegs[m.from])]
    ensures k != m.from && k != m.to ==> Step(pegs, m)[k] == pegs[k]
  {
  }

  /** Replacing one peg swaps its disks for the new ones in the board's total. */
  lemma AllDisksUpdate(pegs: Pegs, i: nat, peg: seq<int>)
    requires i < 3
    ensures AllDisks(pegs[i := peg]) + multiset(pegs[i]) == AllDisks(pegs) + multiset(peg)
  {
    if i == 0 {
      assert pegs[i := peg] == [peg, pegs[1], pegs[2]];
    } else if i == 1 {
      assert pegs[i := peg] == [pegs[0], peg, pegs[2]];
    } else {
      assert pegs[i := peg] == [pegs[0], pegs[1], peg];
    }
  }

  /** A move does not create or destroy disks. */
  lemma StepConserves(pegs: Pegs, m: Move)
    requires m.from < 3 && m.to < 3 && pegs[m.from] != []
    ensures AllDisks(Step(pegs, m)) == AllDisks(pegs)
  {
    var p := pegs[m.from];
    assert p == Pop(p) + [Top(p)];
    assert multiset(p) == multiset(Pop(p)) + multiset{Top(p)};
    var popped := pegs[m.from := Pop(p)];
    AllDisksUpdate(pegs, m.from, Pop(p));
    AllDisksUpdate(popped, m.to, popped[m.to] + [Top(p)]);
  }

  /** A legal move keeps every peg strictly decreasing. */
  lemma StepKeepsStacked(pegs: Pegs, m: Move)
    requires Stacked(pegs) && CanMove(pegs, m)
    ensures Stacked(Step(pegs, m))
  {
    var s := Step(pegs, m);
    var d := Top(pegs[m.from]);
    assert Decreasing(Pop(pegs[m.from]));
    var t := pegs[m.to];
    assert Decreasing(t + [d]) by {
      var u := t + [d];
      forall i, j | 0 <= i < j < |u| ensures u[i] > u[j] {
        if j == |t| {
          assert u[i] >= Top(t);
        }
      }
    }
    forall k | 0 <= k < 3 ensures Decreasing(s[k]) {
      StepMovesTopDisk(pegs, m, k);
    }
  }

  /** Replaying `a + b` is replaying `a`, then `b` from where `a` left the board. */
  lemma {:induction false} ReplayAppend(pegs: Pegs, a: seq<Move>, b: seq<Move>)
    ensures Replay(pegs, a + b) ==
            match Replay(pegs, a)
            case None => None
            case Some(q) => Replay(q, b)
    decreases |a|
  {
    if a != [] {
      assert (a + b)[0] == a[0];
      assert (a + b)[1..] == a[1..] + b;
      if CanMove(pegs, a[0]) {
        ReplayAppend(Step(pegs, a[0]), a[1..], b);
      }
    } else {
      assert a + b == b;
    }
  }

  /** Along a legal replay, every intermediate board is still stacked and
      still holds the same disks. */
  lemma {:induction false} ReplayKeepsInvariants(pegs: Pegs, ms: seq<Move>, k: nat)
    requires Stacked(pegs) && Replay(pegs, ms).Some? && k <= |ms|
    ensures Replay(pegs, ms[..k]).Some?
    ensures Stacked(Replay(pegs, ms[..k]).value)
    ensures AllDisks(Replay(pegs, ms[..k]).value) == AllDisks(pegs)
    decreases k
  {
    if k > 0 {
      var next := Step(pegs, ms[0]);
      StepKeepsStacked(pegs, ms[0]);
      StepConserves(pegs, ms[0]);
      assert ms[..k][0] == ms[0];
      assert ms[..k][1..] == ms[1..][..k - 1];
      ReplayKeepsInvariants(next, ms[1..], k - 1);
    }
  }
}
