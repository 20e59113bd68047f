/** The move generator: the classic three-peg recursion, as a specification
    function, and what is proved about the queue it produces. */
module Solver {
  import opened Board

  function Pow2(n: nat): (p: nat)
  {
    if n == 0 then 1 else 2 * Pow2(n - 1)
  }

  /** The moves that transfer the top n disks of `from` to `to` using `aux`
      as the spare: n-1 of them out of the way onto `aux`, the largest onto
      `to`, then the n-1 back on top of it. */
  function HanoiMoves(n: nat, from: nat, to: nat, aux: nat): (ms: seq<Move>)
  {
    if n == 0 then []
    else HanoiMoves(n - 1, from, aux, to) + [Move(from, to)] + HanoiMoves(n - 1, aux, to, from)
  }

  predicate Distinct3(a: nat, b: nat, c: nat)
  {
    a < 3 && b < 3 && c < 3 && a != b && b != c && a != c
  }

  /** A peg can receive any disk up to size n: it is empty, or its top is larger. */
  predicate CanHold(peg: seq<int>, n: nat)
  {
    peg == [] || Top(peg) > n
  }

  /** The generator emits exactly 2^n - 1 moves. */
  lemma {:induction false} MovesLength(n: nat, from: nat, to: nat, aux: nat)
    ensures Pow2(n) >= 1
    ensures |HanoiMoves(n, from, to, aux)| == Pow2(n) - 1
  {
    if n > 0 {
      MovesLength(n - 1, from, aux, to);
      MovesLength(n - 1, aux, to, from);
    }
  }

  /** Every move runs between two different pegs among the three it was given. */
  lemma {:induction false} MovesWellFormed(n: nat, from: nat, to: nat, aux: nat)
    requires Distinct3(from, to, aux)
    ensures forall i :: 0 <= i < |HanoiMoves(n, from, to, aux)| ==>
      var m := HanoiMoves(n, from, to, aux)[i];
      m.from != m.to && m.from in {from, to, aux} && m.to in {from, to, aux}
  {
    if n > 0 {
      MovesWellFormed(n - 1, from, aux, to);
      MovesWellFormed(n - 1, aux, to, from);
      var left := HanoiMoves(n - 1, from, aux, to);
      var ms := HanoiMoves(n, from, to, aux);
      forall i | 0 <= i < |ms|
        ensures ms[i].from != ms[i].to && ms[i].from in {from, to, aux} && ms[i].to in {from, to, aux}
      {
        if i < |left| {
          assert ms[i] == left[i];
        } else if i > |left| {
          assert ms[i] == HanoiMoves(n - 1, aux, to, from)[i - |left| - 1];
        }
      }
    }
  }

  /** Two boards are equal when their three pegs are. */
  lemma SameBoard(p: Pegs, q: Pegs)
    requires p[0] == q[0] && p[1] == q[1] && p[2] == q[2]
    ensures p == q
  {
  }

  /** Under a tower of n disks lies the tower of n-1 disks with disk n under it. */
  lemma TowerTop(peg: seq<int>, n: nat)
    requires 0 < n <= |peg| && peg[|peg| - n..] == Desc(n)
    ensures peg[..|peg| - (n - 1)] == peg[..|peg| - n] + [n]
    ensures peg[|peg| - (n - 1)..] == Desc(n - 1)
  {
    var len := |peg|;
    assert peg[len - n..] == [n] + Desc(n - 1);
    assert peg[len - n] == n;
    assert peg[..len - (n - 1)] == peg[..len - n] + [peg[len - n]];
  }

  /** The middle move of the recursion: disk n goes from `from` to `to`. */
  lemma MoveLargest(p1: Pegs, from: nat, to: nat, aux: nat, rest: seq<int>, n: nat)
    requires Distinct3(from, to, aux)
    requires p1[from] == rest + [n] && CanHold(p1[to], n)
    ensures CanMove(p1, Move(from, to))
    ensures var p2 := Step(p1, Move(from, to));
      p2[from] == rest && p2[to] == p1[to] + [n] && p2[aux] == p1[aux]
  {
    assert Pop(p1[from]) == rest;
  }

  /** The generated queue for n disks replays as its three parts in turn. */
  lemma ReplayThreeParts(pegs: Pegs, n: nat, from: nat, to: nat, aux: nat, p1: Pegs, p3: Pegs)
    requires n > 0
    requires Replay(pegs, HanoiMoves(n - 1, from, aux, to)) == Some(p1)
    requires CanMove(p1, Move(from, to))
    requires Replay(Step(p1, Move(from, to)), HanoiMoves(n - 1, aux, to, from)) == Some(p3)
    ensures Replay(pegs, HanoiMoves(n, from, to, aux)) == Some(p3)
  {
    var first := HanoiMoves(n - 1, from, aux, to);
    var m := Move(from, to);
    var second := HanoiMoves(n - 1, aux, to, from);
    assert ([m] + second)[0] == m && ([m] + second)[1..] == second;
    assert Replay(p1, [m] + second) == Some(p3);
    ReplayAppend(pegs, first, [m] + second);
    assert HanoiMoves(n, from, to, aux) == first + ([m] + second);
  }

  /** A tower of n disks sitting on top of `peg`. */
  lemma TowerOnTop(peg: seq<int>, n: nat)
    ensures |peg + Desc(n)| >= n
    ensures (peg + Desc(n))[..|peg + Desc(n)| - n] == peg
    ensures (peg + Desc(n))[|peg + Desc(n)| - n..] == Desc(n)
  {
    DescAt(n);
    assert (peg + Desc(n))[..|peg|] == peg;
    assert (peg + Desc(n))[|peg|..] == Desc(n);
  }

  /** The top n disks of `from` form the tower `[n, ..., 1]`, and the disk
      under it and the tops of the other two pegs are all larger than n. */
  predicate TowerReady(pegs: Pegs, n: nat, from: nat, to: nat, aux: nat)
  {
    Distinct3(from, to, aux) &&
    |pegs[from]| >= n &&
    pegs[from][|pegs[from]| - n..] == Desc(n) &&
    CanHold(pegs[from][..|pegs[from]| - n], n) &&
    CanHold(pegs[to], n) && CanHold(pegs[aux], n)
  }

  /** Before the first recursive call: the n-1 smaller disks are ready to go to aux. */
  lemma FirstReady(pegs: Pegs, n: nat, from: nat, to: nat, aux: nat)
    requires n > 0 && TowerReady(pegs, n, from, to, aux)
    ensures TowerReady(pegs, n - 1, from, aux, to)
    ensures pegs[from][..|pegs[from]| - (n - 1)] == pegs[from][..|pegs[from]| - n] + [n]
  {
    TowerTop(pegs[from], n);
  }

  /** Before the second recursive call: the n-1 smaller disks, now on aux,
      are ready to go onto disk n. */
  lemma SecondReady(pegs: Pegs, p2: Pegs, n: nat, from: nat, to: nat, aux: nat)
    requires n > 0 && TowerReady(pegs, n, from, to, aux)
    requires p2[from] == pegs[from][..|pegs[from]| - n]
    requires p2[to] == pegs[to] + [n]
    requires p2[aux] == pegs[aux] + Desc(n - 1)
    ensures TowerReady(p2, n - 1, aux, to, from)
  {
    TowerOnTop(pegs[aux], n - 1);
  }

  /** With no disks to move the generator emits nothing and the board stays. */
  lemma SolveNoDisks(pegs: Pegs, from: nat, to: nat, aux: nat)
    requires from < 3 && to < 3
    ensures Replay(pegs, HanoiMoves(0, from, to, aux)) == Some(pegs)
    ensures pegs[from][..|pegs[from]| - 0] == pegs[from] && pegs[to] + Desc(0) == pegs[to]
  {
    assert pegs[to] + [] == pegs[to];
  }

  /** The heart of the puzzle: from a board where the tower of n disks is
      ready on `from`, replaying the generated moves is legal throughout and
      ends with that tower lifted off `from` and set on top of `to`, the
      third peg as it was. */
  lemma {:induction false} SolveMoves(n: nat, from: nat, to: nat, aux: nat, pegs: Pegs)
    requires TowerReady(pegs, n, from, to, aux)
    ensures Replay(pegs, HanoiMoves(n, from, to, aux)).Some?
    ensures var q := Replay(pegs, HanoiMoves(n, from, to, aux)).value;
      q[from] == pegs[from][..|pegs[from]| - n] && q[to] == pegs[to] + Desc(n) && q[aux] == pegs[aux]
    decreases n, 2
  {
    if n == 0 {
      SolveNoDisks(pegs, from, to, aux);
    } else {
      SolveTower(n, from, to, aux, pegs);
    }
  }

  /** The recursive case of SolveMoves: the three parts of the queue in turn. */
  lemma {:induction false} SolveTower(n: nat, from: nat, to: nat, aux: nat, pegs: Pegs)
    requires n > 0 && TowerReady(pegs, n, from, to, aux)
    ensures Replay(pegs, HanoiMoves(n, from, to, aux)).Some?
    ensures var q := Replay(pegs, HanoiMoves(n, from, to, aux)).value;
      q[from] == pegs[from][..|pegs[from]| - n] && q[to] == pegs[to] + Desc(n) && q[aux] == pegs[aux]
    decreases n, 1
  {
    var rest := pegs[from][..|pegs[from]| - n];
    ClearSmaller(n, from, to, aux, pegs);
    var p1 := Replay(pegs, HanoiMoves(n - 1, from, aux, to)).value;
    MoveLargest(p1, from, to, aux, rest, n);
    var p2 := Step(p1, Move(from, to));
    RestackSmaller(n, from, to, aux, pegs, p2);
    ReplayThreeParts(pegs, n, from, to, aux, p1, Replay(p2, HanoiMoves(n - 1, aux, to, from)).value);
  }

  /** First part: the n-1 smaller disks go from `from` to `aux`. */
  lemma {:induction false} ClearSmaller(n: nat, from: nat, to: nat, aux: nat, pegs: Pegs)
    requires n > 0 && TowerReady(pegs, n, from, to, aux)
    ensures var r := Replay(pegs, HanoiMoves(n - 1, from, aux, to));
      r.Some? &&
      r.value[from] == pegs[from][..|pegs[from]| - n] + [n] &&
      r.value[to] == pegs[to] &&
      r.value[aux] == pegs[aux] + Desc(n - 1)
    decreases n, 0
  {
    FirstReady(pegs, n, from, to, aux);
    SolveMoves(n - 1, from, aux, to, pegs);
  }

  /** Third part: the n-1 smaller disks go from `aux` onto disk n on `to`. */
  lemma {:induction false} RestackSmaller(n: nat, from: nat, to: nat, aux: nat, pegs: Pegs, p2: Pegs)
    requires n > 0 && TowerReady(pegs, n, from, to, aux)
    requires p2[from] == pegs[from][..|pegs[from]| - n]
    requires p2[to] == pegs[to] + [n]
    requires p2[aux] == pegs[aux] + Desc(n - 1)
    ensures var r := Replay(p2, HanoiMoves(n - 1, aux, to, from));
      r.Some? &&
      r.value[from] == pegs[from][..|pegs[from]| - n] &&
      r.value[to] == pegs[to] + Desc(n) &&
      r.value[aux] == pegs[aux]
    decreases n, 0
  {
    SecondReady(pegs, p2, n, from, to, aux);
    SolveMoves(n - 1, aux, to, from, p2);
    TowerOnTop(pegs[aux], n - 1);
    assert pegs[to] + [n] + Desc(n - 1) == pegs[to] + Desc(n);
  }

  /** Replaying `hanoi(n, 0, 2, 1)` from the reset board never pops an empty
      peg, never puts a disk on a smaller one, and ends with every disk on peg 2. */
  lemma SolvesFromInitial(n: nat)
    ensures Replay(Initial(n), HanoiMoves(n, 0, 2, 1)) == Some(Solved(n))
  {
    var pegs := Initial(n);
    DescAt(n);
    assert pegs[0][|pegs[0]| - n..] == Desc(n);
    assert pegs[0][..|pegs[0]| - n] == [];
    SolveMoves(n, 0, 2, 1, pegs);
    assert [] + Desc(n) == Desc(n);
    SameBoard(Replay(pegs, HanoiMoves(n, 0, 2, 1)).value, Solved(n));
  }

  /** Every board along the replay of `hanoi(n, 0, 2, 1)` from the reset
      board is reached legally, is stacked, and holds the disks of `[n, ..., 1]`. */
  lemma ReplayFromInitialKeepsInvariants(n: nat, k: nat)
    requires k <= |HanoiMoves(n, 0, 2, 1)|
    ensures var b := Replay(Initial(n), HanoiMoves(n, 0, 2, 1)[..k]);
      b.Some? && Stacked(b.value) && AllDisks(b.value) == multiset(Desc(n))
  {
    SolvesFromInitial(n);
    InitialStacked(n);
    ReplayKeepsInvariants(Initial(n), HanoiMoves(n, 0, 2, 1), k);
  }
}
