// The three fixed layouts of LevelManager (main.py) and the level/pig-count
// state machine that load_level and pig_destroyed drive.
module Levels {
  import opened Actors

  /** main.py's WIDTH; every layout is placed around the middle of the window. */
  const Width: real := 1800.0
  const Middle: real := Width / 2.0

  /** One add_pig, add_column or add_beam call of a layout. */
  datatype Placement = Placement(kind: Kind, x: real, y: real)

  /** Consecutive calls of the same adder, at the given (x, y) spots, in order. */
  function Row(kind: Kind, spots: seq<(real, real)>): (r: seq<Placement>)
    ensures |r| == |spots|
    ensures forall i :: 0 <= i < |r| ==> r[i] == Placement(kind, spots[i].0, spots[i].1)
  {
    if spots == [] then [] else [Placement(kind, spots[0].0, spots[0].1)] + Row(kind, spots[1..])
  }

  function Level1(): seq<Placement> {
    Row(Kind.Pig, [(Middle + 100.0, 100.0)])
    + Row(Kind.Column, [(Middle + 200.0, 50.0)])
    + Row(Kind.Pig, [(Middle + 300.0, 100.0)])
    + Row(Kind.Column, [(Middle + 400.0, 50.0)])
  }

  function Level2(): seq<Placement> {
    Row(Kind.Column, [(Middle - 40.0, 50.0), (Middle + 40.0, 50.0), (Middle - 40.0, 150.0), (Middle + 40.0, 150.0),
                      (Middle - 40.0, 250.0), (Middle + 40.0, 250.0), (Middle - 120.0, 50.0), (Middle + 120.0, 50.0),
                      (Middle - 120.0, 150.0), (Middle + 120.0, 150.0), (Middle - 205.0, 50.0), (Middle + 205.0, 50.0)])
    + Row(Kind.Beam, [(Middle, 100.0), (Middle, 200.0), (Middle, 300.0), (Middle + 80.0, 200.0), (Middle - 80.0, 200.0),
                      (Middle - 80.0, 100.0), (Middle + 80.0, 100.0), (Middle - 160.0, 100.0), (Middle + 160.0, 100.0)])
    + Row(Kind.Pig, [(Middle, 120.0), (Middle + 80.0, 50.0), (Middle - 80.0, 50.0), (Middle, 250.0),
                     (Middle - 160.0, 170.0), (Middle + 160.0, 170.0)])
  }

  function Level3(): seq<Placement> {
    Row(Kind.Column, [(Middle - 40.0, 50.0), (Middle + 40.0, 50.0), (Middle - 40.0, 150.0), (Middle + 40.0, 150.0),
                      (Middle - 120.0, 50.0), (Middle + 120.0, 50.0)])
    + Row(Kind.Beam, [(Middle, 100.0), (Middle, 200.0), (Middle - 80.0, 100.0), (Middle + 80.0, 100.0)])
    + Row(Kind.Pig, [(Middle, 120.0), (Middle + 80.0, 50.0), (Middle - 80.0, 50.0)])
    + Row(Kind.Column, [(Middle + 595.0, 50.0), (Middle + 520.0, 50.0)])
    + Row(Kind.Beam, [(Middle + 560.0, 100.0)])
    + Row(Kind.Column, [(Middle + 592.0, 150.0), (Middle + 525.0, 153.0)])
    + Row(Kind.Beam, [(Middle + 560.0, 200.0)])
    + Row(Kind.Column, [(Middle + 595.0, 250.0), (Middle + 525.0, 250.0)])
    + Row(Kind.Beam, [(Middle + 560.0, 300.0)])
    + Row(Kind.Pig, [(Middle + 555.0, 130.0), (Middle + 555.0, 50.0), (Middle + 555.0, 220.0), (Middle + 555.0, 340.0)])
  }

  /** The `levels` table of LevelManager, in order. */
  function Layouts(): seq<seq<Placement>> {
    [Level1(), Level2(), Level3()]
  }

  const LevelTotal: int := 3

  /** Layouts place only world objects: pigs, columns and beams. */
  ghost predicate WorldLayout(ps: seq<Placement>) {
    forall i :: 0 <= i < |ps| ==> ps[i].kind in {Kind.Pig, Kind.Column, Kind.Beam}
  }

  /** Number of placements of kind `k`. */
  function KindCount(ps: seq<Placement>, k: Kind): nat {
    if ps == [] then 0 else (if ps[0].kind == k then 1 else 0) + KindCount(ps[1..], k)
  }

  lemma {:induction false} KindCountAppend(ps: seq<Placement>, qs: seq<Placement>, k: Kind)
    ensures KindCount(ps + qs, k) == KindCount(ps, k) + KindCount(qs, k)
  {
    if ps == [] {
      assert ps + qs == qs;
    } else {
      assert (ps + qs)[1..] == ps[1..] + qs;
      KindCountAppend(ps[1..], qs, k);
    }
  }

  lemma {:induction false} KindCountRow(kind: Kind, spots: seq<(real, real)>, k: Kind)
    ensures KindCount(Row(kind, spots), k) == if kind == k then |spots| else 0
  {
    if spots != [] {
      KindCountRow(kind, spots[1..], k);
    }
  }

  /** Pigs to destroy on level `n` (1-based); LevelPigsCounted ties the table to the layouts. */
  function LevelPigs(n: int): nat
    requires 1 <= n <= LevelTotal
  {
    [2, 6, 7][n - 1]
  }

  /** The pig count of each level is the number of add_pig calls of its layout. */
  lemma LevelPigsCounted(n: int)
    requires 1 <= n <= LevelTotal
    ensures LevelPigs(n) == KindCount(Layouts()[n - 1], Kind.Pig)
  {
    if n == 1 {
      CountLevel1(Kind.Pig);
    } else if n == 2 {
      CountLevel2(Kind.Pig);
    } else {
      CountLevel3(Kind.Pig);
    }
  }

  /** What LevelManager relies on in its `levels` table: one layout per level, of world objects, with the listed pig counts. */
  ghost predicate LevelsTable(levels: seq<seq<Placement>>) {
    && |levels| == LevelTotal
    && forall k :: 0 <= k < |levels| ==> WorldLayout(levels[k]) && KindCount(levels[k], Kind.Pig) == LevelPigs(k + 1)
  }

  /** The three layouts make such a table. */
  lemma LayoutsTable()
    ensures LevelsTable(Layouts())
  {
    forall k | 0 <= k < LevelTotal
      ensures WorldLayout(Layouts()[k]) && KindCount(Layouts()[k], Kind.Pig) == LevelPigs(k + 1)
    {
      LayoutsPlaceWorldObjects(k + 1);
      LevelPigsCounted(k + 1);
    }
  }

  /** The pig, column and beam counts of the three layouts. */
  lemma LevelTable()
    ensures |Layouts()| == LevelTotal
    ensures KindCount(Level1(), Kind.Pig) == 2 && KindCount(Level1(), Kind.Column) == 2 && KindCount(Level1(), Kind.Beam) == 0
    ensures KindCount(Level2(), Kind.Pig) == 6 && KindCount(Level2(), Kind.Column) == 12 && KindCount(Level2(), Kind.Beam) == 9
    ensures KindCount(Level3(), Kind.Pig) == 7 && KindCount(Level3(), Kind.Column) == 12 && KindCount(Level3(), Kind.Beam) == 7
  {
    CountLevel1(Kind.Pig);
    CountLevel1(Kind.Column);
    CountLevel1(Kind.Beam);
    CountLevel2(Kind.Pig);
    CountLevel2(Kind.Column);
    CountLevel2(Kind.Beam);
    CountLevel3(Kind.Pig);
    CountLevel3(Kind.Column);
    CountLevel3(Kind.Beam);
  }

  /** Every layout places only pigs, columns and beams. */
  lemma LayoutsPlaceWorldObjects(n: int)
    requires 1 <= n <= LevelTotal
    ensures WorldLayout(Layouts()[n - 1])
  {
  }

  lemma CountLevel1(k: Kind)
    ensures KindCount(Level1(), k) == (if k == Kind.Pig then 2 else 0) + (if k == Kind.Column then 2 else 0)
  {
    var a := Row(Kind.Pig, [(Middle + 100.0, 100.0)]);
    var b := Row(Kind.Column, [(Middle + 200.0, 50.0)]);
    var c := Row(Kind.Pig, [(Middle + 300.0, 100.0)]);
    var d := Row(Kind.Column, [(Middle + 400.0, 50.0)]);
    KindCountAppend(a + b + c, d, k);
    KindCountAppend(a + b, c, k);
    KindCountAppend(a, b, k);
    KindCountRow(Kind.Pig, [(Middle + 100.0, 100.0)], k);
    KindCountRow(Kind.Column, [(Middle + 200.0, 50.0)], k);
    KindCountRow(Kind.Pig, [(Middle + 300.0, 100.0)], k);
    KindCountRow(Kind.Column, [(Middle + 400.0, 50.0)], k);
  }

  /** A layout made of three uniform rows. */
  lemma CountThreeRows(ps: seq<Placement>, k1: Kind, s1: seq<(real, real)>, k2: Kind, s2: seq<(real, real)>,
                       k3: Kind, s3: seq<(real, real)>, k: Kind)
    requires ps == Row(k1, s1) + Row(k2, s2) + Row(k3, s3)
    ensures KindCount(ps, k) == (if k1 == k then |s1| else 0) + (if k2 == k then |s2| else 0) + (if k3 == k then |s3| else 0)
  {
    KindCountAppend(Row(k1, s1) + Row(k2, s2), Row(k3, s3), k);
    KindCountAppend(Row(k1, s1), Row(k2, s2), k);
    KindCountRow(k1, s1, k);
    KindCountRow(k2, s2, k);
    KindCountRow(k3, s3, k);
  }

  lemma CountLevel2(k: Kind)
    ensures KindCount(Level2(), k) ==
      (if k == Kind.Pig then 6 else 0) + (if k == Kind.Column then 12 else 0) + (if k == Kind.Beam then 9 else 0)
  {
    var s1 := [(Middle - 40.0, 50.0), (Middle + 40.0, 50.0), (Middle - 40.0, 150.0), (Middle + 40.0, 150.0),
               (Middle - 40.0, 250.0), (Middle + 40.0, 250.0), (Middle - 120.0, 50.0), (Middle + 120.0, 50.0),
               (Middle - 120.0, 150.0), (Middle + 120.0, 150.0), (Middle - 205.0, 50.0), (Middle + 205.0, 50.0)];
    var s2 := [(Middle, 100.0), (Middle, 200.0), (Middle, 300.0), (Middle + 80.0, 200.0), (Middle - 80.0, 200.0),
               (Middle - 80.0, 100.0), (Middle + 80.0, 100.0), (Middle - 160.0, 100.0), (Middle + 160.0, 100.0)];
    var s3 := [(Middle, 120.0), (Middle + 80.0, 50.0), (Middle - 80.0, 50.0), (Middle, 250.0),
               (Middle - 160.0, 170.0), (Middle + 160.0, 170.0)];
    CountThreeRows(Level2(), Kind.Column, s1, Kind.Beam, s2, Kind.Pig, s3, k);
  }

  lemma CountLevel3(k: Kind)
    ensures KindCount(Level3(), k) ==
      (if k == Kind.Pig then 7 else 0) + (if k == Kind.Column then 12 else 0) + (if k == Kind.Beam then 7 else 0)
  {
    var s1 := [(Middle - 40.0, 50.0), (Middle + 40.0, 50.0), (Middle - 40.0, 150.0), (Middle + 40.0, 150.0),
               (Middle - 120.0, 50.0), (Middle + 120.0, 50.0)];
    var s2 := [(Middle, 100.0), (Middle, 200.0), (Middle - 80.0, 100.0), (Middle + 80.0, 100.0)];
    var s3 := [(Middle, 120.0), (Middle + 80.0, 50.0), (Middle - 80.0, 50.0)];
    var t1 := [(Middle + 595.0, 50.0), (Middle + 520.0, 50.0)];
    var t2 := [(Middle + 560.0, 100.0)];
    var t3 := [(Middle + 592.0, 150.0), (Middle + 525.0, 153.0)];
    var u1 := [(Middle + 560.0, 200.0)];
    var u2 := [(Middle + 595.0, 250.0), (Middle + 525.0, 250.0)];
    var u3 := [(Middle + 560.0, 300.0)];
    var v := [(Middle + 555.0, 130.0), (Middle + 555.0, 50.0), (Middle + 555.0, 220.0), (Middle + 555.0, 340.0)];
    var p1 := Row(Kind.Column, s1) + Row(Kind.Beam, s2) + Row(Kind.Pig, s3);
    var p2 := Row(Kind.Column, t1) + Row(Kind.Beam, t2) + Row(Kind.Column, t3);
    var p3 := Row(Kind.Beam, u1) + Row(Kind.Column, u2) + Row(Kind.Beam, u3);
    assert Level3() == p1 + p2 + p3 + Row(Kind.Pig, v);
    CountThreeRows(p1, Kind.Column, s1, Kind.Beam, s2, Kind.Pig, s3, k);
    CountThreeRows(p2, Kind.Column, t1, Kind.Beam, t2, Kind.Column, t3, k);
    CountThreeRows(p3, Kind.Beam, u1, Kind.Column, u2, Kind.Beam, u3, k);
    KindCountRow(Kind.Pig, v, k);
    KindCountAppend(p1 + p2 + p3, Row(Kind.Pig, v), k);
    KindCountAppend(p1 + p2, p3, k);
    KindCountAppend(p1, p2, k);
  }

  // ---------------------------------------------------------------------------
  // The level state machine

  /** The LevelManager counters: current level, pigs left, and whether the game was ended. */
  datatype Progress = Progress(level: int, pigs: int, exited: bool)

  /** load_level on the counters: the next layout is built, or the game ends. */
  function AfterLoad(p: Progress): Progress {
    var level := p.level + 1;
    if 1 <= level <= LevelTotal then Progress(level, LevelPigs(level), p.exited)
    else Progress(level, 0, true)
  }

  /** pig_destroyed on the counters. */
  function AfterPigDestroyed(p: Progress): Progress {
    var pigs := p.pigs - 1;
    if pigs <= 0 then AfterLoad(p.(pigs := pigs)) else p.(pigs := pigs)
  }

  /** `j` successive calls of pig_destroyed. */
  function DestroyPigs(p: Progress, j: nat): Progress
    decreases j
  {
    if j == 0 then p else DestroyPigs(AfterPigDestroyed(p), j - 1)
  }

  /** A new LevelManager, then its first load_level, which App.__init__ performs. */
  lemma FirstLoad()
    ensures AfterLoad(Progress(0, 0, false)) == Progress(1, KindCount(Level1(), Kind.Pig), false) == Progress(1, 2, false)
  {
    CountLevel1(Kind.Pig);
  }

  /** load_level advances the level by exactly one and sets the pig count of the new layout. */
  lemma LoadAdvancesByOne(p: Progress)
    requires p.level >= 0
    ensures AfterLoad(p).level == p.level + 1
    ensures p.level < LevelTotal ==>
      AfterLoad(p).pigs == KindCount(Layouts()[p.level], Kind.Pig) > 0 && AfterLoad(p).exited == p.exited
    ensures p.level >= LevelTotal ==> AfterLoad(p).pigs == 0 && AfterLoad(p).exited
  {
    if p.level < LevelTotal {
      LevelPigsCounted(p.level + 1);
    }
  }

  /**
   * With `p.pigs` pigs left on a level, the first `p.pigs - 1` destructions
   * keep the level and count down; the last one loads the next level.
   */
  lemma {:induction false} DestroyingEveryPigAdvances(p: Progress, j: nat)
    requires j <= p.pigs
    decreases j
    ensures j < p.pigs ==> DestroyPigs(p, j) == p.(pigs := p.pigs - j)
    ensures j == p.pigs > 0 ==> DestroyPigs(p, j) == AfterLoad(p.(pigs := 0))
  {
    if j > 0 {
      var q := AfterPigDestroyed(p);
      if p.pigs - 1 > 0 {
        assert q == p.(pigs := p.pigs - 1);
        DestroyingEveryPigAdvances(q, j - 1);
        if j == p.pigs {
          assert q.(pigs := 0) == p.(pigs := 0);
        }
      } else {
        assert j == 1 && q == AfterLoad(p.(pigs := 0));
      }
    }
  }

  /** Destroying all 2 + 6 + 7 pigs after the first load ends the game after level 3. */
  lemma ClearingAllLevelsEndsTheGame()
    ensures DestroyPigs(DestroyPigs(DestroyPigs(AfterLoad(Progress(0, 0, false)), 2), 6), 7) == Progress(4, 0, true)
  {
    var p1 := AfterLoad(Progress(0, 0, false));
    assert p1 == Progress(1, 2, false);
    DestroyingEveryPigAdvances(p1, 2);
    var p2 := DestroyPigs(p1, 2);
    assert p2 == Progress(2, 6, false);
    DestroyingEveryPigAdvances(p2, 6);
    var p3 := DestroyPigs(p2, 6);
    assert p3 == Progress(3, 7, false);
    DestroyingEveryPigAdvances(p3, 7);
  }
}
