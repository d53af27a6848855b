/**
 * The randomised expansion order of the grid search. `Math.random()` is
 * replaced by explicit draws in [0, 1) supplied by the caller.
 */
module Draws {
  import opened Optional
  import opened Grid

  /** One value returned by `Math.random()`. */
  type Fraction = r: real | 0.0 <= r < 1.0

  /** The three draws one call of `randomDirections` consumes. */
  datatype DirDraw = DirDraw(first: Fraction, second: Fraction, third: Fraction)

  /** `Math.floor(u * n) + 1`: a roll of an n-sided die. */
  function Roll(u: Fraction, n: nat): (k: int)
    requires 2 <= n <= 4
    ensures 1 <= k <= n
  {
    var scaled := if n == 2 then u * 2.0 else if n == 3 then u * 3.0 else u * 4.0;
    scaled.Floor + 1
  }

  function Max(s: seq<int>): (m: int)
    requires |s| > 0
    ensures forall x :: x in s ==> x <= m
    ensures m in s
  {
    if |s| == 1 then s[0]
    else
      var m := Max(s[1..]);
      assert s == [s[0]] + s[1..];
      if s[0] >= m then s[0] else m
  }

  /**
   * The collision loop `while (result.includes(check)) check++`: the least
   * value at or above `check` that is not taken. It only ever counts up.
   */
  function Bump(taken: seq<int>, check: int): (r: int)
    requires |taken| > 0
    ensures r >= check && r !in taken
    ensures forall v :: check <= v < r ==> v in taken
    decreases Max(taken) - check + 1
  {
    if check in taken then Bump(taken, check + 1) else check
  }

  /** A drawn direction number, moved up past the numbers already taken. */
  function Resolve(taken: seq<int>, v: int): (r: int)
    requires |taken| > 0
    ensures r !in taken && r >= v
    ensures v !in taken ==> r == v
    ensures v in taken ==> forall w :: v <= w < r ==> w in taken
  {
    if v in taken then Bump(taken, v + 1) else v
  }

  /** A roll of at most 2 resolved against two taken numbers stays within 1..4. */
  lemma ResolveAmongTwo(a: int, b: int, v: int)
    requires 1 <= v <= 2
    ensures Resolve([a, b], v) <= 4
  {
    var r := Resolve([a, b], v);
    assert r > 4 ==> v in [a, b] && v + 1 in [a, b] && v + 2 in [a, b];
  }

  /** The first of 1..4, starting at `i`, not yet taken. */
  function FirstMissing(taken: seq<int>, i: int): (r: Option<int>)
    requires 1 <= i
    ensures r.Some? ==> i <= r.value <= 4 && r.value !in taken
    ensures r.Some? ==> forall v :: i <= v < r.value ==> v in taken
    ensures r.None? ==> forall v :: i <= v <= 4 ==> v in taken
    decreases 5 - i
  {
    if i > 4 then None
    else if i !in taken then Some(i)
    else FirstMissing(taken, i + 1)
  }

  /**
   * `randomDirections` for the three die rolls it makes: a permutation of
   * 1..4 that starts with the first roll.
   */
  function RandomDirections(first: int, second: int, third: int): (r: seq<int>)
    requires 1 <= first <= 4 && 1 <= second <= 3 && 1 <= third <= 2
    ensures |r| == 4 && r[0] == first
    ensures forall v :: v in r <==> 1 <= v <= 4
    ensures Distinct(r)
  {
    var r1 := [first];
    var r2 := r1 + [Resolve(r1, second)];
    assert 1 <= r2[1] <= 4;
    var r3 := r2 + [Resolve(r2, third)];
    assert r3[2] <= 4 by {
      assert r2 == [r2[0], r2[1]];
      ResolveAmongTwo(r2[0], r2[1], third);
    }
    var last := FirstMissing(r3, 1);
    if last.Some? then
      var r := r3 + [last.value];
      assert r == [r[0], r[1], r[2], r[3]];
      forall v | 1 <= v <= 4 ensures v in r {
        assert v == 1 || v == 2 || v == 3 || v == 4;
      }
      r
    else r3
  }

  /** The direction numbered `k`. */
  function DirectionOf(k: int): Direction
    requires 1 <= k <= 4
  {
    if k == 1 then Left else if k == 2 then Right else if k == 3 then Up else Down
  }

  /** The expansion order one set of draws produces. */
  function DrawDirections(d: DirDraw): (r: seq<Direction>)
    ensures |r| == 4
    ensures forall dir :: dir in r
    ensures Distinct(r)
  {
    var ks := RandomDirections(Roll(d.first, 4), Roll(d.second, 3), Roll(d.third, 2));
    assert forall i :: 0 <= i < 4 ==> ks[i] in ks;
    var r := seq(4, i requires 0 <= i < 4 => DirectionOf(ks[i]));
    assert forall i, j :: 0 <= i < j < 4 ==> r[i] != r[j] by {
      forall i, j | 0 <= i < j < 4 ensures r[i] != r[j] {
        assert ks[i] != ks[j];
      }
    }
    forall dir ensures dir in r {
      var k := match dir case Left => 1 case Right => 2 case Up => 3 case Down => 4;
      assert k in ks;
      var i :| 0 <= i < 4 && ks[i] == k;
      assert r[i] == dir;
    }
    r
  }

  /** The in-map cells one step from `p`, taken in the order `dirs` gives. */
  function Neighbors(g: Map, p: Pos, dirs: seq<Direction>): (r: seq<Pos>)
    ensures |r| <= |dirs|
    ensures forall x :: x in r <==> InMap(g, x) && exists i :: 0 <= i < |dirs| && x == Step(p, dirs[i])
  {
    if |dirs| == 0 then []
    else
      var rest := Neighbors(g, p, dirs[1..]);
      assert forall i :: 1 <= i < |dirs| ==> dirs[i] == dirs[1..][i - 1];
      var np := Step(p, dirs[0]);
      if InMap(g, np) then [np] + rest else rest
  }

  /**
   * `getNeighbors`: at most four distinct in-map cells, each one step from
   * `p`, and every in-map cell one step from `p` is among them.
   */
  function GetNeighbors(g: Map, p: Pos, draw: DirDraw): (r: seq<Pos>)
    ensures |r| <= 4
    ensures Distinct(r)
    ensures forall x :: x in r ==> InMap(g, x) && Adjacent(p, x)
    ensures forall d :: InMap(g, Step(p, d)) ==> Step(p, d) in r
  {
    var dirs := DrawDirections(draw);
    var r := Neighbors(g, p, dirs);
    DistinctNeighbors(g, p, dirs);
    forall x | x in r ensures Adjacent(p, x) {
      var i :| 0 <= i < |dirs| && x == Step(p, dirs[i]);
      DirectionToStep(p, dirs[i]);
    }
    forall d | InMap(g, Step(p, d)) ensures Step(p, d) in r {
      assert d in dirs;
      var i :| 0 <= i < |dirs| && dirs[i] == d;
    }
    r
  }

  /** Distinct directions give distinct neighbours. */
  lemma {:induction false} DistinctNeighbors(g: Map, p: Pos, dirs: seq<Direction>)
    requires Distinct(dirs)
    ensures Distinct(Neighbors(g, p, dirs))
    decreases |dirs|
  {
    if |dirs| > 0 {
      DistinctNeighbors(g, p, dirs[1..]);
      var rest := Neighbors(g, p, dirs[1..]);
      var np := Step(p, dirs[0]);
      forall i | 0 <= i < |dirs[1..]| ensures Step(p, dirs[1..][i]) != np {
        DirectionToStep(p, dirs[0]);
        DirectionToStep(p, dirs[1..][i]);
        assert dirs[1..][i] == dirs[i + 1];
      }
      assert np !in rest;
      var r := Neighbors(g, p, dirs);
      if InMap(g, np) {
        assert r == [np] + rest;
        forall i, j | 0 <= i < j < |r| ensures r[i] != r[j] {
          if i == 0 {
            assert r[j] == rest[j - 1];
            assert rest[j - 1] in rest;
          } else {
            assert r[i] == rest[i - 1] && r[j] == rest[j - 1];
            assert rest[i - 1] != rest[j - 1];
          }
        }
      }
    }
  }
}
