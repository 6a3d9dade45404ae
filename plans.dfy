/**
 * What the Migrator decides before it runs anything: which migrations count as applied at a
 * stored version, which ones a call to up or down must run and in which order, and what running
 * such a plan does to the schema.
 */
module Plans {

  import opened Wrappers
  import opened TableNames
  import opened Ddl
  import opened Migrations

  /** What discovery hands the Migrator: positive versions in strictly ascending order (so no duplicates). */
  predicate Discovered(ms: seq<Migration>)
  {
    && (forall i :: 0 <= i < |ms| ==> 0 < ms[i].version)
    && (forall i, j :: 0 <= i < j < |ms| ==> ms[i].version < ms[j].version)
  }

  function Max(a: int, b: int): int { if a < b then b else a }
  function Min(a: int, b: int): int { if a < b then a else b }

  /**
   * How many migrations are applied when the stored version is v: the longest prefix of the
   * discovered list whose versions are all at most v.
   */
  function AppliedCount(ms: seq<Migration>, v: int): (k: nat)
    ensures k <= |ms|
    ensures k < |ms| ==> v < ms[k].version
  {
    if ms == [] || v < ms[0].version then 0 else 1 + AppliedCount(ms[1..], v)
  }

  /** Every migration before the count is at most v. */
  lemma {:induction false} BelowCount(ms: seq<Migration>, v: int, i: nat)
    requires i < AppliedCount(ms, v)
    ensures ms[i].version <= v
  {
    if 0 < i {
      BelowCount(ms[1..], v, i - 1);
    }
  }

  /** On a discovered list every migration at most v is counted. */
  lemma {:induction false} CountedBelow(ms: seq<Migration>, v: int, j: nat)
    requires Discovered(ms) && j < |ms| && ms[j].version <= v
    ensures j < AppliedCount(ms, v)
  {
    if 0 < j {
      assert ms[0].version < ms[j].version;
      assert ms[1..][j - 1] == ms[j];
      CountedBelow(ms[1..], v, j - 1);
    }
  }

  /** On a discovered list the count is pinned down by the two neighbours of the boundary. */
  lemma AppliedCountAt(ms: seq<Migration>, v: int, k: nat)
    requires Discovered(ms) && k <= |ms|
    requires k == 0 || ms[k - 1].version <= v
    requires k == |ms| || v < ms[k].version
    ensures AppliedCount(ms, v) == k
  {
    if 0 < k {
      CountedBelow(ms, v, k - 1);
    }
    if k < AppliedCount(ms, v) {
      BelowCount(ms, v, k);
    }
  }

  /** A higher stored version never means fewer applied migrations. */
  lemma AppliedCountMonotonic(ms: seq<Migration>, v: int, w: int)
    requires v <= w
    ensures AppliedCount(ms, v) <= AppliedCount(ms, w)
  {
    var cv, cw := AppliedCount(ms, v), AppliedCount(ms, w);
    if cw < cv {
      BelowCount(ms, v, cw);
    }
  }

  /** Version 0 means that nothing is applied. */
  lemma NothingAppliedAtZero(ms: seq<Migration>)
    requires Discovered(ms)
    ensures AppliedCount(ms, 0) == 0
  {
  }

  /** The applied count a target asks for; no target means every discovered migration. */
  function Limit(ms: seq<Migration>, target: Option<int>): (k: nat)
    ensures k <= |ms|
  {
    if target.None? then |ms| else AppliedCount(ms, target.value)
  }

  /** lo < v, and v <= hi when there is an upper bound. */
  predicate InRange(v: int, lo: int, hi: Option<int>)
  {
    lo < v && (hi.None? || v <= hi.value)
  }

  function Reverse<T>(s: seq<T>): (r: seq<T>)
    ensures |r| == |s|
    ensures forall i :: 0 <= i < |s| ==> r[i] == s[|s| - 1 - i]
  {
    if s == [] then [] else Reverse(s[1..]) + [s[0]]
  }

  /** up(target): the migrations above the current version and at most the target, ascending. */
  function UpPlan(ms: seq<Migration>, current: int, target: Option<int>): seq<Migration>
  {
    Slice(ms, current, target)
  }

  /** down(target): the migrations at most the current version and above the target, descending. */
  function DownPlan(ms: seq<Migration>, current: int, target: int): seq<Migration>
  {
    Reverse(Slice(ms, target, Some(current)))
  }

  /** The stored version once an up plan has completed: its last migration's, or unchanged. */
  function VersionAfterUp(plan: seq<Migration>, current: int): int
  {
    if plan == [] then current else plan[|plan| - 1].version
  }

  /**
   * The migrations after the first AppliedCount(lo) and within the first Limit(hi): on a
   * discovered list, exactly those with lo < version <= hi (see SliceInRange).
   */
  function Slice(ms: seq<Migration>, lo: int, hi: Option<int>): seq<Migration>
  {
    ms[AppliedCount(ms, lo)..Max(AppliedCount(ms, lo), Limit(ms, hi))]
  }

  /** A slice's bounds lie within the list. */
  lemma MaxBounds(ms: seq<Migration>, lo: int, hi: Option<int>)
    ensures AppliedCount(ms, lo) <= Max(AppliedCount(ms, lo), Limit(ms, hi)) <= |ms|
  {
  }

  /** Every migration from the count onward is above v. */
  lemma AboveCount(ms: seq<Migration>, v: int, i: nat)
    requires Discovered(ms) && AppliedCount(ms, v) <= i < |ms|
    ensures v < ms[i].version
  {
    var k := AppliedCount(ms, v);
    assert ms[k].version <= ms[i].version;
  }

  /**
   * Ordering: up runs its migrations in strictly ascending version order, and it runs exactly the
   * discovered migrations above the current version and at most the target.
   */
  lemma UpPlanOrdered(ms: seq<Migration>, current: int, target: Option<int>)
    requires Discovered(ms)
    ensures var p := UpPlan(ms, current, target);
            && (forall i, j :: 0 <= i < j < |p| ==> p[i].version < p[j].version)
            && (forall m :: m in p <==> m in ms && InRange(m.version, current, target))
  {
    MaxBounds(ms, current, target);
    SliceInRange(ms, current, target);
  }

  /** A discovered migration lies inside the slice exactly when its version is in range. */
  lemma SliceIndex(ms: seq<Migration>, lo: int, hi: Option<int>, i: nat)
    requires Discovered(ms) && i < |ms|
    ensures AppliedCount(ms, lo) <= i < Max(AppliedCount(ms, lo), Limit(ms, hi))
            <==> InRange(ms[i].version, lo, hi)
  {
    if AppliedCount(ms, lo) <= i {
      AboveCount(ms, lo, i);
    } else {
      BelowCount(ms, lo, i);
    }
    if hi.Some? {
      if AppliedCount(ms, hi.value) <= i {
        AboveCount(ms, hi.value, i);
      } else {
        BelowCount(ms, hi.value, i);
      }
    }
  }

  /** A discovered migration in range is in the slice. */
  lemma InRangeInSlice(ms: seq<Migration>, lo: int, hi: Option<int>, i: nat)
    requires Discovered(ms) && i < |ms| && InRange(ms[i].version, lo, hi)
    ensures ms[i] in Slice(ms, lo, hi)
  {
    var a := AppliedCount(ms, lo);
    var b := Max(a, Limit(ms, hi));
    MaxBounds(ms, lo, hi);
    SliceIndex(ms, lo, hi, i);
    assert ms[a..b][i - a] == ms[i];
  }

  /** A member of the slice is a discovered migration in range. */
  lemma InSliceInRange(ms: seq<Migration>, lo: int, hi: Option<int>, m: Migration)
    requires Discovered(ms) && m in Slice(ms, lo, hi)
    ensures m in ms && InRange(m.version, lo, hi)
  {
    var a := AppliedCount(ms, lo);
    var b := Max(a, Limit(ms, hi));
    MaxBounds(ms, lo, hi);
    var j :| 0 <= j < b - a && ms[a..b][j] == m;
    assert ms[a + j] == m;
    SliceIndex(ms, lo, hi, a + j);
  }

  /** A slice holds exactly the migrations in range. */
  lemma SliceInRange(ms: seq<Migration>, lo: int, hi: Option<int>)
    requires Discovered(ms)
    ensures forall m :: m in Slice(ms, lo, hi) <==> m in ms && InRange(m.version, lo, hi)
  {
    forall m ensures m in Slice(ms, lo, hi) <==> m in ms && InRange(m.version, lo, hi) {
      if m in ms && InRange(m.version, lo, hi) {
        var i :| 0 <= i < |ms| && ms[i] == m;
        InRangeInSlice(ms, lo, hi, i);
      }
      if m in Slice(ms, lo, hi) {
        InSliceInRange(ms, lo, hi, m);
      }
    }
  }

  /**
   * Ordering: down runs its migrations in strictly descending version order, and it runs exactly
   * the discovered migrations at most the current version and above the target.
   */
  lemma DownPlanOrdered(ms: seq<Migration>, current: int, target: int)
    requires Discovered(ms)
    ensures var p := DownPlan(ms, current, target);
            && (forall i, j :: 0 <= i < j < |p| ==> p[i].version > p[j].version)
            && (forall m :: m in p <==> m in ms && InRange(m.version, target, Some(current)))
  {
    UpPlanOrdered(ms, target, Some(current));
    ReverseDescending(Slice(ms, target, Some(current)));
    ReverseMembers(Slice(ms, target, Some(current)));
  }

  /** Reversing an ascending list gives a descending one. */
  lemma ReverseDescending(b: seq<Migration>)
    requires forall i, j :: 0 <= i < j < |b| ==> b[i].version < b[j].version
    ensures forall i, j :: 0 <= i < j < |Reverse(b)| ==> Reverse(b)[i].version > Reverse(b)[j].version
  {
    var p := Reverse(b);
    forall i, j | 0 <= i < j < |p| ensures p[i].version > p[j].version {
      assert p[i] == b[|b| - 1 - i] && p[j] == b[|b| - 1 - j];
    }
  }

  /** Reversing keeps exactly the same members. */
  lemma ReverseMembers<T>(b: seq<T>)
    ensures forall m :: m in Reverse(b) <==> m in b
  {
    var p := Reverse(b);
    forall m ensures m in p <==> m in b {
      if m in p {
        var i :| 0 <= i < |p| && p[i] == m;
        assert b[|b| - 1 - i] == m;
      }
      if m in b {
        var i :| 0 <= i < |b| && b[i] == m;
        assert p[|b| - 1 - i] == m;
      }
    }
  }

  /** Running a plan: each migration's body for the direction, in plan order; the first failure stops it. */
  function RunAll(cfg: Config, plan: seq<Migration>, dir: Direction, s: Schema): Result
  {
    if plan == [] then Ok(s)
    else
      match Run(cfg, Body(plan[0], dir), s)
      case Ok(t) => RunAll(cfg, plan[1..], dir, t)
      case StatementInvalid(e) => StatementInvalid(e)
  }

  /** Running a + b is running a, then b on what a produced. */
  lemma {:induction false} RunAllAppend(cfg: Config, a: seq<Migration>, b: seq<Migration>, dir: Direction, s: Schema)
    ensures RunAll(cfg, a + b, dir, s) ==
            match RunAll(cfg, a, dir, s)
            case Ok(t) => RunAll(cfg, b, dir, t)
            case StatementInvalid(e) => StatementInvalid(e)
  {
    if a == [] {
      assert a + b == b;
    } else {
      assert (a + b)[0] == a[0];
      assert (a + b)[1..] == a[1..] + b;
      match Run(cfg, Body(a[0], dir), s)
      case Ok(t) => RunAllAppend(cfg, a[1..], b, dir, t);
      case StatementInvalid(_) =>
    }
  }

  /** Every migration of the list has a down that undoes its up. */
  ghost predicate AllReversible(cfg: Config, ms: seq<Migration>)
  {
    forall i :: 0 <= i < |ms| ==> Reversible(cfg, ms[i])
  }

  /**
   * Every migration that down from `current` to `target` undoes, those at most the current
   * version and above the target, has a down that undoes its up. Migrations outside that range
   * may be irreversible.
   */
  ghost predicate DownReversible(cfg: Config, ms: seq<Migration>, current: int, target: int)
  {
    forall j :: 0 <= j < |ms| && InRange(ms[j].version, target, Some(current)) ==> Reversible(cfg, ms[j])
  }

  /**
   * The applied migrations from index i on, each above the target, are all reversible when those
   * in down's range are.
   */
  lemma DownReversibleSlice(cfg: Config, ms: seq<Migration>, current: int, target: int, i: nat, k0: nat)
    requires Discovered(ms) && DownReversible(cfg, ms, current, target)
    requires k0 == AppliedCount(ms, current) && i <= k0
    requires i < k0 ==> target < ms[i].version
    ensures AllReversible(cfg, ms[i..k0])
  {
    forall j | 0 <= j < k0 - i ensures Reversible(cfg, ms[i..k0][j]) {
      assert ms[i..k0][j] == ms[i + j];
      BelowCount(ms, current, i + j);
      assert ms[i].version <= ms[i + j].version;
      assert InRange(ms[i + j].version, target, Some(current));
    }
  }

  /** A plan whose first k migrations succeed and whose next one is rejected fails as a whole. */
  lemma RunAllStopsAt(cfg: Config, plan: seq<Migration>, k: nat, dir: Direction, s: Schema, t: Schema)
    requires k < |plan| && RunAll(cfg, plan[..k], dir, s) == Ok(t)
    requires Run(cfg, Body(plan[k], dir), t).StatementInvalid?
    ensures RunAll(cfg, plan, dir, s).StatementInvalid?
  {
    assert plan == plan[..k] + plan[k..];
    RunAllAppend(cfg, plan[..k], plan[k..], dir, s);
    assert plan[k..][0] == plan[k];
  }

  /** Running one more migration forward after a plan. */
  lemma RunAllSnoc(cfg: Config, plan: seq<Migration>, m: Migration, dir: Direction, s: Schema)
    requires RunAll(cfg, plan, dir, s).Ok?
    ensures RunAll(cfg, plan + [m], dir, s) == Run(cfg, Body(m, dir), RunAll(cfg, plan, dir, s).schema)
  {
    RunAllAppend(cfg, plan, [m], dir, s);
    var t := RunAll(cfg, plan, dir, s).schema;
    assert [m][1..] == [];
    match Run(cfg, Body(m, dir), t)
    case Ok(_) =>
    case StatementInvalid(_) =>
  }

  /**
   * Round trip: after a plan has run forward, running the same migrations backward in reverse
   * order restores the schema it started from.
   */
  lemma {:induction false} UpThenDownRestores(cfg: Config, plan: seq<Migration>, s: Schema)
    requires AllReversible(cfg, plan)
    requires RunAll(cfg, plan, Forward, s).Ok?
    ensures RunAll(cfg, Reverse(plan), Backward, RunAll(cfg, plan, Forward, s).schema) == Ok(s)
  {
    if plan != [] {
      var u := Run(cfg, plan[0].up, s).schema;
      var t := RunAll(cfg, plan, Forward, s).schema;
      assert AllReversible(cfg, plan[1..]) by {
        forall i | 0 <= i < |plan[1..]| ensures Reversible(cfg, plan[1..][i]) {
          assert plan[1..][i] == plan[i + 1];
        }
      }
      UpThenDownRestores(cfg, plan[1..], u);
      RunAllSnoc(cfg, Reverse(plan[1..]), plan[0], Backward, t);
      assert RestoresAfterUp(cfg, plan[0], s);
    }
  }

  /**
   * One step of down: from the schema that the first i migrations produced, undoing the i-th
   * gives the schema of the first i - 1.
   */
  lemma UndoLast(cfg: Config, ms: seq<Migration>, i: nat, base: Schema)
    requires 0 < i <= |ms| && Reversible(cfg, ms[i - 1])
    requires RunAll(cfg, ms[..i], Forward, base).Ok?
    ensures RunAll(cfg, ms[..i - 1], Forward, base).Ok?
    ensures Run(cfg, ms[i - 1].down, RunAll(cfg, ms[..i], Forward, base).schema)
            == RunAll(cfg, ms[..i - 1], Forward, base)
  {
    assert ms[..i] == ms[..i - 1] + [ms[i - 1]];
    RunAllAppend(cfg, ms[..i - 1], [ms[i - 1]], Forward, base);
    RunAllSnoc(cfg, ms[..i - 1], ms[i - 1], Forward, base);
    assert RestoresAfterUp(cfg, ms[i - 1], RunAll(cfg, ms[..i - 1], Forward, base).schema);
  }

  /** A non-empty up plan ends with the last migration within the target. */
  lemma UpPlanLast(ms: seq<Migration>, current: int, target: Option<int>, a: nat, b: nat)
    requires a == AppliedCount(ms, current) && b == Max(a, Limit(ms, target)) && a < b
    ensures VersionAfterUp(UpPlan(ms, current, target), current) == ms[b - 1].version
  {
    MaxBounds(ms, current, target);
    var plan := UpPlan(ms, current, target);
    assert plan == ms[a..b];
    assert plan[|plan| - 1] == ms[b - 1];
  }

  /** After an up plan completes, the applied count is the larger of the old one and the target's. */
  lemma UpPlanAppliedCount(ms: seq<Migration>, current: int, target: Option<int>)
    requires Discovered(ms)
    ensures AppliedCount(ms, VersionAfterUp(UpPlan(ms, current, target), current))
            == Max(AppliedCount(ms, current), Limit(ms, target))
  {
    MaxBounds(ms, current, target);
    var a := AppliedCount(ms, current);
    var b := Max(a, Limit(ms, target));
    if a < b {
      UpPlanLast(ms, current, target, a, b);
      if b < |ms| {
        assert ms[b - 1].version < ms[b].version;
      }
      AppliedCountAt(ms, ms[b - 1].version, b);
    } else {
      assert UpPlan(ms, current, target) == [];
    }
  }

  /** Two adjacent slices joined are the slice that spans both. */
  lemma AdjacentSlices<T>(s: seq<T>, a: nat, b: nat, c: nat)
    requires a <= b <= c <= |s|
    ensures s[a..b] + s[b..c] == s[a..c]
  {
  }

  /**
   * Partial application: up to t1 and then up to t2 (t1 <= t2, or no second target) runs the same
   * migrations, in the same order, as a single up to t2.
   */
  lemma UpInStages(ms: seq<Migration>, current: int, t1: int, t2: Option<int>)
    requires Discovered(ms)
    requires t2.None? || t1 <= t2.value
    ensures var first := UpPlan(ms, current, Some(t1));
            first + UpPlan(ms, VersionAfterUp(first, current), t2) == UpPlan(ms, current, t2)
  {
    var first := UpPlan(ms, current, Some(t1));
    var v1 := VersionAfterUp(first, current);
    UpPlanAppliedCount(ms, current, Some(t1));
    MaxBounds(ms, current, Some(t1));
    MaxBounds(ms, v1, t2);
    if t2.Some? {
      AppliedCountMonotonic(ms, t1, t2.value);
    }
    var a := AppliedCount(ms, current);
    var b1 := Max(a, Limit(ms, Some(t1)));
    var b2 := Max(b1, Limit(ms, t2));
    assert Max(a, Limit(ms, t2)) == b2;
    AdjacentSlices(ms, a, b1, b2);
  }

  /**
   * Idempotence: once exactly the migrations a target asks for are applied, neither up nor down
   * to that target has anything left to run.
   */
  lemma SettledPlansEmpty(ms: seq<Migration>, current: int, target: Option<int>)
    requires AppliedCount(ms, current) == Limit(ms, target)
    ensures UpPlan(ms, current, target) == []
    ensures target.Some? ==> DownPlan(ms, current, target.value) == []
  {
  }

  /** Full up: from below the newest migration, up with no target ends at the newest version with all applied. */
  lemma FullUp(ms: seq<Migration>, current: int)
    requires Discovered(ms) && |ms| > 0 && current < ms[|ms| - 1].version
    ensures VersionAfterUp(UpPlan(ms, current, None), current) == ms[|ms| - 1].version
    ensures AppliedCount(ms, VersionAfterUp(UpPlan(ms, current, None), current)) == |ms|
  {
    var a := AppliedCount(ms, current);
    if a == |ms| {
      BelowCount(ms, current, |ms| - 1);
      assert false;
    }
    UpPlanLast(ms, current, None, a, |ms|);
    UpPlanAppliedCount(ms, current, None);
  }

  /**
   * Full down: down to 0 undoes every applied migration, newest first, and restores the schema
   * that preceded all of them.
   */
  lemma FullDownRestores(cfg: Config, ms: seq<Migration>, current: int, base: Schema)
    requires Discovered(ms) && DownReversible(cfg, ms, current, 0)
    requires RunAll(cfg, ms[..AppliedCount(ms, current)], Forward, base).Ok?
    ensures DownPlan(ms, current, 0) == Reverse(ms[..AppliedCount(ms, current)])
    ensures RunAll(cfg, DownPlan(ms, current, 0), Backward,
                   RunAll(cfg, ms[..AppliedCount(ms, current)], Forward, base).schema) == Ok(base)
  {
    var k := AppliedCount(ms, current);
    NothingAppliedAtZero(ms);
    assert ms[0..k] == ms[..k];
    DownReversibleSlice(cfg, ms, current, 0, 0, k);
    UpThenDownRestores(cfg, ms[..k], base);
  }
}
