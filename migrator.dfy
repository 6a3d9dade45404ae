/**
 * ActiveRecord::Migrator: the persisted schema version (the single row of the schema_info
 * table), the database schema it describes, and up / down / migrate, which run the discovered
 * migrations one at a time and store the version after each one.
 */
module Engine {

  import opened Wrappers
  import opened TableNames
  import opened Ddl
  import opened Migrations
  import opened Plans

  /** How a run ended: every planned migration ran, or one was rejected and the run stopped there. */
  datatype Outcome = Completed | Aborted(version: int, reason: string)

  /**
   * The check on the discovered list before anything runs: every version is positive and the
   * list is strictly ascending. Discovery sorts the migration files by version, so on its output
   * this refuses exactly a duplicate or a non-positive version; refusing an unsorted list is this
   * model's own check, standing in for the sort.
   */
  method CheckDiscovered(ms: seq<Migration>) returns (ok: bool)
    ensures ok <==> Discovered(ms)
  {
    var i := 0;
    while i < |ms|
      invariant 0 <= i <= |ms|
      invariant Discovered(ms[..i])
    {
      if ms[i].version <= 0 {
        return false;
      }
      if 0 < i && ms[i].version <= ms[i - 1].version {
        return false;
      }
      assert ms[..i + 1][i] == ms[i];
      i := i + 1;
    }
    assert ms[..i] == ms;
    return true;
  }

  /**
   * What up(target) promises from stored version `current` and schema `start`: the `steps`
   * migrations that ran are the first ones of the up plan and took `start` to `schema`; the
   * stored version is the last of them; the run completed exactly when the whole plan ran, which
   * is exactly when the whole plan succeeds; and an aborted run names the plan's next migration,
   * which the new schema rejects with the reported reason.
   */
  predicate UpOutcome(cfg: Config, ms: seq<Migration>, current: int, target: Option<int>, start: Schema,
                      steps: nat, r: Outcome, version: int, schema: Schema)
  {
    var plan := UpPlan(ms, current, target);
    && steps <= |plan|
    && RunAll(cfg, plan[..steps], Forward, start) == Ok(schema)
    && version == VersionAfterUp(plan[..steps], current)
    && (r.Completed? <==> steps == |plan|)
    && (r.Completed? <==> RunAll(cfg, plan, Forward, start).Ok?)
    && (r.Aborted? ==> steps < |plan| && r.version == plan[steps].version
                       && Run(cfg, plan[steps].up, schema) == StatementInvalid(r.reason))
  }

  /**
   * What down(target) promises from stored version `current` and schema `start`: it ran the
   * whole down plan backward, which took `start` to `schema`, and stored the target (or left the
   * version alone when there was nothing to undo).
   */
  predicate DownOutcome(cfg: Config, ms: seq<Migration>, current: int, target: int, start: Schema,
                        steps: nat, version: int, schema: Schema)
  {
    var plan := DownPlan(ms, current, target);
    && steps == |plan|
    && RunAll(cfg, plan, Backward, start) == Ok(schema)
    && version == (if plan == [] then current else target)
  }

  /**
   * The loop invariant of up. At the stored version `current`, with schema `start`, the first k0
   * migrations were applied; since then the migrations from index k0 up to index i have run,
   * never beyond the end of the plan. The schema is what the first i migrations make of the base
   * schema, and the stored version is that of the last migration run (still `current` when none
   * has run), so it counts exactly i migrations as applied.
   */
  predicate UpState(cfg: Config, ms: seq<Migration>, current: int, target: Option<int>, base: Schema,
                    start: Schema, k0: nat, i: nat, version: int, schema: Schema)
  {
    && Discovered(ms)
    && k0 == AppliedCount(ms, current) && k0 <= i <= Max(k0, Limit(ms, target))
    && RunAll(cfg, ms[..k0], Forward, base) == Ok(start)
    && RunAll(cfg, ms[..i], Forward, base) == Ok(schema)
    && AppliedCount(ms, version) == i
    && (i == k0 ==> version == current)
    && (k0 < i ==> version == ms[i - 1].version)
  }

  /** Up starts from a consistent state with nothing of its plan run yet. */
  lemma UpStart(cfg: Config, ms: seq<Migration>, current: int, target: Option<int>, base: Schema, start: Schema)
    requires Discovered(ms)
    requires RunAll(cfg, ms[..AppliedCount(ms, current)], Forward, base) == Ok(start)
    ensures UpState(cfg, ms, current, target, base, start, AppliedCount(ms, current), AppliedCount(ms, current),
                    current, start)
  {
    MaxBounds(ms, current, target);
  }

  /**
   * One completed migration of up: with ms[i] run and its version stored, the first i + 1
   * migrations now produce the schema, and the stored version counts exactly i + 1 of them.
   */
  lemma UpStep(cfg: Config, ms: seq<Migration>, current: int, target: Option<int>, base: Schema,
               start: Schema, k0: nat, i: nat, version: int, schema: Schema, next: Schema)
    requires UpState(cfg, ms, current, target, base, start, k0, i, version, schema)
    requires i < Max(k0, Limit(ms, target))
    requires Run(cfg, ms[i].up, schema) == Ok(next)
    ensures UpState(cfg, ms, current, target, base, start, k0, i + 1, ms[i].version, next)
  {
    assert ms[..i + 1] == ms[..i] + [ms[i]];
    RunAllSnoc(cfg, ms[..i], ms[i], Forward, base);
    AppliedCountAt(ms, ms[i].version, i + 1);
  }

  /** The first steps of an up plan are the slice of the discovered list that follows the applied ones. */
  lemma UpPrefix(ms: seq<Migration>, current: int, target: Option<int>, k0: nat, i: nat, steps: nat)
    requires k0 == AppliedCount(ms, current) && k0 <= i <= Max(k0, Limit(ms, target)) && steps == i - k0
    ensures steps <= |UpPlan(ms, current, target)|
    ensures UpPlan(ms, current, target)[..steps] == ms[k0..i]
    ensures steps < |UpPlan(ms, current, target)| ==> UpPlan(ms, current, target)[steps] == ms[i]
    ensures steps == |UpPlan(ms, current, target)| <==> i == Max(k0, Limit(ms, target))
  {
    MaxBounds(ms, current, target);
    assert UpPlan(ms, current, target) == ms[k0..Max(k0, Limit(ms, target))];
  }

  /** Running the first i migrations is running the first k0 and then the ones between. */
  lemma RunBetween(cfg: Config, ms: seq<Migration>, k0: nat, i: nat, base: Schema, start: Schema, schema: Schema)
    requires k0 <= i <= |ms|
    requires RunAll(cfg, ms[..k0], Forward, base) == Ok(start)
    requires RunAll(cfg, ms[..i], Forward, base) == Ok(schema)
    ensures RunAll(cfg, ms[k0..i], Forward, start) == Ok(schema)
  {
    assert ms[..i] == ms[..k0] + ms[k0..i];
    RunAllAppend(cfg, ms[..k0], ms[k0..i], Forward, base);
  }

  /** The stored version after the migrations from index k0 up to index i is the last of them. */
  lemma UpVersion(ms: seq<Migration>, k0: nat, i: nat, current: int, version: int)
    requires k0 <= i <= |ms|
    requires i == k0 ==> version == current
    requires k0 < i ==> version == ms[i - 1].version
    ensures version == VersionAfterUp(ms[k0..i], current)
  {
    if k0 < i {
      assert ms[k0..i][i - k0 - 1] == ms[i - 1];
    }
  }

  /**
   * Where up stands after running the migrations from index k0 (the first not applied at the
   * stored version `current`) up to index i: they are the first i - k0 of the plan, they took the
   * starting schema to the current one, and the stored version is the last one's.
   */
  lemma UpProgress(cfg: Config, ms: seq<Migration>, current: int, target: Option<int>,
                   base: Schema, start: Schema, k0: nat, i: nat, steps: nat, version: int, schema: Schema)
    requires k0 == AppliedCount(ms, current) && k0 <= i <= Max(k0, Limit(ms, target)) && steps == i - k0
    requires RunAll(cfg, ms[..k0], Forward, base) == Ok(start)
    requires RunAll(cfg, ms[..i], Forward, base) == Ok(schema)
    requires i == k0 ==> version == current
    requires k0 < i ==> version == ms[i - 1].version
    ensures steps <= |UpPlan(ms, current, target)|
    ensures RunAll(cfg, UpPlan(ms, current, target)[..steps], Forward, start) == Ok(schema)
    ensures version == VersionAfterUp(UpPlan(ms, current, target)[..steps], current)
    ensures steps < |UpPlan(ms, current, target)| ==> UpPlan(ms, current, target)[steps] == ms[i]
    ensures steps == |UpPlan(ms, current, target)| <==> i == Max(k0, Limit(ms, target))
  {
    MaxBounds(ms, current, target);
    UpPrefix(ms, current, target, k0, i, steps);
    RunBetween(cfg, ms, k0, i, base, start, schema);
    UpVersion(ms, k0, i, current, version);
  }

  /** A rejected migration of up: the run so far is the plan's prefix, and the plan as a whole fails. */
  lemma UpAborts(cfg: Config, ms: seq<Migration>, current: int, target: Option<int>, base: Schema,
                 start: Schema, k0: nat, i: nat, steps: nat, r: Outcome, version: int, schema: Schema)
    requires UpState(cfg, ms, current, target, base, start, k0, i, version, schema)
    requires i < Max(k0, Limit(ms, target)) && steps == i - k0
    requires r.Aborted? && r.version == ms[i].version
    requires Run(cfg, ms[i].up, schema) == StatementInvalid(r.reason)
    ensures UpOutcome(cfg, ms, current, target, start, steps, r, version, schema)
    ensures RunAll(cfg, ms[..AppliedCount(ms, version)], Forward, base) == Ok(schema)
  {
    UpProgress(cfg, ms, current, target, base, start, k0, i, steps, version, schema);
    RunAllStopsAt(cfg, UpPlan(ms, current, target), steps, Forward, start, schema);
  }

  /** Up ran its whole plan: the plan succeeded and the applied count is the larger of the old one and the target's. */
  lemma UpCompletes(cfg: Config, ms: seq<Migration>, current: int, target: Option<int>, base: Schema,
                    start: Schema, k0: nat, i: nat, steps: nat, r: Outcome, version: int, schema: Schema)
    requires UpState(cfg, ms, current, target, base, start, k0, i, version, schema)
    requires i == Max(k0, Limit(ms, target)) && steps == i - k0 && r.Completed?
    ensures UpOutcome(cfg, ms, current, target, start, steps, r, version, schema)
    ensures RunAll(cfg, ms[..AppliedCount(ms, version)], Forward, base) == Ok(schema)
    ensures AppliedCount(ms, version) == Max(AppliedCount(ms, current), Limit(ms, target))
  {
    UpProgress(cfg, ms, current, target, base, start, k0, i, steps, version, schema);
    var plan := UpPlan(ms, current, target);
    assert plan[..steps] == plan;
  }

  /**
   * The version down stores once it has undone ms[i]: that of the next older migration it will
   * still undo, or the target when there is none.
   */
  function StoredAfterUndo(ms: seq<Migration>, i: nat, target: int): int
    requires i <= |ms|
  {
    if 0 < i && target < ms[i - 1].version then ms[i - 1].version else target
  }

  /**
   * The loop invariant of down. At the stored version `current`, with schema `start`, the first
   * k0 migrations were applied; down has since undone those from index i up to k0, each above
   * the target. The schema is what the first i migrations make of the base schema, and the
   * stored version counts exactly i of them as applied.
   */
  ghost predicate DownState(cfg: Config, ms: seq<Migration>, current: int, target: int, base: Schema,
                            start: Schema, k0: nat, i: nat, version: int, schema: Schema)
  {
    && Discovered(ms) && DownReversible(cfg, ms, current, target)
    && k0 == AppliedCount(ms, current) && i <= k0
    && RunAll(cfg, ms[..k0], Forward, base) == Ok(start)
    && RunAll(cfg, ms[..i], Forward, base) == Ok(schema)
    && AppliedCount(ms, version) == i
    && (i < k0 ==> target < ms[i].version)
    && (i == k0 ==> version == current)
    && (i < k0 ==> version == StoredAfterUndo(ms, i, target))
  }

  /** Down starts from a consistent state with nothing undone yet. */
  lemma DownStart(cfg: Config, ms: seq<Migration>, current: int, target: int, base: Schema, start: Schema)
    requires Discovered(ms) && DownReversible(cfg, ms, current, target)
    requires RunAll(cfg, ms[..AppliedCount(ms, current)], Forward, base) == Ok(start)
    ensures DownState(cfg, ms, current, target, base, start, AppliedCount(ms, current), AppliedCount(ms, current),
                      current, start)
  {
  }

  /**
   * One migration undone by down: its down body cannot be rejected, it gives back the schema of
   * the first i - 1 migrations, and the version stored next counts exactly i - 1 as applied.
   */
  lemma DownStep(cfg: Config, ms: seq<Migration>, current: int, target: int, base: Schema,
                 start: Schema, k0: nat, i: nat, version: int, schema: Schema)
    requires DownState(cfg, ms, current, target, base, start, k0, i, version, schema)
    requires 0 < i && target < ms[i - 1].version
    ensures Run(cfg, ms[i - 1].down, schema).Ok?
    ensures DownState(cfg, ms, current, target, base, start, k0, i - 1, StoredAfterUndo(ms, i - 1, target),
                      Run(cfg, ms[i - 1].down, schema).schema)
  {
    BelowCount(ms, current, i - 1);
    assert InRange(ms[i - 1].version, target, Some(current));
    UndoLast(cfg, ms, i, base);
    AppliedCountAt(ms, StoredAfterUndo(ms, i - 1, target), i - 1);
  }

  /**
   * Where down stops, as indices: once the next migration to undo is at most the target (or none
   * is left), the migrations undone are exactly the ones of the down plan.
   */
  lemma DownStopsAt(ms: seq<Migration>, current: int, target: int, k0: nat, i: nat)
    requires Discovered(ms) && k0 == AppliedCount(ms, current) && i <= k0
    requires i < k0 ==> target < ms[i].version
    requires !(0 < i && target < ms[i - 1].version)
    ensures i == Min(AppliedCount(ms, current), AppliedCount(ms, target))
    ensures DownPlan(ms, current, target) == Reverse(ms[i..k0])
  {
    if target < current {
      AppliedCountMonotonic(ms, target, current);
      AppliedCountAt(ms, target, i);
    } else {
      AppliedCountMonotonic(ms, current, target);
      if i < k0 {
        BelowCount(ms, current, i);
      }
    }
  }

  /** Undoing the migrations from index k0 back to index i gives back the schema of the first i. */
  lemma DownRestores(cfg: Config, ms: seq<Migration>, i: nat, k0: nat, base: Schema, start: Schema, schema: Schema)
    requires i <= k0 <= |ms| && AllReversible(cfg, ms[i..k0])
    requires RunAll(cfg, ms[..k0], Forward, base) == Ok(start)
    requires RunAll(cfg, ms[..i], Forward, base) == Ok(schema)
    ensures RunAll(cfg, Reverse(ms[i..k0]), Backward, start) == Ok(schema)
  {
    assert ms[..k0] == ms[..i] + ms[i..k0];
    RunAllAppend(cfg, ms[..i], ms[i..k0], Forward, base);
    UpThenDownRestores(cfg, ms[i..k0], schema);
  }

  /**
   * Where down stops: the migrations it undid are exactly the down plan, running that plan
   * backward took the starting schema to the current one, and what remains applied is the
   * smaller of the old count and the target's.
   */
  lemma DownCompletes(cfg: Config, ms: seq<Migration>, current: int, target: int, base: Schema,
                      start: Schema, k0: nat, i: nat, steps: nat, version: int, schema: Schema)
    requires DownState(cfg, ms, current, target, base, start, k0, i, version, schema)
    requires !(0 < i && target < ms[i - 1].version) && steps == k0 - i
    ensures DownOutcome(cfg, ms, current, target, start, steps, version, schema)
    ensures RunAll(cfg, ms[..AppliedCount(ms, version)], Forward, base) == Ok(schema)
    ensures AppliedCount(ms, version) == Min(AppliedCount(ms, current), AppliedCount(ms, target))
  {
    DownStopsAt(ms, current, target, k0, i);
    DownReversibleSlice(cfg, ms, current, target, i, k0);
    DownRestores(cfg, ms, i, k0, base, start, schema);
  }

  class Migrator {
    /** The table-name configuration the schema_info table and every statement are resolved with. */
    const cfg: Config
    /** The discovered migrations, in ascending version order. */
    const migrations: seq<Migration>
    /** The schema as it was with no migration applied. */
    ghost const base: Schema
    /** The version stored in the schema_info table. */
    var version: int
    var schema: Schema

    /**
     * The stored version and the schema agree: the schema is exactly what running, in ascending
     * order, every migration whose version is at most the stored one makes of the base schema.
     */
    ghost predicate Valid()
      reads this
    {
      && Discovered(migrations)
      && RunAll(cfg, migrations[..AppliedCount(migrations, version)], Forward, base) == Ok(schema)
    }

    /** How many migrations the stored version says are applied. */
    ghost function Applied(): nat
      reads this
    {
      AppliedCount(migrations, version)
    }

    /** initialize_schema_information on a database no migration has touched: version 0. */
    constructor (cfg: Config, migrations: seq<Migration>, schema: Schema)
      requires Discovered(migrations)
      ensures Valid() && Applied() == 0
      ensures this.cfg == cfg && this.migrations == migrations
      ensures version == 0 && this.schema == schema && base == schema
    {
      this.cfg := cfg;
      this.migrations := migrations;
      base := schema;
      version := 0;
      this.schema := schema;
      NothingAppliedAtZero(migrations);
    }

    /**
     * up(target): runs, in ascending order, each migration above the stored version and at most
     * the target (every later one when there is no target), storing its version once it has run.
     * The first rejected statement stops the run: that migration leaves the schema as it was and
     * the stored version stays at the last migration that completed.
     */
    method Up(target: Option<int>) returns (steps: nat, r: Outcome)
      requires Valid()
      modifies this
      ensures Valid()
      ensures UpOutcome(cfg, migrations, old(version), target, old(schema), steps, r, version, schema)
      ensures r.Completed? ==> Applied() == Max(old(Applied()), Limit(migrations, target))
    {
      var i := AppliedCount(migrations, version);
      var stop := Max(i, if target.None? then |migrations| else AppliedCount(migrations, target.value));
      ghost var k0 := i;
      UpStart(cfg, migrations, version, target, base, schema);
      steps, r := 0, Completed;
      while i < stop
        invariant UpState(cfg, migrations, old(version), target, base, old(schema), k0, i, version, schema)
        invariant stop == Max(k0, Limit(migrations, target)) && steps == i - k0
      {
        var m := migrations[i];
        var res := Run(cfg, m.up, schema);
        if res.StatementInvalid? {
          r := Aborted(m.version, res.reason);
          UpAborts(cfg, migrations, old(version), target, base, old(schema), k0, i, steps, r, version, schema);
          return;
        }
        UpStep(cfg, migrations, old(version), target, base, old(schema), k0, i, version, schema, res.schema);
        schema := res.schema;
        version := m.version;
        i := i + 1;
        steps := steps + 1;
      }
      UpCompletes(cfg, migrations, old(version), target, base, old(schema), k0, i, steps, r, version, schema);
    }

    /**
     * down(target): undoes, in descending order, each migration at most the stored version and
     * above the target. After each one the stored version is that of the next older migration
     * still to undo, or the target once none remains. When the down of every migration in that
     * range undoes its up, no down body can be rejected from a valid state, so down always
     * completes; migrations outside the range are never run and need not be reversible.
     */
    method Down(target: int) returns (steps: nat)
      requires Valid() && DownReversible(cfg, migrations, version, target)
      modifies this
      ensures Valid()
      ensures DownOutcome(cfg, migrations, old(version), target, old(schema), steps, version, schema)
      ensures Applied() == Min(old(Applied()), AppliedCount(migrations, target))
    {
      var i := AppliedCount(migrations, version);
      ghost var k0 := i;
      DownStart(cfg, migrations, version, target, base, schema);
      steps := 0;
      while 0 < i && target < migrations[i - 1].version
        invariant DownState(cfg, migrations, old(version), target, base, old(schema), k0, i, version, schema)
        invariant steps == k0 - i
      {
        DownStep(cfg, migrations, old(version), target, base, old(schema), k0, i, version, schema);
        schema := Run(cfg, migrations[i - 1].down, schema).schema;
        i := i - 1;
        version := StoredAfterUndo(migrations, i, target);
        steps := steps + 1;
      }
      DownCompletes(cfg, migrations, old(version), target, base, old(schema), k0, i, steps, version, schema);
    }

    /**
     * migrate(target): no target, or one above the stored version, means up; a target below it
     * means down; the stored version itself means nothing to do. A completed run leaves exactly
     * the migrations the target asks for applied.
     */
    method Migrate(target: Option<int>) returns (steps: nat, r: Outcome)
      requires Valid()
      requires target.Some? && target.value < version ==> DownReversible(cfg, migrations, version, target.value)
      modifies this
      ensures Valid()
      ensures r.Completed? ==> Applied() == Limit(migrations, target)
      ensures target.Some? && target.value <= old(version) ==> r.Completed?
      ensures target.None? || old(version) < target.value ==>
                UpOutcome(cfg, migrations, old(version), target, old(schema), steps, r, version, schema)
      ensures target.Some? && target.value < old(version) ==>
                DownOutcome(cfg, migrations, old(version), target.value, old(schema), steps, version, schema)
      ensures target == Some(old(version)) ==> steps == 0 && version == old(version) && schema == old(schema)
      ensures old(Applied()) == Limit(migrations, target) ==>
                r.Completed? && steps == 0 && version == old(version) && schema == old(schema)
    {
      if Applied() == Limit(migrations, target) {
        SettledPlansEmpty(migrations, version, target);
      }
      if target.None? || version < target.value {
        if target.Some? {
          AppliedCountMonotonic(migrations, version, target.value);
        }
        steps, r := Up(target);
      } else if target.value < version {
        AppliedCountMonotonic(migrations, target.value, version);
        steps := Down(target.value);
        r := Completed;
      } else {
        steps, r := 0, Completed;
      }
    }
  }
}
