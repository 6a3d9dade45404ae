/**
 * The migrator scenarios of migration_test.rb, run on the fixture migrations under the default
 * (empty) table-name configuration: what each test observes through the Person and Reminder
 * models after each call to up, down and migrate.
 */
module Scenarios {

  import opened Wrappers
  import opened TableNames
  import opened Ddl
  import opened Migrations
  import opened Plans
  import opened Engine

  /**
   * The database as teardown leaves it: the people table without last_name, and neither the
   * reminders table nor the join table.
   */
  predicate Fresh(s: Schema)
  {
    && "people" in s && "last_name" !in s["people"]
    && "reminders" !in s && "people_reminders" !in s
  }

  /** Person.column_methods_hash includes :last_name. */
  predicate HasLastName(s: Schema)
  {
    var t := ProperTableName(NoAffixes, Person);
    t in s && "last_name" in s[t]
  }

  /** Reminder.create("content" => ..., "remind_at" => ...) can succeed: the table and both columns exist. */
  predicate HasReminders(s: Schema)
  {
    var t := ProperTableName(NoAffixes, Reminder);
    t in s && {"content", "remind_at"} <= s[t]
  }

  /** Reading Reminder's columns raises StatementInvalid: its table does not exist. */
  predicate NoReminders(s: Schema)
  {
    ProperTableName(NoAffixes, Reminder) !in s
  }

  /** The schema once the first k fixture migrations have run on a fresh database. */
  function Stage(s: Schema, k: nat): Schema
    requires Fresh(s) && k <= 3
  {
    if k == 0 then s
    else if k == 1 then s["people" := s["people"] + {"last_name"}]
    else if k == 2 then Stage(s, 1)["reminders" := {"content", "remind_at", "id"}]
    else Stage(s, 2)["people_reminders" := {"reminder_id", "person_id", "id"}]
  }

  /** The k-th fixture's up body takes stage k - 1 to stage k. */
  lemma FixtureStep(s: Schema, k: nat)
    requires Fresh(s) && 1 <= k <= 3
    ensures Run(NoAffixes, Fixtures[k - 1].up, Stage(s, k - 1)) == Ok(Stage(s, k))
  {
    var op := Fixtures[k - 1].up[0];
    var before := Stage(s, k - 1);
    EmptyConfigIsIdentity(op.table);
    if k == 1 {
      assert Apply(NoAffixes, op, before) == Ok(Stage(s, 1));
    } else if k == 2 {
      assert {"content", "remind_at"} + {"id"} == {"content", "remind_at", "id"};
      assert Apply(NoAffixes, op, before) == Ok(Stage(s, 2));
    } else {
      assert {"reminder_id", "person_id"} + {"id"} == {"reminder_id", "person_id", "id"};
      assert before == Stage(s, 1)["reminders" := {"content", "remind_at", "id"}];
      assert "people_reminders" !in Stage(s, 1);
      assert Apply(NoAffixes, op, before) == Ok(Stage(s, 3));
    }
    assert Run(NoAffixes, Fixtures[k - 1].up, before) == Run(NoAffixes, [], Stage(s, k));
  }

  /** Running the first k fixtures forward on a fresh database succeeds and gives Stage(s, k). */
  lemma {:induction false} FixtureStages(s: Schema, k: nat)
    requires Fresh(s) && k <= 3
    ensures RunAll(NoAffixes, Fixtures[..k], Forward, s) == Ok(Stage(s, k))
  {
    if 0 < k {
      FixtureStages(s, k - 1);
      FixtureStep(s, k);
      assert Fixtures[..k] == Fixtures[..k - 1] + [Fixtures[k - 1]];
      RunAllSnoc(NoAffixes, Fixtures[..k - 1], Fixtures[k - 1], Forward, s);
    }
  }

  /** What the tests observe at each stage: last_name from the first fixture on, reminders from the second. */
  lemma StageObservations(s: Schema, k: nat)
    requires Fresh(s) && k <= 3
    ensures HasLastName(Stage(s, k)) <==> 1 <= k
    ensures HasReminders(Stage(s, k)) <==> 2 <= k
    ensures NoReminders(Stage(s, k)) <==> k < 2
  {
    EmptyConfigIsIdentity("people");
    EmptyConfigIsIdentity("reminders");
  }

  /** A migrator over the fixtures on a fresh database: its schema is the stage its stored version names. */
  lemma MigratorStage(m: Migrator, s: Schema)
    requires m.Valid() && m.cfg == NoAffixes && m.migrations == Fixtures && m.base == s && Fresh(s)
    ensures m.Applied() <= 3 && m.schema == Stage(s, m.Applied())
  {
    FixtureStages(s, m.Applied());
  }

  /** Versions 0 to 3 count 0 to 3 fixtures as applied. */
  lemma FixtureCounts()
    ensures Discovered(Fixtures)
    ensures forall v :: 0 <= v <= 3 ==> AppliedCount(Fixtures, v) == v
  {
    forall v | 0 <= v <= 3 ensures AppliedCount(Fixtures, v) == v {
      AppliedCountAt(Fixtures, v, v);
    }
  }

  /** With nothing applied, the full up plan is every fixture, and it succeeds on a fresh database. */
  lemma FullUpPlan(s: Schema, current: int)
    requires Fresh(s) && AppliedCount(Fixtures, current) == 0
    ensures UpPlan(Fixtures, current, None) == Fixtures[..3]
    ensures RunAll(NoAffixes, UpPlan(Fixtures, current, None), Forward, s).Ok?
  {
    FixtureCounts();
    FixtureStages(s, 3);
  }

  /** The up plan from version 0 to version 1 is the first fixture, and it succeeds on a fresh database. */
  lemma FirstUpPlan(s: Schema)
    requires Fresh(s)
    ensures UpPlan(Fixtures, 0, Some(1)) == Fixtures[..1]
    ensures RunAll(NoAffixes, UpPlan(Fixtures, 0, Some(1)), Forward, s).Ok?
  {
    FixtureCounts();
    FixtureStages(s, 1);
  }

  /**
   * test_migrator: up with no target applies all three fixtures and stores version 3; down to 0
   * then undoes them all, stores version 0 and gives back the original database.
   */
  method MigratorUpAndDown(s: Schema) returns (upVersion: int, upSchema: Schema, downVersion: int, downSchema: Schema)
    requires Fresh(s)
    ensures upVersion == 3 && HasLastName(upSchema) && HasReminders(upSchema)
    ensures downVersion == 0 && downSchema == s && !HasLastName(downSchema) && NoReminders(downSchema)
  {
    FixturesReversible(NoAffixes);
    var m := new Migrator(NoAffixes, Fixtures, s);
    FullUpPlan(s, 0);
    var steps, r := m.Up(None);
    assert UpPlan(Fixtures, 0, None)[..steps] == Fixtures[..3];
    MigratorStage(m, s);
    StageObservations(s, 3);
    upVersion, upSchema := m.version, m.schema;
    steps := m.Down(0);
    MigratorStage(m, s);
    StageObservations(s, 0);
    downVersion, downSchema := m.version, m.schema;
  }

  /**
   * test_migrator_one_up: up to 1 adds last_name but not the reminders table; a further up to 2
   * creates it.
   */
  method MigratorOneUp(s: Schema) returns (firstSchema: Schema, secondVersion: int, secondSchema: Schema)
    requires Fresh(s)
    ensures HasLastName(firstSchema) && NoReminders(firstSchema)
    ensures secondVersion == 2 && HasLastName(secondSchema) && HasReminders(secondSchema)
  {
    FixturesReversible(NoAffixes);
    var m := new Migrator(NoAffixes, Fixtures, s);
    FirstUpPlan(s);
    var steps, r := m.Up(Some(1));
    MigratorStage(m, s);
    StageObservations(s, 1);
    firstSchema := m.schema;
    assert m.version == 1;
    FixtureStages(s, 2);
    FixtureCounts();
    assert UpPlan(Fixtures, 1, Some(2)) == [Fixtures[1]];
    assert Fixtures[..2] == Fixtures[..1] + [Fixtures[1]];
    RunAllSnoc(NoAffixes, Fixtures[..1], Fixtures[1], Forward, s);
    steps, r := m.Up(Some(2));
    assert UpPlan(Fixtures, 1, Some(2))[..steps] == [Fixtures[1]];
    MigratorStage(m, s);
    StageObservations(s, 2);
    secondVersion, secondSchema := m.version, m.schema;
  }

  /** test_migrator_one_down: after a full up, down to 1 keeps last_name and removes the reminders table. */
  method MigratorOneDown(s: Schema) returns (version: int, schema: Schema)
    requires Fresh(s)
    ensures version == 1 && HasLastName(schema) && NoReminders(schema)
  {
    FixturesReversible(NoAffixes);
    var m := new Migrator(NoAffixes, Fixtures, s);
    FullUpPlan(s, 0);
    var steps, r := m.Up(None);
    var _ := m.Down(1);
    MigratorStage(m, s);
    StageObservations(s, 1);
    version, schema := m.version, m.schema;
  }

  /** test_migrator_one_up_one_down: up to 1 and then down to 0 leaves neither last_name nor reminders. */
  method MigratorOneUpOneDown(s: Schema) returns (version: int, schema: Schema)
    requires Fresh(s)
    ensures version == 0 && schema == s && !HasLastName(schema) && NoReminders(schema)
  {
    FixturesReversible(NoAffixes);
    var m := new Migrator(NoAffixes, Fixtures, s);
    FirstUpPlan(s);
    var steps, r := m.Up(Some(1));
    assert m.version == 1;
    steps := m.Down(0);
    MigratorStage(m, s);
    StageObservations(s, 0);
    version, schema := m.version, m.schema;
  }

  /**
   * test_migrator_going_down_due_to_version_target: after up to 1, migrate to 0 goes down and
   * removes last_name; migrate with no target then goes up through every fixture.
   */
  method MigratorGoingDownDueToVersionTarget(s: Schema) returns (downSchema: Schema, upVersion: int, upSchema: Schema)
    requires Fresh(s)
    ensures !HasLastName(downSchema) && NoReminders(downSchema)
    ensures upVersion == 3 && HasLastName(upSchema) && HasReminders(upSchema)
  {
    FixturesReversible(NoAffixes);
    var m := new Migrator(NoAffixes, Fixtures, s);
    assert AllReversible(NoAffixes, m.migrations);
    FirstUpPlan(s);
    var steps, r := m.Up(Some(1));
    assert m.version == 1;
    steps, r := m.Migrate(Some(0));
    assert m.version == 0;
    MigratorStage(m, s);
    StageObservations(s, 0);
    downSchema := m.schema;
    ghost var v := m.version;
    FullUpPlan(s, v);
    steps, r := m.Migrate(None);
    assert UpPlan(Fixtures, v, None)[..steps] == Fixtures[..3];
    MigratorStage(m, s);
    StageObservations(s, 3);
    upVersion, upSchema := m.version, m.schema;
  }

  /**
   * test_add_remove_single_field_using_string_arguments / _using_symbol_arguments (a string and a
   * symbol name the same table): add_column makes last_name visible, remove_column hides it again
   * and gives back the schema it started from.
   */
  lemma AddRemoveSingleField(s: Schema)
    requires "people" in s && "last_name" !in s["people"]
    ensures var added := Apply(NoAffixes, AddColumn("people", "last_name"), s);
            && added.Ok? && HasLastName(added.schema)
            && Apply(NoAffixes, RemoveColumn("people", "last_name"), added.schema) == Ok(s)
            && !HasLastName(s)
  {
    EmptyConfigIsIdentity("people");
    ApplyInvert(NoAffixes, AddColumn("people", "last_name"), s);
  }

  /** test_add_rename: after add_column and rename_column the people table has exgirlfriend and no girlfriend. */
  lemma AddRename(s: Schema)
    requires "people" in s && "girlfriend" !in s["people"] && "exgirlfriend" !in s["people"]
    ensures var r := Run(NoAffixes, [AddColumn("people", "girlfriend"),
                                     RenameColumn("people", "girlfriend", "exgirlfriend")], s);
            && r.Ok? && "people" in r.schema
            && r.schema["people"] == s["people"] + {"exgirlfriend"}
            && "girlfriend" !in r.schema["people"]
  {
    EmptyConfigIsIdentity("people");
    var rename := RenameColumn("people", "girlfriend", "exgirlfriend");
    var t := s["people" := s["people"] + {"girlfriend"}];
    var u := t["people" := t["people"] - {"girlfriend"} + {"exgirlfriend"}];
    assert Apply(NoAffixes, AddColumn("people", "girlfriend"), s) == Ok(t);
    assert Apply(NoAffixes, rename, t) == Ok(u);
    assert Run(NoAffixes, [rename], t) == Run(NoAffixes, [], u);
    assert [AddColumn("people", "girlfriend"), rename][1..] == [rename];
    assert t["people"] - {"girlfriend"} + {"exgirlfriend"} == s["people"] + {"exgirlfriend"};
  }

  /**
   * test_add_drop_table_with_prefix_and_suffix: with the global prefix "prefix_" and suffix
   * "_suffix", WeNeedReminders creates prefix_reminders_suffix with content and remind_at, and
   * its down drops that table again.
   */
  lemma AddDropTableWithPrefixAndSuffix(s: Schema)
    requires "prefix_reminders_suffix" !in s
    ensures var cfg := Config("prefix_", "_suffix");
            var up := Run(cfg, WeNeedReminders.up, s);
            && up.Ok? && "prefix_reminders_suffix" in up.schema
            && {"content", "remind_at"} <= up.schema["prefix_reminders_suffix"]
            && Run(cfg, WeNeedReminders.down, up.schema) == Ok(s)
  {
    var cfg := Config("prefix_", "_suffix");
    assert "prefix_" + "reminders" + "_suffix" == "prefix_reminders_suffix";
    assert ProperTableName(cfg, Reminder) == "prefix_reminders_suffix";
    WeNeedRemindersRoundTrip(cfg, s);
  }
}
