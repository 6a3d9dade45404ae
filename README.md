# ActiveRecord migration engine, modelled in Dafny

This project models the schema-migration engine of ActiveRecord as fixed by
`activerecord/test/migration_test.rb`:

- `ActiveRecord::Migrator` keeps one persisted schema version, the row of the `schema_info` table.
  It takes an ascending list of discovered migrations and runs them with `up`, `down` and `migrate`.
- Each migration has an up body and a down body. Each body is a sequence of schema statements:
  `create_table`, `drop_table`, `add_column`, `remove_column` and `rename_column`.
- Table names are resolved with `proper_table_name` and `schema_info_table_name`, under a global
  table-name prefix and suffix.

The database is abstract: a map from physical table name to the set of its column names. A
statement the adapter would reject yields `StatementInvalid` and changes nothing.

The Migrator is a class. Its fields are the stored `version` and the `schema`, and its methods
`Up`, `Down` and `Migrate` loop over the migration list. Its invariant, `Valid()`, says that the
schema is exactly what the migrations counted as applied at the stored version make of the
starting schema. Every method keeps that invariant. Building a Migrator and running `Up` need only
a discovered list. `Down`, and `Migrate` when it goes down, also need the down of every migration
they undo to undo its up. Migrations outside that range are never run and may be irreversible.

Each method's contract relates the run to a pure plan:

- `UpPlan`: the migrations above the current version and at most the target, in ascending order.
- `DownPlan`: the migrations at most the current version and above the target, in descending order.

Lemmas in `Plans` prove facts about those plans:

- the plans are ordered and contain exactly the migrations in range;
- running up and then down restores the schema;
- up in two stages equals one up;
- a full up and a full down have the expected effects;
- with the target already reached, both plans are empty.

The module `Scenarios` replays each `test_migrator*` case and the DDL tests on a database as
`teardown` leaves it. Each scenario proves the observations that test asserts.

Files:

- `wrappers.dfy`: `Option`.
- `table_names.dfy`: name resolution.
- `ddl.dfy`: the schema and its statements.
- `migrations.dfy`: the migration record, reversibility and the three fixture migrations.
- `plans.dfy`: pure plans and their lemmas.
- `migrator.dfy`: the Migrator class, with the loop invariants of up and down.
- `scenarios.dfy`: the tests as proved scenarios.

The table-name configuration is an explicit `Config` value, not global state. A Migrator holds
the configuration given at construction. Every statement resolves its table under that
configuration.

The test expects version 3 after a full up (line 216). It requires only the two fixture files for
versions 1 and 2 (lines 3-4). `teardown` also drops a `people_reminders` table (line 21). The
fixture list therefore has a third migration, version 3, that creates that join table. The engine
itself is generic over any positive, strictly ascending version list.

## Model

| member | source | states |
|---|---|---|
| TableNames.ProperTableName | activerecord/test/migration_test.rb:289-308 | `proper_table_name`: a string or symbol takes the global affixes, and a model takes its own non-empty prefix and suffix, each falling back to the global one. What it states is proved by the lemmas below: examples for both default and prefixed configurations, own affixes winning, affix-less models falling back to the global ones, per-affix fallback, and injectivity together with the strip/decorate round trip. |
| TableNames.SchemaInfoTableName | activerecord/test/migration_test.rb:280-287 | The version table's name is the global prefix, then `schema_info`, then the global suffix. This is the same rule `proper_table_name` applies to a plain name. |
| TableNames.SchemaInfoTableNameExamples | activerecord/test/migration_test.rb:280-287 | With `prefix_`/`_suffix` the name is `prefix_schema_info_suffix`. With empty affixes it is `schema_info`. |
| TableNames.DefaultTableNameExamples | activerecord/test/migration_test.rb:289-293 | With the default configuration, `'table'`/`:table` resolve to `table` and the Reminder model resolves to `reminders`, its own table name. |
| TableNames.PrefixedTableNameExamples | activerecord/test/migration_test.rb:295-308 | Reminder with its own `prefix_`/`_suffix` resolves to `prefix_reminders_suffix` despite the global `ARprefix_`/`_ARsuffix`. A plain name under the global `prefix_`/`_suffix` resolves to `prefix_table_suffix`. |
| TableNames.EmptyConfigIsIdentity | activerecord/test/migration_test.rb:289-293 | With empty affixes, every name, and every model without its own affixes, resolves to itself. |
| TableNames.ModelOwnAffixesWin | activerecord/test/migration_test.rb:295-300 | A model with its own prefix and suffix resolves the same under every global configuration, and its name strips back to the model's own name. |
| TableNames.ModelAffixesFallBackSeparately | activerecord/test/migration_test.rb:295-302 | A model with only its own prefix takes the global suffix, and one with only its own suffix takes the global prefix. Each affix falls back separately. |
| TableNames.ModelFallsBackToGlobal | activerecord/test/migration_test.rb:301-308 | A model whose own affixes are empty resolves exactly like its bare name, so it takes the global affixes. |
| TableNames.UndecorateDecorate | activerecord/test/migration_test.rb:304-308 | Stripping the prefix and suffix that were added gives the logical name back. In particular, a string or symbol resolves to exactly the global prefix, the name and the global suffix, whatever the affixes are. |
| TableNames.DecorateUndecorate | activerecord/test/migration_test.rb:304-308 | A physical name that strips to n is exactly n with the affixes added. |
| TableNames.ProperTableNameInjective | activerecord/test/migration_test.rb:304-308 | Under one configuration, two distinct logical names never resolve to the same physical table. |
| Ddl.Apply | activerecord/test/migration_test.rb:49-58 | One schema statement (`create_table`, `drop_table`, `add_column`, `remove_column`, `rename_column`) on the table `proper_table_name` resolves. A statement the adapter would reject yields `StatementInvalid`. Its partners: `Ddl.CreateTableAddsId` (the new table holds the requested columns and `id`), `Ddl.ApplyFrame` (other tables are untouched), `Ddl.ApplyInvert` (each statement except `drop_table` is undone by its inverse), and the scenarios `AddRemoveSingleField` and `AddRename` (lines 135-181). |
| Ddl.CreateTableAddsId | activerecord/test/migration_test.rb:49-58 | `create_table` on an absent table succeeds, and the new table holds exactly the requested columns plus `id`. |
| Ddl.ApplyFrame | activerecord/test/migration_test.rb:135-161 | A successful statement changes only its own table. Every other table is present exactly as before, with the same columns. |
| Ddl.ApplyInvert | activerecord/test/migration_test.rb:135-161 | Each statement except `drop_table` has an inverse, and applying the inverse after the statement gives back the schema it started from. |
| Ddl.RunInverse | activerecord/test/migration_test.rb:198-208 | A body written as statement-by-statement inverses, in reverse order, undoes the body: the starting schema comes back. |
| Migrations.PeopleHaveLastNames | activerecord/test/migration_test.rb:3 | Fixture version 1: up adds `people.last_name`, and down removes it. `Migrations.FixturesReversible` proves it reversible, and `Scenarios.StageObservations` proves `last_name` is visible exactly from stage 1. |
| Migrations.WeNeedReminders | activerecord/test/migration_test.rb:4 | Fixture version 2: up creates `reminders` with `content` and `remind_at`, and down drops it. `Migrations.WeNeedRemindersRoundTrip` proves the round trip under every configuration. |
| Migrations.InnocentJointable | activerecord/test/migration_test.rb:21 | Fixture version 3: up creates the `people_reminders` join table that `teardown` drops, and down drops it. It is reversible by `Migrations.FixturesReversible`. |
| Migrations.Fixtures | activerecord/test/migration_test.rb:214-216 | The discovered fixture list, versions 1, 2 and 3 in order. `Scenarios.FixtureCounts` proves it discovered and that versions 0 to 3 count 0 to 3 of its entries. `Scenarios.FixtureStages` proves what running its prefixes does. |
| Migrations.DownInvertsUpIsReversible | activerecord/test/migration_test.rb:198-208 | A migration whose down is the inverse of its up is reversible: from every schema where up succeeds, down restores that schema. |
| Migrations.FixturesReversible | activerecord/test/migration_test.rb:3-4 | Every fixture migration is reversible under every table-name configuration. |
| Migrations.WeNeedRemindersRoundTrip | activerecord/test/migration_test.rb:198-208 | `WeNeedReminders.up` succeeds where the Reminder table is absent and creates it with `content` and `remind_at`. `.down` makes it absent again and returns the exact schema from before up. This holds for every configuration. |
| Plans.AppliedCount | activerecord/test/migration_test.rb:214-216 | The applied count at a stored version is at most the list length, and the first migration not counted is above that version. |
| Plans.AppliedCountAt | activerecord/test/migration_test.rb:216 | On a discovered list, the count is the index k whose neighbour below is at most the version and whose neighbour above is greater than it. |
| Plans.BelowCount | activerecord/test/migration_test.rb:216 | Every migration counted as applied has a version at most the stored one. |
| Plans.CountedBelow | activerecord/test/migration_test.rb:216 | On a discovered list, every migration whose version is at most the stored one is counted. |
| Plans.AboveCount | activerecord/test/migration_test.rb:216 | On a discovered list, no migration from the count onward has a version at most the stored one. |
| Plans.AppliedCountMonotonic | activerecord/test/migration_test.rb:265-272 | A higher version never counts fewer migrations as applied. |
| Plans.NothingAppliedAtZero | activerecord/test/migration_test.rb:17-18 | Version 0 counts no discovered migration as applied. |
| Plans.UpPlan | activerecord/test/migration_test.rb:234-244 | The migrations `up(target)` runs. `Plans.UpPlanOrdered` proves it holds exactly the migrations above the current version and at most the target, in strictly ascending order. `Plans.UpInStages` shows that up to 1 then up to 2 is a single up to 2, and `Plans.FullUp` shows that with no target every later migration runs. |
| Plans.DownPlan | activerecord/test/migration_test.rb:247-263 | The migrations `down(target)` undoes. `Plans.DownPlanOrdered` proves it holds exactly the migrations at most the current version and above the target, in strictly descending order. `Plans.FullDownRestores` proves that down to 0 undoes the whole applied prefix and restores the schema. |
| Plans.UpPlanOrdered | activerecord/test/migration_test.rb:234-241 | An up plan is in strictly ascending version order. It holds exactly the discovered migrations whose version is above the current one and at most the target. |
| Plans.SliceInRange | activerecord/test/migration_test.rb:234-241 | A slice of the discovered list holds exactly the migrations in its version range. |
| Plans.DownPlanOrdered | activerecord/test/migration_test.rb:247-263 | A down plan is in strictly descending version order. It holds exactly the discovered migrations whose version is at most the current one and above the target. |
| Plans.RunAllStopsAt | activerecord/test/migration_test.rb:214 | A plan whose first k migrations succeed and whose next one is rejected fails as a whole. |
| Plans.UpThenDownRestores | activerecord/test/migration_test.rb:210-228 | After a plan of reversible migrations has run forward, running the same migrations backward, newest first, restores the starting schema. |
| Plans.UndoLast | activerecord/test/migration_test.rb:247-255 | Undoing the i-th migration from the schema of the first i gives exactly the schema of the first i - 1. |
| Plans.UpPlanAppliedCount | activerecord/test/migration_test.rb:230-245 | After an up plan, the version it leaves counts as applied the larger of the old count and the target's. |
| Plans.UpInStages | activerecord/test/migration_test.rb:230-245 | Up to t1 followed by up to a target t2 (with t1 at most t2, or no t2) runs exactly the migrations of a single up to t2, in the same order. |
| Plans.SettledPlansEmpty | activerecord/test/migration_test.rb:265-272 | When the applied count is already the one the target asks for, both the up plan and the down plan for that target are empty. |
| Plans.FullUp | activerecord/test/migration_test.rb:214-216 | Starting below the newest version, up with no target stores the newest discovered version, and every migration counts as applied. |
| Plans.FullDownRestores | activerecord/test/migration_test.rb:222-227 | When every applied migration is reversible, down to 0 undoes every applied migration, newest first, and restores the schema from before any of them ran. |
| Engine.CheckDiscovered | activerecord/test/migration_test.rb:214 | The check on the discovered list accepts it exactly when its versions are positive and strictly ascending. On a list in version order, as discovery yields it, that refuses exactly a duplicate or a non-positive version. |
| Plans.DownReversibleSlice | activerecord/test/migration_test.rb:222-227 | When every migration in down's range is reversible, so is each applied migration from the first one above the target onward. These are the ones down undoes. |
| Engine.UpStep | activerecord/test/migration_test.rb:214-216 | After one more migration of up runs and its version is stored, the first i + 1 migrations give the schema, and the stored version counts exactly i + 1 of them. |
| Engine.UpProgress | activerecord/test/migration_test.rb:234-241 | After up has run from the first unapplied migration to index i: <br>- those migrations are the first i - k0 of the plan; <br>- they took the starting schema to the current one; <br>- the stored version is that of the last migration run. |
| Engine.UpAborts | activerecord/test/migration_test.rb:214 | A rejected migration stops up. The migrations already run are a prefix of the plan, the plan as a whole fails, and the model stays consistent. |
| Engine.UpCompletes | activerecord/test/migration_test.rb:214-216 | Once up has run its whole plan, the plan succeeds and the stored version counts as applied the larger of the old count and the target's. |
| Engine.DownStep | activerecord/test/migration_test.rb:222-224 | One step of down cannot be rejected from a consistent state. It gives back the schema of the first i - 1 migrations, and the version stored next counts exactly i - 1 of them. |
| Engine.DownStopsAt | activerecord/test/migration_test.rb:250 | Where down stops, the migrations it undid are exactly the down plan. What remains is the smaller of the old count and the target's. |
| Engine.DownRestores | activerecord/test/migration_test.rb:222-227 | Undoing the migrations from index k0 back to index i gives back the schema of the first i. |
| Engine.DownCompletes | activerecord/test/migration_test.rb:222-227 | When down ends: <br>- it ran the whole down plan backward; <br>- the schema is what that plan makes of the starting one; <br>- the stored version is the target (or unchanged when nothing was undone); <br>- the invariant holds. |
| Engine.Migrator.constructor | activerecord/test/migration_test.rb:17-18 | A freshly initialised version store holds version 0 with nothing applied, and the invariant holds. It requires only a discovered migration list. |
| Engine.Migrator.Up | activerecord/test/migration_test.rb:214-220 | Up keeps the invariant. It runs a prefix of the up plan, in order, and reports completion exactly when the whole plan ran, which is exactly when the whole plan succeeds. It stores the last migration run. An aborted run names the next migration and the reason its body was rejected. A completed run leaves the target's count applied. |
| Engine.Migrator.Down | activerecord/test/migration_test.rb:222-227 | When the down of every migration at most the stored version and above the target undoes its up (`Plans.DownReversible`; the others may be irreversible), down keeps the invariant, runs the whole down plan backward, stores the target (or leaves the version alone when there was nothing to undo), and leaves applied the smaller of the old count and the target's. |
| Engine.Migrator.Migrate | activerecord/test/migration_test.rb:265-277 | No target, or one above the stored version, behaves as up. A target below it behaves as down, which always completes and is the only case that needs reversibility, of the migrations that down undoes. The stored version itself is a no-op. A completed run leaves exactly the target's migrations applied. Once the target is reached, migrating to it again changes nothing. |
| Scenarios.FixtureStages | activerecord/test/migration_test.rb:214-220 | On a database as `teardown` leaves it, the first k fixtures run forward successfully and give stage k. |
| Scenarios.StageObservations | activerecord/test/migration_test.rb:211-219 | At stage k, `last_name` is visible exactly from stage 1 on, and the Reminder table (with `content` and `remind_at`) exists exactly from stage 2 on. |
| Scenarios.FixtureCounts | activerecord/test/migration_test.rb:216 | The fixtures are a discovered list, and versions 0 to 3 count 0 to 3 of them as applied. |
| Scenarios.MigratorUpAndDown | activerecord/test/migration_test.rb:210-228 | A full up stores version 3, with `last_name` and `reminders` present. A full down then stores 0 and gives back the original database, with neither of them present. |
| Scenarios.MigratorOneUp | activerecord/test/migration_test.rb:230-245 | Up to 1 adds `last_name` but no Reminder table. A further up to 2 stores version 2 and adds the Reminder table. |
| Scenarios.MigratorOneDown | activerecord/test/migration_test.rb:247-255 | After a full up, down to 1 stores version 1, keeps `last_name` and drops the Reminder table. |
| Scenarios.MigratorOneUpOneDown | activerecord/test/migration_test.rb:257-263 | Up to 1 then down to 0 stores 0 and gives back the original database. |
| Scenarios.MigratorGoingDownDueToVersionTarget | activerecord/test/migration_test.rb:265-278 | After up to 1, migrate to 0 goes down and removes `last_name`. Migrate with no target then stores version 3 with `last_name` and the Reminder table present. |
| Scenarios.AddRemoveSingleField | activerecord/test/migration_test.rb:135-161 | `add_column` makes `last_name` visible, and `remove_column` hides it again and returns the exact schema from before. |
| Scenarios.AddRename | activerecord/test/migration_test.rb:163-181 | `add_column` then `rename_column` leaves `people` with `exgirlfriend`, without `girlfriend`, and otherwise unchanged. |
| Scenarios.AddDropTableWithPrefixAndSuffix | activerecord/test/migration_test.rb:313-327 | Under the global `prefix_`/`_suffix`, `WeNeedReminders.up` creates `prefix_reminders_suffix` with both columns, and `.down` returns the exact schema from before. |

## Left out

- SQL execution and the connection adapter are replaced by the abstract schema of `Ddl`. Raw `execute` is not modelled.
- Indexes (`add_index`/`remove_index`, lines 35-47) are not modelled. These tests only assert that nothing is raised.
- `change_column` (lines 183-196) is not modelled. It changes only a column's type or default, which the abstract schema does not record.
- Column defaults and NOT NULL constraints (lines 60-106, 188-196) are left out. They are enforced by the database, not the engine.
- Native column types and typed read-back (lines 108-133) are left out, as is the row data of `test_add_rename` (`bobette`, lines 164-175). Records, floats and times belong to the record-mapping layer. Only the presence or absence of tables and columns is modelled.
- Record-mapping calls (`Person.create/find`, `column_methods_hash`, `reset_column_information`) are left out. Each scenario observes their outcome as a predicate on the schema.
- Scanning the migrations directory, loading the files and sorting them by version (lines 3-4 and the path arguments) are left out. The discovered migrations are a given list in ascending version order. On such a list `Engine.CheckDiscovered` refuses exactly a duplicate or a non-positive version, as discovery does. Discovery would sort an out-of-order list; refusing it is the model's own check, standing in for that sort.
- `teardown`'s best-effort `rescue nil` cleanup (lines 20-31) is left out. Scenarios start from the state it leaves instead (`Scenarios.Fresh`).
- The process-wide table-name prefix and suffix, assigned and reset in lines 281-285 and 296-310, are an explicit `Config` parameter. A change of configuration is a new `Config` value.
- Engine.Migrator.Up: a rejected migration leaves the schema as it was before its first statement. Per-migration atomicity is assumed, so a partly applied body on a database without transactional DDL is not modelled.
- Engine.Migrator.Down: the contract fixes only the final stored version. Between steps the loop stores the version of the next older migration still to undo, or the target once none remains, but the tests observe only the final version.
- Engine.Migrator.Down: requires each migration it undoes, those at most the stored version and above the target, to be reversible (`Plans.DownReversible`). From every schema where its up succeeds, its down must give that schema back. Migrations outside that range need not be reversible. The invariant relates the schema to the forward run of the applied migrations, and a down that did not invert its up would break that relation. With this precondition no down body can be rejected, so down has no error path. A down that the database rejects is outside what `Down` covers. So is undoing a migration whose up drops a table: no down restores the table in every schema. That includes a down that recreates the table exactly as it was in the one schema the run reached, because reversibility is asked of every schema, not only of the one reached. `Up` and the constructor do not need this precondition.
- Engine.Migrator.Migrate: when the target is below the stored version, it requires the same reversibility as `Down`, of the migrations between the target and the stored version, for the same reason.
- Engine.Migrator.Down: the default target 0 of `down` is not a default parameter. Callers pass 0 explicitly.
- The version store is the Migrator's `version` field. The `schema_info` table is kept outside the abstract schema, so a migration that creates or drops a table named `schema_info` is not rejected. Its name is `TableNames.SchemaInfoTableName`.
- TableNames.ProperTableName: when a model sets only one of its own affixes, the model takes the other from the global configuration (`TableNames.ModelAffixesFallBackSeparately`). The other reading is all-or-nothing: a model that sets either affix uses its own pair, with the unset one empty. The two differ: under `Config("g_", "_g")`, `Model("n", "p_", "")` is `p_n_g` here and `p_n` under the all-or-nothing reading. The tests set both affixes or neither (lines 298-302), so they do not decide between the readings, and the per-affix one is a choice.
- The current-version query used at lines 216 and 224 is the Migrator's `version` field.
- Concurrency, timeouts and the connection's global state are not modelled.
