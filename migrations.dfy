/**
 * A migration: a versioned unit with an up body and a down body, and the fixture
 * migrations the migrator tests load from fixtures/migrations/.
 */
module Migrations {

  import opened TableNames
  import opened Ddl

  datatype Migration = Migration(version: int, name: string, up: seq<Op>, down: seq<Op>)

  /** The direction a Migrator runs in, and so which body of each migration it sends. */
  datatype Direction = Forward | Backward

  function Body(m: Migration, dir: Direction): seq<Op>
  {
    if dir == Forward then m.up else m.down
  }

  /** down undoes up exactly: from every schema where up succeeds, down brings the schema back. */
  ghost predicate Reversible(cfg: Config, m: Migration)
  {
    forall s :: RestoresAfterUp(cfg, m, s)
  }

  /** Where up succeeds on s, down brings s back. */
  predicate RestoresAfterUp(cfg: Config, m: Migration, s: Schema)
  {
    Run(cfg, m.up, s).Ok? ==> Run(cfg, m.down, Run(cfg, m.up, s).schema) == Ok(s)
  }

  /** A down body written as the statement-by-statement inverse of the up body. */
  predicate DownInvertsUp(m: Migration)
  {
    AllInvertible(m.up) && m.down == Inverse(m.up)
  }

  lemma DownInvertsUpIsReversible(cfg: Config, m: Migration)
    requires DownInvertsUp(m)
    ensures Reversible(cfg, m)
  {
    forall s ensures RestoresAfterUp(cfg, m, s) {
      if Run(cfg, m.up, s).Ok? {
        RunInverse(cfg, m.up, s);
      }
    }
  }

  /** The model classes the tests observe tables through. */
  const Person: TableRef := Model("people", "", "")
  const Reminder: TableRef := Model("reminders", "", "")

  /** fixtures/migrations/1_people_have_last_names.rb */
  const PeopleHaveLastNames: Migration :=
    Migration(1, "PeopleHaveLastNames",
              [AddColumn("people", "last_name")],
              [RemoveColumn("people", "last_name")])

  /** fixtures/migrations/2_we_need_reminders.rb */
  const WeNeedReminders: Migration :=
    Migration(2, "WeNeedReminders",
              [CreateTable("reminders", {"content", "remind_at"})],
              [DropTable("reminders")])

  /** The third fixture, the join table that teardown also drops. */
  const InnocentJointable: Migration :=
    Migration(3, "InnocentJointable",
              [CreateTable("people_reminders", {"reminder_id", "person_id"})],
              [DropTable("people_reminders")])

  /** What discovery of fixtures/migrations/ yields, in version order. */
  const Fixtures: seq<Migration> := [PeopleHaveLastNames, WeNeedReminders, InnocentJointable]

  /** Every fixture's down undoes its up, whatever the table-name configuration. */
  lemma FixturesReversible(cfg: Config)
    ensures forall i :: 0 <= i < |Fixtures| ==> Reversible(cfg, Fixtures[i])
  {
    assert DownInvertsUp(PeopleHaveLastNames);
    assert DownInvertsUp(WeNeedReminders);
    assert DownInvertsUp(InnocentJointable);
    DownInvertsUpIsReversible(cfg, PeopleHaveLastNames);
    DownInvertsUpIsReversible(cfg, WeNeedReminders);
    DownInvertsUpIsReversible(cfg, InnocentJointable);
  }

  /**
   * WeNeedReminders run by itself: up creates the table the Reminder model reads (under the
   * global affixes in force), with columns content and remind_at; down makes it absent again
   * and leaves the schema as it was.
   */
  lemma WeNeedRemindersRoundTrip(cfg: Config, s: Schema)
    requires ProperTableName(cfg, Reminder) !in s
    ensures Run(cfg, WeNeedReminders.up, s).Ok?
    ensures var t := Run(cfg, WeNeedReminders.up, s).schema;
            && ProperTableName(cfg, Reminder) in t
            && {"content", "remind_at"} <= t[ProperTableName(cfg, Reminder)]
            && Run(cfg, WeNeedReminders.down, t) == Ok(s)
            && ProperTableName(cfg, Reminder) !in Run(cfg, WeNeedReminders.down, t).schema
  {
    ModelFallsBackToGlobal(cfg, "reminders");
    var p := ProperTableName(cfg, Reminder);
    var op := CreateTable("reminders", {"content", "remind_at"});
    assert Target(cfg, op) == p;
    var t := s[p := {"content", "remind_at"} + {"id"}];
    assert Apply(cfg, op, s) == Ok(t);
    assert Run(cfg, WeNeedReminders.up, s) == Run(cfg, [], t);
    assert Apply(cfg, DropTable("reminders"), t) == Ok(t - {p});
    assert t - {p} == s;
  }
}
