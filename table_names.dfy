/**
 * Table-name resolution: Migrator.schema_info_table_name and Migrator.proper_table_name.
 *
 * The process-wide ActiveRecord::Base.table_name_prefix / table_name_suffix are passed
 * explicitly as a Config value, so every resolution reflects the configuration at call time.
 */
module TableNames {

  import opened Wrappers

  /** The global table-name prefix and suffix (both empty by default). */
  datatype Config = Config(prefix: string, suffix: string)

  const NoAffixes: Config := Config("", "")

  /** What proper_table_name accepts: a string or a symbol (both just a name), or a model class. */
  datatype TableRef =
    | Name(name: string)
    | Model(undecorated: string, prefix: string, suffix: string)

  /** A physical table name: prefix, logical name, suffix. */
  function Decorate(prefix: string, name: string, suffix: string): string
  {
    prefix + name + suffix
  }

  /**
   * A model's own table_name: its own prefix/suffix where set (non-empty),
   * otherwise the global one; a string or symbol always gets the global affixes.
   */
  function ProperTableName(cfg: Config, ref: TableRef): string
  {
    match ref
    case Name(n) => Decorate(cfg.prefix, n, cfg.suffix)
    case Model(n, p, s) =>
      Decorate(if p != "" then p else cfg.prefix, n, if s != "" then s else cfg.suffix)
  }

  /** The version store's table: the fixed name "schema_info" with the GLOBAL affixes only. */
  function SchemaInfoTableName(cfg: Config): (r: string)
    ensures r == ProperTableName(cfg, Name("schema_info"))
  {
    cfg.prefix + "schema_info" + cfg.suffix
  }

  /** The logical name inside a physical one, if it carries the given prefix and suffix. */
  function Undecorate(prefix: string, suffix: string, physical: string): Option<string>
  {
    if |prefix| + |suffix| <= |physical|
       && physical[..|prefix|] == prefix
       && physical[|physical| - |suffix|..] == suffix
    then Some(physical[|prefix|..|physical| - |suffix|])
    else None
  }

  /**
   * Decorating and then stripping the same affixes gives the logical name back; in particular a
   * string or symbol carries exactly the global prefix and suffix, whatever they are.
   */
  lemma UndecorateDecorate(prefix: string, name: string, suffix: string)
    ensures Undecorate(prefix, suffix, Decorate(prefix, name, suffix)) == Some(name)
    ensures Undecorate(prefix, suffix, ProperTableName(Config(prefix, suffix), Name(name))) == Some(name)
  {
    var p := Decorate(prefix, name, suffix);
    assert p[..|prefix|] == prefix;
    assert p[|p| - |suffix|..] == suffix;
    assert p[|prefix|..|p| - |suffix|] == name;
  }

  /** Conversely, a name that undecorates to n is exactly the decoration of n. */
  lemma DecorateUndecorate(prefix: string, suffix: string, physical: string)
    requires Undecorate(prefix, suffix, physical).Some?
    ensures Decorate(prefix, Undecorate(prefix, suffix, physical).value, suffix) == physical
  {
    var n := physical[|prefix|..|physical| - |suffix|];
    assert physical == physical[..|prefix|] + n + physical[|physical| - |suffix|..];
  }

  /** Under one configuration, distinct logical names never share a physical table. */
  lemma ProperTableNameInjective(cfg: Config, a: string, b: string)
    requires ProperTableName(cfg, Name(a)) == ProperTableName(cfg, Name(b))
    ensures a == b
  {
    UndecorateDecorate(cfg.prefix, a, cfg.suffix);
    UndecorateDecorate(cfg.prefix, b, cfg.suffix);
  }

  /** A model with its own prefix and suffix resolves the same under every global configuration. */
  lemma ModelOwnAffixesWin(cfg1: Config, cfg2: Config, n: string, p: string, s: string)
    requires p != "" && s != ""
    ensures ProperTableName(cfg1, Model(n, p, s)) == ProperTableName(cfg2, Model(n, p, s))
    ensures Undecorate(p, s, ProperTableName(cfg1, Model(n, p, s))) == Some(n)
  {
    UndecorateDecorate(p, n, s);
  }

  /**
   * The model's own affixes are taken one at a time: an own prefix with no own suffix takes the
   * global suffix, and an own suffix with no own prefix takes the global prefix.
   */
  lemma ModelAffixesFallBackSeparately(cfg: Config, n: string, p: string, s: string)
    requires p != "" && s != ""
    ensures ProperTableName(cfg, Model(n, p, "")) == ProperTableName(Config(p, cfg.suffix), Name(n))
    ensures ProperTableName(cfg, Model(n, "", s)) == ProperTableName(Config(cfg.prefix, s), Name(n))
  {
  }

  /** A model with no affixes of its own resolves like its bare name. */
  lemma ModelFallsBackToGlobal(cfg: Config, n: string)
    ensures ProperTableName(cfg, Model(n, "", "")) == ProperTableName(cfg, Name(n))
  {
  }

  /** With the default (empty) configuration a string or symbol is its own table name. */
  lemma EmptyConfigIsIdentity(n: string)
    ensures ProperTableName(NoAffixes, Name(n)) == n
    ensures ProperTableName(NoAffixes, Model(n, "", "")) == n
  {
    assert "" + n + "" == n;
  }

  /** The version table's name with and without a global prefix and suffix. */
  lemma SchemaInfoTableNameExamples()
    ensures SchemaInfoTableName(Config("prefix_", "_suffix")) == "prefix_schema_info_suffix"
    ensures SchemaInfoTableName(NoAffixes) == "schema_info"
  {
    assert "prefix_" + "schema_info" + "_suffix" == "prefix_schema_info_suffix";
  }

  /** Under the default configuration a name and a plain model resolve to themselves. */
  lemma DefaultTableNameExamples()
    ensures ProperTableName(NoAffixes, Name("table")) == "table"
    ensures ProperTableName(NoAffixes, Model("reminders", "", "")) == "reminders"
  {
    EmptyConfigIsIdentity("table");
    EmptyConfigIsIdentity("reminders");
  }

  /** A model's own affixes override the global ones, which a bare name takes. */
  lemma PrefixedTableNameExamples()
    ensures ProperTableName(Config("ARprefix_", "_ARsuffix"), Model("reminders", "prefix_", "_suffix"))
            == "prefix_reminders_suffix"
    ensures ProperTableName(Config("prefix_", "_suffix"), Name("table")) == "prefix_table_suffix"
  {
    assert "prefix_" + "reminders" + "_suffix" == "prefix_reminders_suffix";
    assert "prefix_" + "table" + "_suffix" == "prefix_table_suffix";
  }
}
