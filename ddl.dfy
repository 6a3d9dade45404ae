/**
 * The abstract database the migrations act on, and the schema statements a migration may issue.
 *
 * The database is a map from physical table name to its set of column names. Every statement
 * names its table LOGICALLY; as in ActiveRecord::Migration, the name is resolved with
 * proper_table_name under the configuration in force when the statement runs. A statement the
 * adapter would reject (a table that already exists, a column that is missing, ...) yields
 * StatementInvalid and changes nothing.
 */
module Ddl {

  import opened TableNames

  type Schema = map<string, set<string>>

  datatype Op =
    | CreateTable(table: string, columns: set<string>)
    | DropTable(table: string)
    | AddColumn(table: string, column: string)
    | RemoveColumn(table: string, column: string)
    | RenameColumn(table: string, from: string, to: string)

  datatype Result = Ok(schema: Schema) | StatementInvalid(reason: string)

  /** The physical table a statement works on. */
  function Target(cfg: Config, op: Op): string
  {
    ProperTableName(cfg, Name(op.table))
  }

  /** One statement; create_table always adds the primary-key column "id". */
  function Apply(cfg: Config, op: Op, s: Schema): Result
  {
    var t := Target(cfg, op);
    match op
    case CreateTable(_, cols) =>
      if t in s then StatementInvalid("table already exists") else Ok(s[t := cols + {"id"}])
    case DropTable(_) =>
      if t !in s then StatementInvalid("no such table") else Ok(s - {t})
    case AddColumn(_, c) =>
      if t !in s then StatementInvalid("no such table")
      else if c in s[t] then StatementInvalid("duplicate column")
      else Ok(s[t := s[t] + {c}])
    case RemoveColumn(_, c) =>
      if t !in s then StatementInvalid("no such table")
      else if c !in s[t] then StatementInvalid("no such column")
      else Ok(s[t := s[t] - {c}])
    case RenameColumn(_, a, b) =>
      if t !in s then StatementInvalid("no such table")
      else if a !in s[t] then StatementInvalid("no such column")
      else if b in s[t] then StatementInvalid("duplicate column")
      else Ok(s[t := s[t] - {a} + {b}])
  }

  /** A statement touches its own table only; every other table keeps its columns. */
  lemma ApplyFrame(cfg: Config, op: Op, s: Schema, u: string)
    requires Apply(cfg, op, s).Ok?
    requires u != Target(cfg, op)
    ensures u in s <==> u in Apply(cfg, op, s).schema
    ensures u in s ==> Apply(cfg, op, s).schema[u] == s[u]
  {
  }

  /** A created table holds exactly the requested columns and "id". */
  lemma CreateTableAddsId(cfg: Config, t: string, cols: set<string>, s: Schema)
    requires ProperTableName(cfg, Name(t)) !in s
    ensures Apply(cfg, CreateTable(t, cols), s).Ok?
    ensures Apply(cfg, CreateTable(t, cols), s).schema[ProperTableName(cfg, Name(t))] == cols + {"id"}
  {
  }

  /** A sequence of statements, run in order; the first rejected one stops the run. */
  function Run(cfg: Config, ops: seq<Op>, s: Schema): Result
  {
    if ops == [] then Ok(s)
    else
      match Apply(cfg, ops[0], s)
      case Ok(t) => Run(cfg, ops[1..], t)
      case StatementInvalid(e) => StatementInvalid(e)
  }

  /** Running a + b is running a, then b on what a produced. */
  lemma {:induction false} RunAppend(cfg: Config, a: seq<Op>, b: seq<Op>, s: Schema)
    ensures Run(cfg, a + b, s) ==
            match Run(cfg, a, s)
            case Ok(t) => Run(cfg, b, t)
            case StatementInvalid(e) => StatementInvalid(e)
  {
    if a == [] {
      assert a + b == b;
    } else {
      assert (a + b)[0] == a[0];
      assert (a + b)[1..] == a[1..] + b;
      match Apply(cfg, a[0], s)
      case Ok(t) => RunAppend(cfg, a[1..], b, t);
      case StatementInvalid(_) =>
    }
  }

  /** Every statement except drop_table has a statement that undoes it. */
  predicate Invertible(op: Op)
  {
    !op.DropTable?
  }

  function Invert(op: Op): Op
    requires Invertible(op)
  {
    match op
    case CreateTable(t, _) => DropTable(t)
    case AddColumn(t, c) => RemoveColumn(t, c)
    case RemoveColumn(t, c) => AddColumn(t, c)
    case RenameColumn(t, a, b) => RenameColumn(t, b, a)
  }

  /** Applying a statement and then its inverse gives back the schema it started from. */
  lemma ApplyInvert(cfg: Config, op: Op, s: Schema)
    requires Invertible(op) && Apply(cfg, op, s).Ok?
    ensures Apply(cfg, Invert(op), Apply(cfg, op, s).schema) == Ok(s)
  {
    var t := Target(cfg, op);
    var s' := Apply(cfg, op, s).schema;
    match op
    case CreateTable(_, _) =>
      assert s' - {t} == s;
    case AddColumn(_, c) =>
      assert s'[t] - {c} == s[t];
      assert s'[t := s'[t] - {c}] == s;
    case RemoveColumn(_, c) =>
      assert s'[t] + {c} == s[t];
      assert s'[t := s'[t] + {c}] == s;
    case RenameColumn(_, a, b) =>
      assert s'[t] - {b} + {a} == s[t];
      assert s'[t := s'[t] - {b} + {a}] == s;
  }

  predicate AllInvertible(ops: seq<Op>)
  {
    forall i :: 0 <= i < |ops| ==> Invertible(ops[i])
  }

  /** The statements that undo ops: each one inverted, in reverse order. */
  function Inverse(ops: seq<Op>): (r: seq<Op>)
    requires AllInvertible(ops)
    ensures |r| == |ops|
  {
    if ops == [] then [] else Inverse(ops[1..]) + [Invert(ops[0])]
  }

  /** A chained body is undone by its inverse: the schema before the body comes back. */
  lemma {:induction false} RunInverse(cfg: Config, ops: seq<Op>, s: Schema)
    requires AllInvertible(ops) && Run(cfg, ops, s).Ok?
    ensures Run(cfg, Inverse(ops), Run(cfg, ops, s).schema) == Ok(s)
  {
    if ops != [] {
      var u := Apply(cfg, ops[0], s).schema;
      var t := Run(cfg, ops, s).schema;
      assert AllInvertible(ops[1..]) by {
        forall i | 0 <= i < |ops[1..]| ensures Invertible(ops[1..][i]) {
          assert ops[1..][i] == ops[i + 1];
        }
      }
      RunInverse(cfg, ops[1..], u);
      RunAppend(cfg, Inverse(ops[1..]), [Invert(ops[0])], t);
      ApplyInvert(cfg, ops[0], s);
      assert Run(cfg, [Invert(ops[0])], u) == Apply(cfg, Invert(ops[0]), u);
    }
  }
}
