/**
 * The data side of the migration that changes the stored spelling of the
 * verdict column `result.result` from lower case ('win', 'loss') to upper
 * case ('WIN', 'LOSS'), and back on downgrade. Each direction widens the
 * column's enum to all four spellings, rewrites the values with two
 * UPDATE statements, and narrows the enum to the new spelling.
 */
module ResultEnumMigration {
  import Models

  /** A row of the `result` table. The migration touches only `result`. */
  datatype Row = Row(id: nat, heroId: nat, villainId: nat, result: string)

  /** The widened enum both directions pass through. */
  const Widened: set<string> := {"WIN", "LOSS", "win", "loss"}

  /** The enum after the upgrade. */
  const UpperCase: set<string> := {"WIN", "LOSS"}

  /** The enum before the upgrade and after the downgrade. */
  const LowerCase: set<string> := {"win", "loss"}

  /** Every row's verdict is a value of the enum `allowed`. */
  predicate Fits(rows: seq<Row>, allowed: set<string>)
  {
    forall i :: 0 <= i < |rows| ==> rows[i].result in allowed
  }

  /** What `UPDATE result SET result = to WHERE result = from` does to one row. */
  function SetWhere(row: Row, from: string, to: string): (updated: Row)
  {
    if row.result == from then row.(result := to) else row
  }

  /** What `UPDATE result SET result = to WHERE result = from` does to the table. */
  function UpdateWhere(rows: seq<Row>, from: string, to: string): (updated: seq<Row>)
    ensures |updated| == |rows|
    ensures forall i :: 0 <= i < |rows| ==> updated[i] == SetWhere(rows[i], from, to)
  {
    if rows == [] then [] else [SetWhere(rows[0], from, to)] + UpdateWhere(rows[1..], from, to)
  }

  /**
   * The two UPDATE statements of the upgrade, in order. They keep every row
   * and every column but `result`, and rewrite 'win' to 'WIN', 'loss' to
   * 'LOSS' and nothing else.
   */
  function Upgraded(rows: seq<Row>): (up: seq<Row>)
    ensures |up| == |rows|
    ensures forall i :: 0 <= i < |rows| ==> up[i] == rows[i].(result := Upcase(rows[i].result))
  {
    UpdateWhere(UpdateWhere(rows, "win", "WIN"), "loss", "LOSS")
  }

  /**
   * The two UPDATE statements of the downgrade, in order. They keep every
   * row and every column but `result`, and rewrite 'WIN' to 'win', 'LOSS'
   * to 'loss' and nothing else.
   */
  function Downgraded(rows: seq<Row>): (down: seq<Row>)
    ensures |down| == |rows|
    ensures forall i :: 0 <= i < |rows| ==> down[i] == rows[i].(result := Downcase(rows[i].result))
  {
    UpdateWhere(UpdateWhere(rows, "WIN", "win"), "LOSS", "loss")
  }

  /** The upper-case spelling of one verdict; any other value is left alone. */
  function Upcase(v: string): (upper: string)
  {
    if v == "win" then "WIN" else if v == "loss" then "LOSS" else v
  }

  /** The lower-case spelling of one verdict; any other value is left alone. */
  function Downcase(v: string): (lower: string)
  {
    if v == "WIN" then "win" else if v == "LOSS" then "loss" else v
  }

  // ---------------------------------------------------------------------
  // Properties of the value transformation
  // ---------------------------------------------------------------------

  /**
   * Upgrading a column that fits the widened enum stays within it after
   * each UPDATE, and ends with only upper-case values.
   */
  lemma UpgradeStaysInEnum(rows: seq<Row>)
    requires Fits(rows, Widened)
    ensures Fits(UpdateWhere(rows, "win", "WIN"), Widened)
    ensures Fits(Upgraded(rows), Widened)
    ensures Fits(Upgraded(rows), UpperCase)
  {
  }

  /**
   * Downgrading a column that fits the widened enum stays within it after
   * each UPDATE, and ends with only lower-case values.
   */
  lemma DowngradeStaysInEnum(rows: seq<Row>)
    requires Fits(rows, Widened)
    ensures Fits(UpdateWhere(rows, "WIN", "win"), Widened)
    ensures Fits(Downgraded(rows), Widened)
    ensures Fits(Downgraded(rows), LowerCase)
  {
  }

  /** Downgrading an upgraded lower-case column gives back the original rows. */
  lemma DowngradeUndoesUpgrade(rows: seq<Row>)
    requires Fits(rows, LowerCase)
    ensures Downgraded(Upgraded(rows)) == rows
  {
    assert forall i :: 0 <= i < |rows| ==> Downgraded(Upgraded(rows))[i] == rows[i];
  }

  /** Upgrading a downgraded upper-case column gives back the original rows. */
  lemma UpgradeUndoesDowngrade(rows: seq<Row>)
    requires Fits(rows, UpperCase)
    ensures Upgraded(Downgraded(rows)) == rows
  {
    assert forall i :: 0 <= i < |rows| ==> Upgraded(Downgraded(rows))[i] == rows[i];
  }

  /** Running the upgrade's UPDATE statements again on an upgraded table changes nothing. */
  lemma UpgradeIdempotent(rows: seq<Row>)
    ensures Upgraded(Upgraded(rows)) == Upgraded(rows)
  {
    assert forall i :: 0 <= i < |rows| ==> Upgraded(Upgraded(rows))[i] == Upgraded(rows)[i];
  }

  /** Running the downgrade's UPDATE statements again on a downgraded table changes nothing. */
  lemma DowngradeIdempotent(rows: seq<Row>)
    ensures Downgraded(Downgraded(rows)) == Downgraded(rows)
  {
    assert forall i :: 0 <= i < |rows| ==> Downgraded(Downgraded(rows))[i] == Downgraded(rows)[i];
  }

  /**
   * A column holding both spellings of one verdict is not restored by the
   * round trip: both rows come back lower case.
   */
  lemma MixedColumnNotRestored()
    ensures var rows := [Row(1, 1, 1, "win"), Row(2, 1, 1, "WIN")];
            Downgraded(Upgraded(rows)) == [Row(1, 1, 1, "win"), Row(2, 1, 1, "win")] &&
            Downgraded(Upgraded(rows)) != rows
  {
    var rows := [Row(1, 1, 1, "win"), Row(2, 1, 1, "WIN")];
    assert Downgraded(Upgraded(rows))[1].result == "win";
  }

  /** The spelling under which the application's enum column stores a verdict: its member name. */
  function StoredName(v: Models.ResultTypes): (name: string)
  {
    match v
    case WIN => "WIN"
    case LOSS => "LOSS"
  }

  /**
   * After the upgrade every stored value is the name of a verdict the
   * application knows. This is what makes the upgrade needed: the
   * application's `Enum(ResultTypes)` column reads a stored value back by
   * member name, so every upgraded row loads as some `ResultTypes` member,
   * while the lower-case spellings stored before it name none.
   */
  lemma UpgradedValuesAreVerdictNames(rows: seq<Row>)
    requires Fits(rows, Widened)
    ensures forall i :: 0 <= i < |rows| ==> exists v :: StoredName(v) == Upgraded(rows)[i].result
    ensures forall v :: StoredName(v) !in LowerCase
  {
    UpgradeStaysInEnum(rows);
    forall i | 0 <= i < |rows|
      ensures exists v :: StoredName(v) == Upgraded(rows)[i].result
    {
      if Upgraded(rows)[i].result == "WIN" {
        assert StoredName(Models.WIN) == "WIN";
      } else {
        assert StoredName(Models.LOSS) == "LOSS";
      }
    }
  }

  // ---------------------------------------------------------------------
  // The migration as statements over the table
  // ---------------------------------------------------------------------

  /**
   * `ALTER TABLE result MODIFY result enum(...)` under strict SQL mode: it
   * succeeds, leaving every value as it is, exactly when every value is a
   * member of the new enum.
   */
  method ColumnFits(table: array<Row>, allowed: set<string>) returns (fits: bool)
    ensures fits <==> Fits(table[..], allowed)
  {
    var i := 0;
    while i < table.Length
      invariant 0 <= i <= table.Length
      invariant forall k :: 0 <= k < i ==> table[k].result in allowed
    {
      if table[i].result !in allowed {
        return false;
      }
      i := i + 1;
    }
    return true;
  }

  /** `UPDATE result SET result = to WHERE result = from`, row by row in place. */
  method UpdateColumn(table: array<Row>, from: string, to: string)
    modifies table
    ensures table[..] == UpdateWhere(old(table[..]), from, to)
  {
    var i := 0;
    while i < table.Length
      invariant 0 <= i <= table.Length
      invariant forall k :: 0 <= k < i ==> table[k] == SetWhere(old(table[k]), from, to)
      invariant forall k :: i <= k < table.Length ==> table[k] == old(table[k])
    {
      if table[i].result == from {
        table[i] := table[i].(result := to);
      }
      i := i + 1;
    }
  }

  /**
   * The upgrade: widen, rewrite 'win' and then 'loss' to upper case,
   * narrow. It fails, changing nothing, exactly when some value is outside
   * the widened enum; otherwise the narrowing cannot fail and the table
   * holds only 'WIN' and 'LOSS'.
   */
  method Upgrade(table: array<Row>) returns (ok: bool)
    modifies table
    ensures ok <==> Fits(old(table[..]), Widened)
    ensures ok ==> table[..] == Upgraded(old(table[..])) && Fits(table[..], UpperCase)
    ensures !ok ==> table[..] == old(table[..])
  {
    ok := ColumnFits(table, Widened);
    if !ok {
      return;
    }
    UpdateColumn(table, "win", "WIN");
    UpdateColumn(table, "loss", "LOSS");
    UpgradeStaysInEnum(old(table[..]));
    ok := ColumnFits(table, UpperCase);
  }

  /**
   * The downgrade: widen, rewrite 'WIN' and then 'LOSS' to lower case,
   * narrow. It fails, changing nothing, exactly when some value is outside
   * the widened enum; otherwise the narrowing cannot fail and the table
   * holds only 'win' and 'loss'.
   */
  method Downgrade(table: array<Row>) returns (ok: bool)
    modifies table
    ensures ok <==> Fits(old(table[..]), Widened)
    ensures ok ==> table[..] == Downgraded(old(table[..])) && Fits(table[..], LowerCase)
    ensures !ok ==> table[..] == old(table[..])
  {
    ok := ColumnFits(table, Widened);
    if !ok {
      return;
    }
    UpdateColumn(table, "WIN", "win");
    UpdateColumn(table, "LOSS", "loss");
    DowngradeStaysInEnum(old(table[..]));
    ok := ColumnFits(table, LowerCase);
  }
}
