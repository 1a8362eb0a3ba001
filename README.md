# mcstats data model in Dafny

mcstats records games of Marvel Champions: which hero beat or lost to
which villain. Heroes and villains belong to a release phase, and each
hero has a default deck-building aspect. This project models two parts
of the application.

The first is the relational store behind `app/models.py`. It has six tables:
User, Phase, Aspect, Villain, Hero and Result. `Models.Store` holds one map
per table, from primary key to row, and one next-id counter per table. Its
invariant `Valid()` states three things:

- every stored id came from its table's counter;
- the UNIQUE columns are unique: `username`, `email`, `phasename` and each `name`;
- every FOREIGN KEY resolves, and every stored Result carries a verdict.

The store's insert, update and delete methods keep that invariant. Each one
states exactly when it is refused and what the tables hold afterwards. The
model also covers:

- the back-populated lists `phase.villains`, `phase.heroes` and `aspect.heroes`;
- `Phase.villain_count`;
- the directed lookup `Hero.result_vs_villain`;
- the HTML cells produced by `Result.as_cell` and `Hero.result_as_cell`.

The module `Scenarios` replays the functional tests' create, show, update
and delete sequences against a fresh store, and states what those tests
observe.

The second part is the migration
`migrations/versions/f55252d4f593_change_case_for_result_enum.py`. It
changes the stored spelling of the verdict from `win`/`loss` to `WIN`/`LOSS`,
and its downgrade changes it back. `ResultEnumMigration` models it on an
`array<Row>`, and each SQL statement becomes one step:

- an `ALTER TABLE ... MODIFY` becomes a check that every value fits the new enum;
- an `UPDATE` becomes an in-place loop over the rows.

Lemmas prove the round trips, idempotence and the enum ranges about the
value function `Upgraded`/`Downgraded`.

Files: `wrappers.dfy` (Option, Outcome), `tables.dfy` (tables as maps: the
ascending key scan, uniqueness), `models.dfy`, `migration.dfy`,
`scenarios.dfy`.

Choices where the source leaves the behaviour to the database or to route
handlers that are not part of this model:

- Ids are handed out by a per-table counter that starts at 1 and never goes
  back. A refused insert does not advance it. This is the model's own
  choice: a database engine may lose a value on a failed insert, or reuse
  the largest id after a delete.
- A write whose checks fail has no effect. The checks run in this order:
  the id exists (update, delete); the UNIQUE columns; the foreign keys. An
  insert of a Result checks the verdict first, because the column is
  declared NOT NULL.
- Deleting a villain or hero that a Result row still names is refused
  (`StillReferenced`). The foreign keys are enforced the way MySQL, the
  engine the migrations are written for, enforces them by default (InnoDB,
  RESTRICT). SQLite, which the tests use, does not enforce foreign keys
  unless they are switched on; that behaviour is not modelled.
- The relationship lists `phase.villains`, `phase.heroes` and
  `aspect.heroes` are declared without an `order_by`. The model lists their
  members in ascending id order.
- `result_vs_villain` runs a query without ORDER BY and takes its first row
  (`.scalar()`). Several Results may exist for a pair, because the indexes
  on `hero_id` and `villain_id` are not unique. The model returns the
  matching Result with the lowest id.
- `Result.result` is `Option<ResultTypes>`. `None` stands for a Result whose
  verdict was never set: that is the `case _` branch of `as_cell`. The store
  never holds such a row. NOT NULL is the schema as the application's model
  declares it (`app/models.py`, line 107) and as `db.create_all()` and the
  `results_table` migration create it.
- Each `ALTER TABLE ... MODIFY` follows strict SQL mode. The statement fails
  and changes nothing if some value is outside the new enum.
- The application's enum members are named `WIN` and `LOSS`
  (`app/models.py`, lines 95-98). The `results_table` migration created the
  column with the values `win` and `loss` (line 25 of
  `migrations/versions/b66774232085_results_table.py`), and this migration
  changes the stored spelling to the member names.

## Model

| member | source | states |
|---|---|---|
| `Models.Result.AsCell` | app/models.py:114-122 | the cell is always one of three: green W, red L, or the empty cell |
| `Models.AsCellShowsVerdict` | app/models.py:114-122 | the letter in the cell reads back as exactly the row's verdict, and the empty cell means no verdict |
| `Models.AsCellDistinguishesVerdicts` | app/models.py:114-122 | two rows give the same cell if and only if they have the same verdict |
| `Models.Store.constructor` | tests/conftest.py:56-62 | a new database has every table empty and every id counter at 1 |
| `Models.Store.GetVillain` | tests/functional/test_villain_routes.py:57-65 | reading a villain id finds nothing exactly when no row has that id; otherwise it gives that row |
| `Models.Store.GetHero` | tests/functional/test_hero_routes.py:57-65 | reading a hero id finds nothing exactly when no row has that id; otherwise it gives that row |
| `Models.Store.InsertUser` | app/models.py:13-20 | refused if the username is taken, then if the email is taken; otherwise the user is stored under the next id and nothing else changes |
| `Models.Store.SetPassword` | app/models.py:25-26 | the account's hash is replaced by the given one and the other columns are kept; an absent id is NotFound |
| `Models.Store.InsertPhase` | app/models.py:31-35 | refused if the phasename is taken; otherwise the phase is stored under the next id |
| `Models.Store.InsertAspect` | app/models.py:59-63 | refused if the name is taken; otherwise the aspect is stored under the next id |
| `Models.Store.InsertVillain` | app/models.py:46-52 | refused if the name is taken or the phase is missing; otherwise the villain is stored under the next id; the invariant is kept |
| `Models.Store.UpdateVillain` | app/models.py:46-52 | NotFound for an absent id; refused if another villain has the name or the phase is missing; otherwise that row alone is replaced |
| `Models.Store.DeleteVillain` | app/models.py:103-106 | NotFound for an absent id; refused while a Result names the villain; otherwise only that row is removed |
| `Models.Store.InsertHero` | app/models.py:69-77 | refused if the name is taken, the phase is missing or the aspect is missing; otherwise the hero is stored under the next id |
| `Models.Store.UpdateHero` | app/models.py:69-77 | NotFound for an absent id; refused if another hero has the name or a reference is missing; otherwise that row alone is replaced |
| `Models.Store.DeleteHero` | app/models.py:103-104 | NotFound for an absent id; refused while a Result names the hero; otherwise only that row is removed |
| `Models.Store.InsertResult` | app/models.py:100-107 | refused without a verdict, or if the hero or the villain is missing; otherwise the Result is stored under the next id |
| `Models.Store.PhaseVillains` | app/models.py:37-38 | `phase.villains` holds exactly the villains whose `phase_id` is the phase, each once, in the model's ascending id order |
| `Models.Store.PhaseHeroes` | app/models.py:37-38 | `phase.heroes` holds exactly the heroes whose `phase_id` is the phase, each once, in the model's ascending id order |
| `Models.Store.AspectHeroes` | app/models.py:64 | `aspect.heroes` holds exactly the heroes whose `aspect_id` is the aspect, each once, in the model's ascending id order |
| `Models.Store.VillainCount` | app/models.py:43-44 | the count equals the number of villains whose `phase_id` is the phase |
| `Models.Store.ResultVsVillain` | app/models.py:84-86 | None exactly when no Result has this `hero_id` and this `villain_id`; otherwise a Result with both ids, the lowest-numbered such row |
| `Models.Store.ResultAsCell` | app/models.py:88-93 | always one of the three cells; empty exactly when the lookup finds nothing; otherwise exactly the found Result's own cell |
| `ResultEnumMigration.UpdateWhere` | migrations/versions/f55252d4f593_change_case_for_result_enum.py:23-24 | an UPDATE keeps the row count and touches exactly the rows holding the old value |
| `ResultEnumMigration.Upgraded` | migrations/versions/f55252d4f593_change_case_for_result_enum.py:23-24 | the two upgrade UPDATEs keep every row and every other column; they map `win` to `WIN` and `loss` to `LOSS`, and leave every other value unchanged |
| `ResultEnumMigration.Downgraded` | migrations/versions/f55252d4f593_change_case_for_result_enum.py:31-32 | the two downgrade UPDATEs keep every row and every other column; they map `WIN` to `win` and `LOSS` to `loss`, and leave every other value unchanged |
| `ResultEnumMigration.UpgradeStaysInEnum` | migrations/versions/f55252d4f593_change_case_for_result_enum.py:21-26 | from a column in the widened enum, every intermediate state stays in it and the result is all upper case |
| `ResultEnumMigration.DowngradeStaysInEnum` | migrations/versions/f55252d4f593_change_case_for_result_enum.py:29-34 | from a column in the widened enum, every intermediate state stays in it and the result is all lower case |
| `ResultEnumMigration.DowngradeUndoesUpgrade` | migrations/versions/f55252d4f593_change_case_for_result_enum.py:23-32 | downgrading after upgrading a lower-case column restores it exactly |
| `ResultEnumMigration.UpgradeUndoesDowngrade` | migrations/versions/f55252d4f593_change_case_for_result_enum.py:23-32 | upgrading after downgrading an upper-case column restores it exactly |
| `ResultEnumMigration.UpgradeIdempotent` | migrations/versions/f55252d4f593_change_case_for_result_enum.py:23-24 | applying the two upgrade UPDATEs again changes nothing |
| `ResultEnumMigration.DowngradeIdempotent` | migrations/versions/f55252d4f593_change_case_for_result_enum.py:31-32 | applying the two downgrade UPDATEs again changes nothing |
| `ResultEnumMigration.MixedColumnNotRestored` | migrations/versions/f55252d4f593_change_case_for_result_enum.py:23-32 | the round trip needs a single-case column: `[win, WIN]` comes back as exactly `[win, win]`, which differs from it |
| `ResultEnumMigration.UpgradedValuesAreVerdictNames` | app/models.py:95-98 | after the upgrade every stored value is the name of some `ResultTypes` member, and no member is named by a lower-case spelling |
| `ResultEnumMigration.ColumnFits` | migrations/versions/f55252d4f593_change_case_for_result_enum.py:21 | an enum change succeeds exactly when every value is in the new enum |
| `ResultEnumMigration.UpdateColumn` | migrations/versions/f55252d4f593_change_case_for_result_enum.py:23-24 | the in-place loop leaves the table equal to `UpdateWhere` of the old table |
| `ResultEnumMigration.Upgrade` | migrations/versions/f55252d4f593_change_case_for_result_enum.py:19-26 | succeeds exactly when the column fits the widened enum, and then leaves `Upgraded` of the old table, all upper case; on failure nothing changes |
| `ResultEnumMigration.Downgrade` | migrations/versions/f55252d4f593_change_case_for_result_enum.py:28-34 | succeeds exactly when the column fits the widened enum, and then leaves `Downgraded` of the old table, all lower case; on failure nothing changes |
| `Scenarios.CreateVillainThenShow` | tests/functional/test_villain_routes.py:46-65 | the first villain created gets id 1, and reading id 1 gives back the submitted name |
| `Scenarios.CreateHeroThenShow` | tests/functional/test_hero_routes.py:46-65 | the first hero created gets id 1, and reading id 1 gives back the submitted name |
| `Scenarios.UpdateVillainThenShow` | tests/functional/test_villain_routes.py:148-171 | after an update, reading the villain gives the new name |
| `Scenarios.UpdateAbsentVillain` | tests/functional/test_villain_routes.py:173-193 | an update of an absent id reports NotFound and leaves the stored villain as it was |
| `Scenarios.DeleteVillainThenShow` | tests/functional/test_villain_routes.py:253-276 | after a delete, reading that id finds nothing, and deleting it again reports NotFound |
| `Scenarios.DuplicateVillainName` | app/models.py:49-50 | a second villain with a name already in use is refused and not stored |
| `Scenarios.HeroWithMissingAspect` | app/models.py:74-77 | a hero with a nonexistent aspect is refused and no hero row is stored |
| `Scenarios.LookupIsDirected` | app/models.py:84-93 | a win of hero 1 against villain 2 renders as W, and the swapped query (hero 2, villain 1) renders empty |
| `Scenarios.DeleteReferencedVillain` | app/models.py:103-106 | a villain named by a Result cannot be deleted, and an unreferenced one can |

## Left out

- Flask routing, templates, redirects, flash messages, and the hard-coded hero list in `app/routes.py`. These are presentation only. The villain and hero route handlers are not part of this model. Their store behaviour is taken from the functional tests.
- Login, sessions, `load_user`, and the authentication gate in front of writes. This is framework session machinery.
- Password hashing. `generate_password_hash` and `check_password_hash` belong to an external library. The hash is an opaque string passed into `SetPassword`, and `check_password` is not modelled.
- WTForms validation and choice coercion (`app/forms.py`).
- Deleting phases, aspects, users and results, and updating phases, aspects and results. The source has no operation for these. The only update of a user is `set_password`, modelled by `SetPassword`.
- Listing every row of a table. The routes that list tables are not part of this model.
- String length limits (`String(64)`, `String(120)`, `String(256)`). Names are unbounded strings. SQLite, which the tests use, does not enforce these limits.
- Ids reused after a delete. Here the counter never goes back, so a deleted id is never handed out again. SQLite, which the tests use, can reuse the largest id after it is deleted.
- The migrations' DDL: table and index creation, the Alembic revision chain, and the MySQL column-type machinery. Only the effect on the `result` values is modelled.
- Collation. Names, emails and verdict spellings are compared exactly, character by character (a binary collation, as SQLite uses by default). Under a case-insensitive collation, such as MySQL's default, `Bob` and `bob` would collide on a UNIQUE column, and the widened enum `('WIN','LOSS','win','loss')` would hold members that compare equal. Case-insensitive collations are not modelled.
- The `MODIFY` statements of the case-change migration (lines 21, 26, 29 and 34) do not restate NOT NULL. On MySQL they therefore leave `result` nullable afterwards, so a Result without a verdict could then be stored and shown through the empty cell. That is not modelled: the store keeps the declared NOT NULL.
- MySQL non-strict mode, where narrowing an enum replaces a value it cannot hold with `''`. Strict mode is modelled instead.
- Transactions, isolation, and concurrent writes racing on a UNIQUE column. Each operation is one atomic step.
