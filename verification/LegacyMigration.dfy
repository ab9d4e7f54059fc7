/** The migration script's loops and the rollback script's, on the tables
    (scripts/legacy-migration/migrate.ts:43-149, scripts/legacy-migration/rollback.ts:6-27). */
module LegacyMigration {
  import opened Text
  import opened Migration

  method FindValue(row: SourceRow, names: seq<string>) returns (found: Option<Cell>)
    ensures found == Value(row, names)
  {
    for i := 0 to |names|
      invariant Value(row, names) == Value(row, names[i..])
    {
      if names[i] in row {
        return Some(row[names[i]]);
      }
    }
    return None;
  }

  method FindDrama(rows: map<Id, Row>, slug: string, below: Id) returns (found: Option<Id>)
    ensures found == DramaBySlug(rows, slug, below)
  {
    var id: nat := below;
    while id > 0
      invariant id <= below && DramaBySlug(rows, slug, below) == DramaBySlug(rows, slug, id)
    {
      id := id - 1;
      if id in rows && rows[id].Drama? && rows[id].slug == slug {
        return Some(id);
      }
    }
    return None;
  }

  /** After an exception the remaining rows are not reached. */
  lemma {:induction false} StopSticks(p: Progress, tasks: seq<Task>, n: nat, o: Options)
    requires n <= |tasks| && DoAll(p, tasks[..n], o).outcome != Going
    ensures DoAll(p, tasks, o) == DoAll(p, tasks[..n], o)
    decreases |tasks|
  {
    hide Do;
    if n < |tasks| {
      var front := tasks[..|tasks| - 1];
      assert front[..n] == tasks[..n];
      StopSticks(p, front, n, o);
      Stuck(DoAll(p, front, o), tasks[|tasks| - 1], o);
    } else {
      assert tasks[..n] == tasks;
    }
  }

  lemma Stuck(p: Progress, t: Task, o: Options)
    requires p.outcome != Going
    ensures Do(p, t, o) == p
  {
  }

  lemma OneMore(p: Progress, tasks: seq<Task>, i: nat, o: Options)
    requires i < |tasks|
    ensures DoAll(p, tasks[..i + 1], o) == Do(DoAll(p, tasks[..i], o), tasks[i], o)
  {
    hide Do;
    assert tasks[..i + 1][..i] == tasks[..i];
  }

  class Migrator {
    const o: Options
    var rows: map<Id, Row>
    var ledger: map<Id, Record>
    var next: Id
    var seen: set<string>
    var counts: map<Entity, nat>
    var duplicates: seq<string>
    var errors: seq<nat>
    var outcome: Outcome

    constructor (db: Database, options: Options)
      ensures View() == Beginning(db) && o == options
    {
      o, rows, ledger, next := options, db.rows, db.ledger, db.next;
      seen, counts, duplicates, errors, outcome := {}, map[], [], [], Going;
    }

    function View(): Progress
      reads this
    {
      Progress(Database(rows, ledger, next), seen, counts, duplicates, errors, outcome)
    }

    method Increment(entity: Entity)
      modifies this`counts
      ensures counts == Bump(old(counts), entity)
    {
      counts := counts[entity := (if entity in counts then counts[entity] else 0) + 1];
    }

    /** Creates a row and records it, or only counts it. */
    method Make(t: Task, row: Row, key: string)
      requires outcome == Going
      modifies this
      ensures View() == DoMake(old(View()), t, row, key, o)
    {
      if o.dry {
        Increment(t.entity);
        return;
      }
      var id := next;
      rows, next := rows[id := row], next + 1;
      if !Stores(o.run, RUN_WIDTH) || !Stores(t.source, SOURCE_WIDTH) || !Stores(key, KEY_WIDTH)
         || exists r :: r in ledger && ledger[r].run == o.run && ledger[r].entity == t.entity && ledger[r].key == key {
        outcome := Orphaned(id);
        return;
      }
      ledger, next := ledger[next := Record(o.run, t.source, key, t.entity, id)], next + 1;
      Increment(t.entity);
    }

    method MigrateUser(t: Task)
      requires outcome == Going && t.entity.OfUser?
      modifies this
      ensures View() == Do(old(View()), t, o)
    {
      hide TextOf, Slice, SourceKey, Lower, Decimal, Clean, Stores;
      var email := TextOf(t.row, ["email", "email_address"]);
      if email.None? || '@' !in email.value {
        errors := errors + [t.index];
        return;
      }
      var address := Lower(email.value);
      if address in seen {
        assert seen + {address} == seen;
        duplicates := duplicates + [address];
        return;
      }
      seen := seen + {address};
      if !Clean(address) {
        outcome := Stopped;
        return;
      }
      if exists id :: id in rows && rows[id].User? && rows[id].email == address {
        duplicates := duplicates + [address];
        return;
      }
      var key := SourceKey(t.row, Decimal(t.index));
      var username := Slice(Or(TextOf(t.row, ["username", "user_name", "name"]), "legacy_" + key), 80);
      var legacyHash := TextOf(t.row, ["password_hash", "password", "pass"]);
      var argon := legacyHash.Some? && "$argon2" <= legacyHash.value;
      var hash := if argon then legacyHash.value else o.dummyHash;
      if !Stores(address, EMAIL_WIDTH) || !Stores(hash, HASH_WIDTH) || !Clean(username)
         || exists id :: id in rows && rows[id].User? && Lower(rows[id].email) == address {
        if o.dry {
          Increment(t.entity);
        } else {
          outcome := Stopped;
        }
        return;
      }
      Make(t, User(address, username, hash, argon), key);
    }

    method MigratePlan(t: Task)
      requires outcome == Going && t.entity.OfPlan?
      modifies this
      ensures View() == Do(old(View()), t, o)
    {
      hide TextOf, IntegerOf, Slice, SourceKey, Lower, Decimal, Clean, Stores;
      var code := Slice(Lower(Or(TextOf(t.row, ["code", "slug"]), "legacy_plan_" + Decimal(t.index))), 50);
      var name := Slice(Or(TextOf(t.row, ["name", "title"]), code), 120);
      var price := IntegerOf(t.row, ["price_pkr", "price", "amount"], 0);
      var days := IntegerOf(t.row, ["duration_days", "days", "duration"], 30);
      if price.None? || price.value < 0 || days.None? || days.value < 1 {
        errors := errors + [t.index];
        return;
      }
      if !Clean(code) {
        outcome := Stopped;
        return;
      }
      if exists id :: id in rows && rows[id].Plan? && rows[id].code == code {
        duplicates := duplicates + [code];
        return;
      }
      if price.value > MAX_INT || days.value > MAX_INT || !Clean(name) {
        if o.dry {
          Increment(t.entity);
        } else {
          outcome := Stopped;
        }
        return;
      }
      Make(t, Plan(code, name, price.value, days.value), SourceKey(t.row, code));
    }

    method MigrateDrama(t: Task)
      requires outcome == Going && t.entity.OfDrama?
      modifies this
      ensures View() == Do(old(View()), t, o)
    {
      hide TextOf, Slice, SourceKey, Lower, Decimal, Clean, Stores, DramaBySlug;
      var slug := Slice(Lower(Or(TextOf(t.row, ["slug", "code"]), "legacy-drama-" + Decimal(t.index))), 220);
      var name := Slice(Or(TextOf(t.row, ["name", "title"]), slug), 200);
      var description := TextOf(t.row, ["description", "details"]);
      if !Clean(slug) {
        outcome := Stopped;
        return;
      }
      var existing := FindDrama(rows, slug, next);
      if existing.Some? {
        duplicates := duplicates + [slug];
        return;
      }
      if !Clean(name) || (description.Some? && !Clean(description.value)) {
        if o.dry {
          Increment(t.entity);
        } else {
          outcome := Stopped;
        }
        return;
      }
      Make(t, Drama(slug, name, description), SourceKey(t.row, slug));
    }

    method MigrateSeason(t: Task)
      requires outcome == Going && t.entity.OfSeason?
      modifies this
      ensures View() == Do(old(View()), t, o)
    {
      hide TextOf, IntegerOf, Slice, SourceKey, Lower, Decimal, Clean, Stores, DramaBySlug;
      var slug := TextOf(t.row, ["drama_slug", "drama_code", "slug_parent"]);
      var number := IntegerOf(t.row, ["season_number", "season", "number"], 1);
      if slug.None? || slug.value == "" || number.None? || number.value < 1 {
        errors := errors + [t.index];
        return;
      }
      if !Clean(Lower(slug.value)) {
        outcome := Stopped;
        return;
      }
      var drama := FindDrama(rows, Lower(slug.value), next);
      if drama.None? {
        errors := errors + [t.index];
        return;
      }
      if number.value > MAX_INT {
        outcome := Stopped;
        return;
      }
      var name := slug.value + ":" + Decimal(number.value);
      if exists id :: id in rows && rows[id].Season? && rows[id].drama == drama.value && rows[id].number == number.value {
        duplicates := duplicates + [name];
        return;
      }
      var title := TextOf(t.row, ["title", "name"]);
      if title.Some? && !Stores(title.value, TITLE_WIDTH) {
        if o.dry {
          Increment(t.entity);
        } else {
          outcome := Stopped;
        }
        return;
      }
      Make(t, Season(drama.value, number.value, title), SourceKey(t.row, name));
    }

    /** The four loops, each over its table's rows; an exception ends them all. */
    method Run(tasks: seq<Task>)
      modifies this
      ensures View() == DoAll(old(View()), tasks, o)
    {
      hide Do;
      var i: nat := 0;
      while i < |tasks|
        invariant i <= |tasks| && View() == DoAll(old(View()), tasks[..i], o)
      {
        if outcome != Going {
          StopSticks(old(View()), tasks, i, o);
          return;
        }
        OneMore(old(View()), tasks, i, o);
        match tasks[i].entity {
          case OfUser => MigrateUser(tasks[i]);
          case OfPlan => MigratePlan(tasks[i]);
          case OfDrama => MigrateDrama(tasks[i]);
          case OfSeason => MigrateSeason(tasks[i]);
        }
        i := i + 1;
      }
      assert tasks[..i] == tasks;
    }
  }

  class Roller {
    var rows: map<Id, Row>
    var ledger: map<Id, Record>
    const next: Id
    var failures: nat

    constructor (db: Database)
      ensures View() == Undone(db, 0)
    {
      rows, ledger, next, failures := db.rows, db.ledger, db.next, 0;
    }

    function View(): Undone
      reads this
    {
      Undone(Database(rows, ledger, next), failures)
    }

    method Delete(id: Id, record: Record)
      modifies this
      ensures View() == Undo(old(View()), id, record)
    {
      var target := record.target;
      if target !in rows || EntityOf(rows[target]) != record.entity {
        failures := failures + 1;
        return;
      }
      if record.entity.OfDrama? && exists s :: s in rows && rows[s].Season? && rows[s].drama == target {
        failures := failures + 1;
        return;
      }
      rows := rows - {target};
      if id !in ledger {
        failures := failures + 1;
        return;
      }
      ledger := ledger - {id};
    }

    method Pass(records: map<Id, Record>, ids: seq<Id>, entity: Entity)
      requires forall id :: id in ids ==> id in records
      modifies this
      ensures View() == Migration.Pass(old(View()), records, ids, entity)
    {
      hide Undo;
      for i := 0 to |ids|
        invariant View() == Migration.Pass(old(View()), records, ids[..i], entity)
      {
        assert ids[..i + 1][..i] == ids[..i];
        if records[ids[i]].entity == entity {
          Delete(ids[i], records[ids[i]]);
        }
      }
      assert ids[..|ids|] == ids;
    }

    /** Seasons, dramas, plans, users; nothing without a run id. */
    method Rollback(run: string, ids: seq<Id>)
      requires failures == 0 && forall id :: id in ids ==> id in ledger
      modifies this
      ensures View() == Migration.Rollback(old(View()).db, run, ids)
    {
      hide Migration.Pass;
      if run == "" {
        return;
      }
      var records := ledger;
      Pass(records, ids, OfSeason);
      Pass(records, ids, OfDrama);
      Pass(records, ids, OfPlan);
      Pass(records, ids, OfUser);
    }
  }
}
