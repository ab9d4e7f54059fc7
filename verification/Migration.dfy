/** The legacy migration and its rollback (scripts/legacy-migration/migrate.ts:43-149,
    scripts/legacy-migration/rollback.ts:6-27). */
module Migration {
  import opened Text

  type Id = nat

  datatype Entity = OfUser | OfPlan | OfDrama | OfSeason

  /** A row of one of the four tables; ids are unique across them. */
  datatype Row =
    | User(email: string, username: string, hash: string, active: bool)
    | Plan(code: string, name: string, price: int, days: int)
    | Drama(slug: string, name: string, description: Option<string>)
    | Season(drama: Id, number: int, title: Option<string>)

  datatype Record = Record(run: string, source: string, key: string, entity: Entity, target: Id)

  datatype Database = Database(rows: map<Id, Row>, ledger: map<Id, Record>, next: Id)

  /** A field of a source row that is not null: its text, and the integer it denotes, if any. */
  datatype Cell = Cell(text: string, integer: Option<int>)

  type SourceRow = map<string, Cell>

  datatype Task = Task(entity: Entity, source: string, index: nat, row: SourceRow)

  /** `Orphaned` when a row was created and then its record refused. */
  datatype Outcome = Going | Stopped | Orphaned(id: Id)

  datatype Progress = Progress(
    db: Database,
    seen: set<string>,
    counts: map<Entity, nat>,
    duplicates: seq<string>,
    errors: seq<nat>,
    outcome: Outcome)

  const RUN_WIDTH: nat := 80
  const SOURCE_WIDTH: nat := 120
  const KEY_WIDTH: nat := 160
  const EMAIL_WIDTH: nat := 320
  const HASH_WIDTH: nat := 255
  const TITLE_WIDTH: nat := 200
  const MAX_INT: int := 0x7fff_ffff

  /** What a text column of the given width takes: no NUL, and not too long. */
  predicate Clean(s: string) { '\0' !in s }

  predicate Stores(s: string, width: nat) { |s| <= width && Clean(s) }

  function EntityOf(r: Row): Entity {
    match r case User(_, _, _, _) => OfUser case Plan(_, _, _, _) => OfPlan case Drama(_, _, _) => OfDrama case Season(_, _, _) => OfSeason
  }

  // ---------------------------------------------------------------------
  // Reading a source row

  /** The first of the named fields that is there. */
  function Value(row: SourceRow, names: seq<string>): Option<Cell> {
    if names == [] then None else if names[0] in row then Some(row[names[0]]) else Value(row, names[1..])
  }

  function TextOf(row: SourceRow, names: seq<string>): Option<string> {
    var found := Value(row, names);
    if found.None? then None else Some(Trim(found.value.text))
  }

  function IntegerOf(row: SourceRow, names: seq<string>, otherwise: int): Option<int> {
    var found := Value(row, names);
    if found.None? then Some(otherwise) else found.value.integer
  }

  function Slice(s: string, n: nat): string { if |s| <= n then s else s[..n] }

  function Decimal(n: nat): string {
    (if n < 10 then "" else Decimal(n / 10)) + [('0' as int + n % 10) as char]
  }

  function SourceKey(row: SourceRow, fallback: string): string {
    Or(TextOf(row, ["id", "uuid", "user_id", "episode_id", "slug", "code"]), fallback)
  }

  // ---------------------------------------------------------------------
  // What is done with a source row

  /** `Unaskable` when already the lookup is refused, `Refused` when the creation would be. */
  datatype Proposal = Invalid | Duplicate(what: string) | Unaskable | Refused | Make(row: Row, key: string)

  predicate HasUser(rows: map<Id, Row>, email: string) { exists id :: id in rows && rows[id].User? && rows[id].email == email }

  /** The unique index on the lower-cased address. */
  predicate ClaimsEmail(rows: map<Id, Row>, email: string) { exists id :: id in rows && rows[id].User? && Lower(rows[id].email) == email }

  predicate HasPlan(rows: map<Id, Row>, code: string) { exists id :: id in rows && rows[id].Plan? && rows[id].code == code }

  predicate HasSeason(rows: map<Id, Row>, drama: Id, number: int) {
    exists id :: id in rows && rows[id].Season? && rows[id].drama == drama && rows[id].number == number
  }

  /** The drama with this slug; slugs are unique. */
  function DramaBySlug(rows: map<Id, Row>, slug: string, below: Id): Option<Id> {
    if below == 0 then None
    else if below - 1 in rows && rows[below - 1].Drama? && rows[below - 1].slug == slug then Some(below - 1)
    else DramaBySlug(rows, slug, below - 1)
  }

  predicate HasArgonHash(row: SourceRow) {
    var hash := TextOf(row, ["password_hash", "password", "pass"]);
    hash.Some? && "$argon2" <= hash.value
  }

  function Email(row: SourceRow): Option<string> {
    var email := TextOf(row, ["email", "email_address"]);
    if email.None? || '@' !in email.value then None else Some(Lower(email.value))
  }

  function ProposeUser(rows: map<Id, Row>, seen: set<string>, t: Task, dummyHash: string): Proposal {
    var email := Email(t.row);
    if email.None? then Invalid
    else if email.value in seen then Duplicate(email.value)
    else if !Clean(email.value) then Unaskable
    else if HasUser(rows, email.value) then Duplicate(email.value)
    else
      var key := SourceKey(t.row, Decimal(t.index));
      var username := Slice(Or(TextOf(t.row, ["username", "user_name", "name"]), "legacy_" + key), 80);
      var argon := HasArgonHash(t.row);
      var hash := if argon then TextOf(t.row, ["password_hash", "password", "pass"]).value else dummyHash;
      if !Stores(email.value, EMAIL_WIDTH) || !Stores(hash, HASH_WIDTH) || !Clean(username) || ClaimsEmail(rows, email.value) then Refused
      else Make(User(email.value, username, hash, argon), key)
  }

  function ProposePlan(rows: map<Id, Row>, t: Task): Proposal {
    var code := Slice(Lower(Or(TextOf(t.row, ["code", "slug"]), "legacy_plan_" + Decimal(t.index))), 50);
    var name := Slice(Or(TextOf(t.row, ["name", "title"]), code), 120);
    var price, days := IntegerOf(t.row, ["price_pkr", "price", "amount"], 0), IntegerOf(t.row, ["duration_days", "days", "duration"], 30);
    if price.None? || price.value < 0 || days.None? || days.value < 1 then Invalid
    else if !Clean(code) then Unaskable
    else if HasPlan(rows, code) then Duplicate(code)
    else if price.value > MAX_INT || days.value > MAX_INT || !Clean(name) then Refused
    else Make(Plan(code, name, price.value, days.value), SourceKey(t.row, code))
  }

  function ProposeDrama(rows: map<Id, Row>, next: Id, t: Task): Proposal {
    var slug := Slice(Lower(Or(TextOf(t.row, ["slug", "code"]), "legacy-drama-" + Decimal(t.index))), 220);
    var name := Slice(Or(TextOf(t.row, ["name", "title"]), slug), 200);
    var description := TextOf(t.row, ["description", "details"]);
    if !Clean(slug) then Unaskable
    else if DramaBySlug(rows, slug, next).Some? then Duplicate(slug)
    else if !Clean(name) || (description.Some? && !Clean(description.value)) then Refused
    else Make(Drama(slug, name, description), SourceKey(t.row, slug))
  }

  function ProposeSeason(rows: map<Id, Row>, next: Id, t: Task): Proposal {
    var slug, number := TextOf(t.row, ["drama_slug", "drama_code", "slug_parent"]), IntegerOf(t.row, ["season_number", "season", "number"], 1);
    if slug.None? || slug.value == "" || number.None? || number.value < 1 then Invalid
    else if !Clean(Lower(slug.value)) then Unaskable
    else
      var drama := DramaBySlug(rows, Lower(slug.value), next);
      var name := slug.value + ":" + Decimal(number.value);
      if drama.None? then Invalid
      else if number.value > MAX_INT then Unaskable
      else if HasSeason(rows, drama.value, number.value) then Duplicate(name)
      else
        var title := TextOf(t.row, ["title", "name"]);
        if title.Some? && !Stores(title.value, TITLE_WIDTH) then Refused
        else Make(Season(drama.value, number.value, title), SourceKey(t.row, name))
  }

  function Propose(db: Database, seen: set<string>, t: Task, dummyHash: string): Proposal {
    match t.entity
    case OfUser => ProposeUser(db.rows, seen, t, dummyHash)
    case OfPlan => ProposePlan(db.rows, t)
    case OfDrama => ProposeDrama(db.rows, db.next, t)
    case OfSeason => ProposeSeason(db.rows, db.next, t)
  }

  function Seen(seen: set<string>, t: Task): set<string> {
    if t.entity.OfUser? && Email(t.row).Some? then seen + {Email(t.row).value} else seen
  }

  function Created(db: Database, row: Row): Database { db.(rows := db.rows[db.next := row], next := db.next + 1) }

  function Entered(db: Database, r: Record): Database { db.(ledger := db.ledger[db.next := r], next := db.next + 1) }

  /** What a record says of a row besides its id. */
  datatype Entry = Entry(entity: Entity, source: string, key: string)

  predicate Fits(run: string, e: Entry) { Stores(run, RUN_WIDTH) && Stores(e.source, SOURCE_WIDTH) && Stores(e.key, KEY_WIDTH) }

  /** The record fits its columns, and there is none for the run, entity and source key. */
  predicate Recordable(db: Database, run: string, e: Entry) {
    Fits(run, e) && forall r :: r in db.ledger ==> !(db.ledger[r].run == run && db.ledger[r].entity == e.entity && db.ledger[r].key == e.key)
  }

  function Bump(counts: map<Entity, nat>, entity: Entity): map<Entity, nat> {
    counts[entity := (if entity in counts then counts[entity] else 0) + 1]
  }

  datatype Options = Options(run: string, dry: bool, dummyHash: string)

  /** The row is created, then recorded; a record refused leaves the row behind. */
  function DoMake(p: Progress, t: Task, row: Row, key: string, o: Options): Progress {
    if o.dry then p.(counts := Bump(p.counts, t.entity))
    else
      var db := Created(p.db, row);
      if !Recordable(db, o.run, Entry(t.entity, t.source, key)) then p.(db := db, outcome := Orphaned(p.db.next))
      else p.(db := Entered(db, Record(o.run, t.source, key, t.entity, p.db.next)), counts := Bump(p.counts, t.entity))
  }

  function Do(p: Progress, t: Task, o: Options): Progress {
    if p.outcome != Going then p
    else
      var q := p.(seen := Seen(p.seen, t));
      match Propose(p.db, p.seen, t, o.dummyHash)
      case Invalid => q.(errors := p.errors + [t.index])
      case Duplicate(what) => q.(duplicates := p.duplicates + [what])
      case Unaskable => q.(outcome := Stopped)
      case Refused => if o.dry then q.(counts := Bump(q.counts, t.entity)) else q.(outcome := Stopped)
      case Make(row, key) => DoMake(q, t, row, key, o)
  }

  function DoAll(p: Progress, tasks: seq<Task>, o: Options): Progress {
    if tasks == [] then p else Do(DoAll(p, tasks[..|tasks| - 1], o), tasks[|tasks| - 1], o)
  }

  /** A source table and its rows; no rows when no table is named. */
  datatype Source = Source(name: string, rows: seq<SourceRow>)

  /** The tables in the order of the four loops. */
  datatype Input = Input(users: Source, plans: Source, dramas: Source, seasons: Source)

  function TasksOf(entity: Entity, source: Source): seq<Task> {
    seq(|source.rows|, i requires 0 <= i < |source.rows| => Task(entity, source.name, i, source.rows[i]))
  }

  function Tasks(input: Input): seq<Task> {
    TasksOf(OfUser, input.users) + TasksOf(OfPlan, input.plans) + TasksOf(OfDrama, input.dramas) + TasksOf(OfSeason, input.seasons)
  }

  function Beginning(db: Database): Progress { Progress(db, {}, map[], [], [], Going) }

  function Migrate(db: Database, input: Input, o: Options): Progress { DoAll(Beginning(db), Tasks(input), o) }

  // ---------------------------------------------------------------------
  // Rollback

  predicate Referenced(db: Database, drama: Id) { exists id :: id in db.rows && db.rows[id].Season? && db.rows[id].drama == drama }

  /** Whether the row can be deleted: it is there, and no season refers to it. */
  predicate Deletable(db: Database, entity: Entity, id: Id) {
    && id in db.rows && EntityOf(db.rows[id]) == entity && (entity.OfDrama? ==> !Referenced(db, id))
  }

  datatype Undone = Undone(db: Database, failures: nat)

  /** Deletes the row, then its record; `record` is as it was read at the start. */
  function Undo(u: Undone, id: Id, record: Record): Undone {
    if !Deletable(u.db, record.entity, record.target) then u.(failures := u.failures + 1)
    else
      var db := u.db.(rows := u.db.rows - {record.target});
      if id !in db.ledger then Undone(db, u.failures + 1) else u.(db := db.(ledger := db.ledger - {id}))
  }

  function Pass(u: Undone, records: map<Id, Record>, ids: seq<Id>, entity: Entity): Undone
    requires forall id :: id in ids ==> id in records
  {
    if ids == [] then u
    else
      var v := Pass(u, records, ids[..|ids| - 1], entity);
      var id := ids[|ids| - 1];
      if records[id].entity == entity then Undo(v, id, records[id]) else v
  }

  /** `ids` lists the records of the run, in whatever order they are found. */
  ghost predicate Lists(db: Database, run: string, ids: seq<Id>) {
    && (forall id :: id in ids <==> id in db.ledger && db.ledger[id].run == run)
    && (forall i, j :: 0 <= i < j < |ids| ==> ids[i] != ids[j])
  }

  function FourPasses(db: Database, ids: seq<Id>): Undone
    requires forall id :: id in ids ==> id in db.ledger
  {
    var seasons := Pass(Undone(db, 0), db.ledger, ids, OfSeason);
    var dramas := Pass(seasons, db.ledger, ids, OfDrama);
    Pass(Pass(dramas, db.ledger, ids, OfPlan), db.ledger, ids, OfUser)
  }

  /** Without a run id the script throws before it reads anything. */
  function Rollback(db: Database, run: string, ids: seq<Id>): Undone
    requires forall id :: id in ids ==> id in db.ledger
  {
    if run == "" then Undone(db, 0) else FourPasses(db, ids)
  }

  // ---------------------------------------------------------------------
  // What a run adds

  /** No record of this run yet; ids lie below `next`; a season's drama exists. */
  ghost predicate Ready(db: Database, run: string) {
    && (forall id :: id in db.rows ==> id < db.next)
    && (forall r :: r in db.ledger ==> r < db.next && db.ledger[r].run != run)
    && Rooted(db.rows)
  }

  ghost predicate Rooted(rows: map<Id, Row>) {
    forall id :: id in rows && rows[id].Season? ==> rows[id].drama in rows && rows[rows[id].drama].Drama?
  }

  /** Everything there before is untouched. */
  ghost predicate Kept(base: Database, db: Database) {
    && base.next <= db.next
    && (forall id :: id in base.rows ==> id in db.rows && db.rows[id] == base.rows[id])
    && (forall r :: r in base.ledger ==> r in db.ledger && db.ledger[r] == base.ledger[r])
  }

  /** Each new row has a record, drawn right after it, except an orphan. */
  ghost predicate NewRows(base: Database, db: Database, outcome: Outcome) {
    && (forall id :: id in db.rows && id !in base.rows ==>
          base.next <= id < db.next && (outcome == Orphaned(id) || id + 1 in db.ledger))
    && (outcome.Orphaned? ==> outcome.id in db.rows && outcome.id >= base.next && outcome.id + 1 !in db.ledger)
  }

  ghost predicate NewRecords(base: Database, db: Database, run: string) {
    forall r :: r in db.ledger && r !in base.ledger ==>
      && base.next < r < db.next && db.ledger[r].run == run && db.ledger[r].target == r - 1
      && r - 1 in db.rows && EntityOf(db.rows[r - 1]) == db.ledger[r].entity
  }

  ghost predicate Adds(base: Database, p: Progress, run: string) {
    Kept(base, p.db) && NewRows(base, p.db, p.outcome) && NewRecords(base, p.db, run) && Rooted(p.db.rows)
  }

  lemma {:induction false} DramaFound(rows: map<Id, Row>, slug: string, below: Id)
    ensures var d := DramaBySlug(rows, slug, below);
      d.Some? ==> d.value < below && d.value in rows && rows[d.value].Drama? && rows[d.value].slug == slug
  {
    if below > 0 {
      DramaFound(rows, slug, below - 1);
    }
  }

  /** A row is made for its own table, and a season under a drama that exists. */
  lemma MadeIsSound(db: Database, seen: set<string>, t: Task, dummyHash: string)
    ensures var m := Propose(db, seen, t, dummyHash);
      m.Make? ==> EntityOf(m.row) == t.entity && (m.row.Season? ==> m.row.drama in db.rows && db.rows[m.row.drama].Drama?)
  {
    hide TextOf, IntegerOf, Email, SourceKey, HasArgonHash, Slice, Lower, Decimal, HasUser, HasPlan, HasSeason, DramaBySlug;
    if t.entity.OfSeason? {
      var slug := TextOf(t.row, ["drama_slug", "drama_code", "slug_parent"]);
      if slug.Some? {
        DramaFound(db.rows, Lower(slug.value), db.next);
      }
    }
  }

  lemma CreatedKeeps(base: Database, db: Database, run: string, row: Row)
    requires Ready(base, run) && Kept(base, db)
    ensures Kept(base, Created(db, row))
  {
  }

  lemma CreatedRows(base: Database, db: Database, run: string, row: Row)
    requires Ready(base, run) && Kept(base, db) && NewRows(base, db, Going) && NewRecords(base, db, run)
    ensures NewRows(base, Created(db, row), Orphaned(db.next))
  {
  }

  lemma CreatedRecords(base: Database, db: Database, run: string, row: Row)
    requires NewRecords(base, db, run)
    ensures NewRecords(base, Created(db, row), run)
  {
  }

  lemma CreatedRoots(base: Database, db: Database, run: string, row: Row)
    requires Ready(base, run) && Kept(base, db) && NewRows(base, db, Going) && Rooted(db.rows)
    requires row.Season? ==> row.drama in db.rows && db.rows[row.drama].Drama?
    ensures Rooted(Created(db, row).rows)
  {
    assert forall id :: id in db.rows ==> id != db.next;
  }

  lemma EnteredKeeps(base: Database, db: Database, run: string, r: Record)
    requires Ready(base, run) && Kept(base, db)
    ensures Kept(base, Entered(db, r))
  {
  }

  lemma EnteredRows(base: Database, db: Database, r: Record)
    requires db.next > base.next && NewRows(base, db, Orphaned(db.next - 1))
    ensures NewRows(base, Entered(db, r), Going)
  {
  }

  lemma EnteredRecords(base: Database, db: Database, run: string, r: Record)
    requires db.next > base.next && NewRecords(base, db, run)
    requires r.run == run && r.target == db.next - 1 && r.target in db.rows && EntityOf(db.rows[r.target]) == r.entity
    ensures NewRecords(base, Entered(db, r), run)
  {
  }

  lemma MakeAdds(base: Database, p: Progress, t: Task, row: Row, key: string, o: Options)
    requires Ready(base, o.run) && Adds(base, p, o.run) && !o.dry && p.outcome == Going
    requires EntityOf(row) == t.entity && (row.Season? ==> row.drama in p.db.rows && p.db.rows[row.drama].Drama?)
    ensures Adds(base, DoMake(p, t, row, key, o), o.run)
  {
    hide Recordable, Bump, Kept, NewRows, NewRecords, Rooted, EntityOf, Ready;
    CreatedKeeps(base, p.db, o.run, row);
    CreatedRows(base, p.db, o.run, row);
    CreatedRecords(base, p.db, o.run, row);
    CreatedRoots(base, p.db, o.run, row);
    var db := Created(p.db, row);
    KeptNext(base, p.db);
    var r := Record(o.run, t.source, key, t.entity, p.db.next);
    EnteredKeeps(base, db, o.run, r);
    EnteredRows(base, db, r);
    EnteredRecords(base, db, o.run, r);
  }

  lemma KeptNext(base: Database, db: Database)
    requires Kept(base, db)
    ensures base.next <= db.next
  {
  }

  lemma DoAdds(base: Database, p: Progress, t: Task, o: Options)
    requires Ready(base, o.run) && Adds(base, p, o.run) && !o.dry
    ensures Adds(base, Do(p, t, o), o.run)
  {
    hide Propose, DoMake, Ready, Seen, Bump, Kept, NewRows, NewRecords, Rooted;
    if p.outcome == Going {
      OutcomesAdd(base, p.db);
      MadeIsSound(p.db, p.seen, t, o.dummyHash);
      var m := Propose(p.db, p.seen, t, o.dummyHash);
      if m.Make? {
        MakeAdds(base, p.(seen := Seen(p.seen, t)), t, m.row, m.key, o);
      }
    }
  }

  lemma OutcomesAdd(base: Database, db: Database)
    requires NewRows(base, db, Going)
    ensures NewRows(base, db, Stopped)
  {
  }

  lemma {:induction false} AllAdds(base: Database, tasks: seq<Task>, o: Options)
    requires Ready(base, o.run) && !o.dry
    ensures Adds(base, DoAll(Beginning(base), tasks, o), o.run)
  {
    hide Do;
    if tasks != [] {
      var front := tasks[..|tasks| - 1];
      AllAdds(base, front, o);
      DoAdds(base, DoAll(Beginning(base), front, o), tasks[|tasks| - 1], o);
    }
  }

  // ---------------------------------------------------------------------
  // What a rollback removes

  ghost function Matching(records: map<Id, Record>, ids: seq<Id>, entity: Entity): set<Id> {
    set id | id in ids && id in records && records[id].entity == entity
  }

  ghost function Targets(records: map<Id, Record>, ids: seq<Id>, entity: Entity): set<Id> {
    set id | id in Matching(records, ids, entity) :: records[id].target
  }

  /** The pass over `entity` meets no refusal. */
  ghost predicate Clear(db: Database, records: map<Id, Record>, ids: seq<Id>, entity: Entity) {
    && (forall id :: id in ids ==> id in records)
    && (forall i, j :: 0 <= i < j < |ids| ==> ids[i] != ids[j])
    && (forall id :: id in ids ==> records[id].target == id - 1)
    && (forall id :: id in ids && records[id].entity == entity ==>
          id in db.ledger && records[id].target in db.rows && EntityOf(db.rows[records[id].target]) == entity
          && (entity.OfDrama? ==> !Referenced(db, records[id].target)))
  }

  ghost function Without(db: Database, records: map<Id, Record>, ids: seq<Id>, entity: Entity): Database {
    db.(rows := db.rows - Targets(records, ids, entity), ledger := db.ledger - Matching(records, ids, entity))
  }

  lemma ClearFront(db: Database, records: map<Id, Record>, ids: seq<Id>, entity: Entity)
    requires Clear(db, records, ids, entity) && ids != []
    ensures Clear(db, records, ids[..|ids| - 1], entity)
    ensures ids[|ids| - 1] !in ids[..|ids| - 1]
  {
    hide Referenced;
    assert forall id :: id in ids[..|ids| - 1] ==> id in ids;
  }

  /** Deleting one more row and its record. */
  lemma UndoLast(db: Database, records: map<Id, Record>, ids: seq<Id>, entity: Entity)
    requires Clear(db, records, ids, entity) && ids != []
    ensures var front, id := ids[..|ids| - 1], ids[|ids| - 1];
      if records[id].entity == entity
      then Undo(Undone(Without(db, records, front, entity), 0), id, records[id]) == Undone(Without(db, records, ids, entity), 0)
      else Without(db, records, front, entity) == Without(db, records, ids, entity)
  {
    var front, id := ids[..|ids| - 1], ids[|ids| - 1];
    ClearFront(db, records, ids, entity);
    assert forall x :: x in ids <==> x in front || x == id;
    if records[id].entity == entity {
      assert Matching(records, ids, entity) == Matching(records, front, entity) + {id};
      assert Targets(records, ids, entity) == Targets(records, front, entity) + {records[id].target};
      var v := Without(db, records, front, entity);
      assert v.rows - {records[id].target} == Without(db, records, ids, entity).rows;
      assert v.ledger - {id} == Without(db, records, ids, entity).ledger;
    } else {
      assert Matching(records, ids, entity) == Matching(records, front, entity);
    }
  }

  lemma {:induction false} PassRemoves(db: Database, records: map<Id, Record>, ids: seq<Id>, entity: Entity)
    requires Clear(db, records, ids, entity)
    ensures forall id :: id in ids ==> id in records
    ensures Pass(Undone(db, 0), records, ids, entity) == Undone(Without(db, records, ids, entity), 0)
  {
    hide Undo, Clear, Without;
    ClearListed(db, records, ids, entity);
    if ids == [] {
      NothingWithout(db, records, entity);
    } else {
      ClearFront(db, records, ids, entity);
      PassRemoves(db, records, ids[..|ids| - 1], entity);
      UndoLast(db, records, ids, entity);
    }
  }

  lemma ClearListed(db: Database, records: map<Id, Record>, ids: seq<Id>, entity: Entity)
    requires Clear(db, records, ids, entity)
    ensures forall id :: id in ids ==> id in records
  {
  }

  lemma NothingWithout(db: Database, records: map<Id, Record>, entity: Entity)
    ensures Without(db, records, [], entity) == db
  {
    assert Matching(records, [], entity) == {} && Targets(records, [], entity) == {};
    assert db.rows - {} == db.rows && db.ledger - {} == db.ledger;
  }

  // ---------------------------------------------------------------------
  // Rolling back a run

  /** What is left of the rows when the run's rows of some entities are gone. */
  ghost function RowsLeft(base: map<Id, Row>, start: map<Id, Row>, gone: set<Entity>): map<Id, Row> {
    map id | id in start && (id in base || EntityOf(start[id]) !in gone) :: start[id]
  }

  ghost function RecordsLeft(base: map<Id, Record>, start: map<Id, Record>, gone: set<Entity>): map<Id, Record> {
    map r | r in start && (r in base || start[r].entity !in gone) :: start[r]
  }

  ghost function Left(base: Database, start: Database, gone: set<Entity>): Database {
    Database(RowsLeft(base.rows, start.rows, gone), RecordsLeft(base.ledger, start.ledger, gone), start.next)
  }

  /** A run that left no orphan, and a listing of its records. */
  ghost predicate Whole(base: Database, start: Database, run: string, ids: seq<Id>) {
    && Ready(base, run) && Kept(base, start) && NewRecords(base, start, run) && Rooted(start.rows) && Lists(start, run, ids)
    && NewRows(base, start, Going)
  }

  lemma ListsNew(base: Database, start: Database, run: string, ids: seq<Id>)
    requires Whole(base, start, run, ids)
    ensures forall r :: r in ids <==> r in start.ledger && r !in base.ledger
    ensures forall r :: r in ids ==> start.ledger[r].target == r - 1
    ensures forall i, j :: 0 <= i < j < |ids| ==> ids[i] != ids[j]
  {
    hide NewRows, Rooted;
  }

  lemma MatchingNew(base: Database, start: Database, run: string, ids: seq<Id>, entity: Entity, r: Id)
    requires Whole(base, start, run, ids)
    ensures r in Matching(start.ledger, ids, entity) <==> r in start.ledger && r !in base.ledger && start.ledger[r].entity == entity
  {
    ListsNew(base, start, run, ids);
    hide Whole;
  }

  lemma NewRecordsTarget(base: Database, start: Database, run: string, r: Id)
    requires NewRecords(base, start, run) && r in start.ledger && r !in base.ledger && Ready(base, run)
    ensures r > 0 && start.ledger[r].target == r - 1 && r - 1 in start.rows && r - 1 !in base.rows
    ensures EntityOf(start.rows[r - 1]) == start.ledger[r].entity
  {
  }

  lemma NewRowsRecorded(base: Database, start: Database, run: string, id: Id)
    requires NewRows(base, start, Going) && Ready(base, run) && id in start.rows && id !in base.rows
    ensures id + 1 in start.ledger && id + 1 !in base.ledger
  {
  }

  /** The targets of one entity are the run's rows of that entity. */
  lemma TargetsNew(base: Database, start: Database, run: string, ids: seq<Id>, entity: Entity, id: Id)
    requires Whole(base, start, run, ids)
    ensures id in Targets(start.ledger, ids, entity) <==> id in start.rows && id !in base.rows && EntityOf(start.rows[id]) == entity
  {
    hide Ready, Kept, NewRecords, Rooted, Lists, NewRows;
    if id in start.rows && id !in base.rows {
      NewRowsRecorded(base, start, run, id);
      NewRecordsTarget(base, start, run, id + 1);
      MatchingNew(base, start, run, ids, entity, id + 1);
    }
    if id in Targets(start.ledger, ids, entity) {
      var r :| r in Matching(start.ledger, ids, entity) && start.ledger[r].target == id;
      MatchingNew(base, start, run, ids, entity, r);
      NewRecordsTarget(base, start, run, r);
    }
  }

  lemma RowsLeave(base: map<Id, Row>, start: map<Id, Row>, gone: set<Entity>, entity: Entity, targets: set<Id>)
    requires forall id :: id in targets <==> id in start && id !in base && EntityOf(start[id]) == entity
    ensures RowsLeft(base, start, gone) - targets == RowsLeft(base, start, gone + {entity})
  {
  }

  lemma RecordsLeave(base: map<Id, Record>, start: map<Id, Record>, gone: set<Entity>, entity: Entity, matching: set<Id>)
    requires forall r :: r in matching <==> r in start && r !in base && start[r].entity == entity
    ensures RecordsLeft(base, start, gone) - matching == RecordsLeft(base, start, gone + {entity})
  {
  }

  lemma PassLeaves(base: Database, start: Database, run: string, ids: seq<Id>, gone: set<Entity>, entity: Entity)
    requires Whole(base, start, run, ids)
    ensures Without(Left(base, start, gone), start.ledger, ids, entity) == Left(base, start, gone + {entity})
  {
    hide Whole, Matching, Targets, RowsLeft, RecordsLeft;
    forall id ensures id in Targets(start.ledger, ids, entity) <==> id in start.rows && id !in base.rows && EntityOf(start.rows[id]) == entity {
      TargetsNew(base, start, run, ids, entity, id);
    }
    forall r ensures r in Matching(start.ledger, ids, entity) <==> r in start.ledger && r !in base.ledger && start.ledger[r].entity == entity {
      MatchingNew(base, start, run, ids, entity, r);
    }
    RowsLeave(base.rows, start.rows, gone, entity, Targets(start.ledger, ids, entity));
    RecordsLeave(base.ledger, start.ledger, gone, entity, Matching(start.ledger, ids, entity));
  }

  /** Once the run's seasons are gone, the rest refer to dramas that were there before. */
  lemma OnlyOldSeasons(base: Database, start: Database, run: string, gone: set<Entity>, drama: Id)
    requires Ready(base, run) && Kept(base, start) && OfSeason in gone && drama !in base.rows
    ensures !Referenced(Left(base, start, gone), drama)
  {
  }

  lemma ClearOne(base: Database, start: Database, run: string, gone: set<Entity>, entity: Entity, r: Id)
    requires Ready(base, run) && Kept(base, start) && NewRecords(base, start, run)
    requires entity !in gone && (entity.OfDrama? ==> OfSeason in gone)
    requires r in start.ledger && r !in base.ledger && start.ledger[r].entity == entity
    ensures var db := Left(base, start, gone);
      && r in db.ledger && r > 0 && r - 1 in db.rows && EntityOf(db.rows[r - 1]) == entity
      && (entity.OfDrama? ==> !Referenced(db, r - 1))
  {
    NewRecordsTarget(base, start, run, r);
    if entity.OfDrama? {
      OnlyOldSeasons(base, start, run, gone, r - 1);
    }
    hide Ready, Kept, NewRecords, Referenced;
  }

  /** The order of the passes: no deletion of a drama is refused for a season. */
  lemma ClearToPass(base: Database, start: Database, run: string, ids: seq<Id>, gone: set<Entity>, entity: Entity)
    requires Whole(base, start, run, ids) && entity !in gone && (entity.OfDrama? ==> OfSeason in gone)
    ensures Clear(Left(base, start, gone), start.ledger, ids, entity)
  {
    hide NewRows, Rooted, Lists, Ready, Kept, NewRecords, Referenced, Left;
    ListsNew(base, start, run, ids);
    forall r | r in ids && start.ledger[r].entity == entity
      ensures var db := Left(base, start, gone);
        && r in db.ledger && r > 0 && r - 1 in db.rows && EntityOf(db.rows[r - 1]) == entity
        && (entity.OfDrama? ==> !Referenced(db, r - 1))
    {
      ClearOne(base, start, run, gone, entity, r);
    }
  }

  lemma OnePass(base: Database, start: Database, run: string, ids: seq<Id>, gone: set<Entity>, entity: Entity)
    requires Whole(base, start, run, ids) && entity !in gone && (entity.OfDrama? ==> OfSeason in gone)
    ensures forall r :: r in ids ==> r in start.ledger
    ensures Pass(Undone(Left(base, start, gone), 0), start.ledger, ids, entity) == Undone(Left(base, start, gone + {entity}), 0)
  {
    hide Whole, Left, Clear, Without, Pass;
    ClearToPass(base, start, run, ids, gone, entity);
    PassRemoves(Left(base, start, gone), start.ledger, ids, entity);
    PassLeaves(base, start, run, ids, gone, entity);
  }

  lemma EachEntity(e: Entity)
    ensures e in {OfSeason, OfDrama, OfPlan, OfUser}
  {
    match e case OfUser => case OfPlan => case OfDrama => case OfSeason =>
  }

  lemma NoneLeft(base: Database, start: Database, run: string)
    requires Ready(base, run) && Kept(base, start)
    ensures Left(base, start, {}) == start
    ensures var end := Left(base, start, {OfSeason, OfDrama, OfPlan, OfUser}); end.rows == base.rows && end.ledger == base.ledger
  {
    forall r | r in start.ledger ensures start.ledger[r].entity in {OfSeason, OfDrama, OfPlan, OfUser} {
      EachEntity(start.ledger[r].entity);
    }
    assert Left(base, start, {}).rows == start.rows;
    assert Left(base, start, {}).ledger == start.ledger;
  }

  /** Four passes bring back exactly what was there, without a failure. */
  lemma WholeRollsBack(base: Database, start: Database, run: string, ids: seq<Id>)
    requires Whole(base, start, run, ids)
    ensures forall r :: r in ids ==> r in start.ledger
    ensures var u := FourPasses(start, ids); u.db.rows == base.rows && u.db.ledger == base.ledger && u.failures == 0
  {
    hide Left, Pass, Ready, NewRows, NewRecords, Rooted, Lists, Kept;
    NoneLeft(base, start, run);
    OnePass(base, start, run, ids, {}, OfSeason);
    assert {} + {OfSeason} == {OfSeason};
    OnePass(base, start, run, ids, {OfSeason}, OfDrama);
    assert {OfSeason} + {OfDrama} == {OfSeason, OfDrama};
    OnePass(base, start, run, ids, {OfSeason, OfDrama}, OfPlan);
    assert {OfSeason, OfDrama} + {OfPlan} == {OfSeason, OfDrama, OfPlan};
    OnePass(base, start, run, ids, {OfSeason, OfDrama, OfPlan}, OfUser);
    assert {OfSeason, OfDrama, OfPlan} + {OfUser} == {OfSeason, OfDrama, OfPlan, OfUser};
  }

  /** A row no record names survives every pass. */
  lemma {:induction false} PassSpares(u: Undone, records: map<Id, Record>, ids: seq<Id>, entity: Entity, x: Id)
    requires (forall id :: id in ids ==> id in records && records[id].target != x) && x in u.db.rows
    ensures x in Pass(u, records, ids, entity).db.rows
  {
    if ids != [] {
      PassSpares(u, records, ids[..|ids| - 1], entity, x);
    }
  }

  lemma PassesSpare(db: Database, ids: seq<Id>, x: Id)
    requires (forall id :: id in ids ==> id in db.ledger && db.ledger[id].target != x) && x in db.rows
    ensures x in FourPasses(db, ids).db.rows
  {
    hide Pass;
    var records := db.ledger;
    var u := Undone(db, 0);
    PassSpares(u, records, ids, OfSeason, x);
    u := Pass(u, records, ids, OfSeason);
    PassSpares(u, records, ids, OfDrama, x);
    u := Pass(u, records, ids, OfDrama);
    PassSpares(u, records, ids, OfPlan, x);
    u := Pass(u, records, ids, OfPlan);
    PassSpares(u, records, ids, OfUser, x);
  }

  /** No record names the orphan. */
  lemma OrphanIsUnnamed(base: Database, p: Progress, run: string, id: Id)
    requires Ready(base, run) && Adds(base, p, run) && p.outcome.Orphaned? && id in p.db.ledger && p.db.ledger[id].run == run
    ensures p.db.ledger[id].target != p.outcome.id
  {
    hide Rooted;
    assert id !in base.ledger;
  }

  lemma OrphanIsNew(base: Database, p: Progress, run: string)
    requires Ready(base, run) && Adds(base, p, run) && p.outcome.Orphaned?
    ensures p.outcome.id in p.db.rows && p.outcome.id !in base.rows
  {
    hide Rooted, NewRecords;
  }

  lemma OrphanStays(base: Database, p: Progress, run: string, ids: seq<Id>)
    requires Ready(base, run) && Adds(base, p, run) && Lists(p.db, run, ids) && p.outcome.Orphaned?
    ensures p.outcome.id in Rollback(p.db, run, ids).db.rows && p.outcome.id !in base.rows
  {
    ListsRecords(p.db, run, ids);
    hide Adds, Ready, Lists, FourPasses;
    OrphanIsNew(base, p, run);
    forall id | id in ids ensures p.db.ledger[id].target != p.outcome.id {
      OrphanIsUnnamed(base, p, run, id);
    }
    PassesSpare(p.db, ids, p.outcome.id);
  }

  lemma ListsRecords(db: Database, run: string, ids: seq<Id>)
    requires Lists(db, run, ids)
    ensures forall id :: id in ids ==> id in db.ledger && db.ledger[id].run == run
  {
  }

  // ---------------------------------------------------------------------
  // Which inputs cannot be rolled back

  /** The records of the rows a run would create, found without writing any. */
  datatype Draft = Draft(db: Database, seen: set<string>, entries: seq<Entry>, stopped: bool)

  function DraftOne(d: Draft, t: Task, dummyHash: string): Draft {
    if d.stopped then d
    else
      var e := d.(seen := Seen(d.seen, t));
      match Propose(d.db, d.seen, t, dummyHash)
      case Make(row, key) =>
        var db := Created(d.db, row);
        e.(db := db.(next := db.next + 1), entries := d.entries + [Entry(t.entity, t.source, key)])
      case Invalid => e
      case Duplicate(_) => e
      case _ => e.(stopped := true)
  }

  function DraftAll(db: Database, tasks: seq<Task>, dummyHash: string): Draft {
    if tasks == [] then Draft(db, {}, [], false)
    else DraftOne(DraftAll(db, tasks[..|tasks| - 1], dummyHash), tasks[|tasks| - 1], dummyHash)
  }

  predicate SameKey(a: Entry, b: Entry) { a.entity == b.entity && a.key == b.key }

  /** A record that does not fit its columns, or two of one table with one key. */
  ghost predicate Clash(run: string, entries: seq<Entry>) {
    || (exists i :: 0 <= i < |entries| && !Fits(run, entries[i]))
    || (exists i, j :: 0 <= i < j < |entries| && SameKey(entries[i], entries[j]))
  }

  /** The run and its draft go hand in hand until an entry clashes. */
  ghost predicate InStep(base: Database, p: Progress, d: Draft, run: string) {
    if Clash(run, d.entries) then p.outcome.Orphaned?
    else
      && (p.outcome == if d.stopped then Stopped else Going)
      && p.db.rows == d.db.rows && p.db.next == d.db.next && p.seen == d.seen
      && (forall r :: r in p.db.ledger && p.db.ledger[r].run == run ==> EntryOf(p.db.ledger[r]) in d.entries)
      && (forall i :: 0 <= i < |d.entries| ==> Known(p.db.ledger, run, d.entries[i]))
  }

  function EntryOf(r: Record): Entry { Entry(r.entity, r.source, r.key) }

  ghost predicate Known(ledger: map<Id, Record>, run: string, e: Entry) {
    exists r :: r in ledger && ledger[r].run == run && EntryOf(ledger[r]) == e
  }

  ghost predicate KeyTaken(entries: seq<Entry>, e: Entry) { exists i :: 0 <= i < |entries| && SameKey(entries[i], e) }

  lemma ClashGrows(run: string, entries: seq<Entry>, e: Entry)
    ensures Clash(run, entries + [e]) <==> Clash(run, entries) || !Fits(run, e) || KeyTaken(entries, e)
  {
    hide Fits, SameKey;
    var all := entries + [e];
    assert all[|entries|] == e;
    if Clash(run, entries) {
      if i :| 0 <= i < |entries| && !Fits(run, entries[i]) {
        assert !Fits(run, all[i]);
      } else {
        var i, j :| 0 <= i < j < |entries| && SameKey(entries[i], entries[j]);
        assert SameKey(all[i], all[j]);
      }
    }
    if KeyTaken(entries, e) {
      var i :| 0 <= i < |entries| && SameKey(entries[i], e);
      assert SameKey(all[i], all[|entries|]);
    }
  }

  lemma RecordableIs(p: Progress, row: Row, d: Draft, run: string, e: Entry)
    requires (forall r :: r in p.db.ledger && p.db.ledger[r].run == run ==> EntryOf(p.db.ledger[r]) in d.entries)
    requires (forall i :: 0 <= i < |d.entries| ==> Known(p.db.ledger, run, d.entries[i]))
    ensures Recordable(Created(p.db, row), run, e) <==> Fits(run, e) && !KeyTaken(d.entries, e)
  {
    hide Fits;
    if KeyTaken(d.entries, e) {
      var i :| 0 <= i < |d.entries| && SameKey(d.entries[i], e);
      assert Known(p.db.ledger, run, d.entries[i]);
    }
    if r :| r in p.db.ledger && p.db.ledger[r].run == run && p.db.ledger[r].entity == e.entity && p.db.ledger[r].key == e.key {
      var i :| 0 <= i < |d.entries| && d.entries[i] == EntryOf(p.db.ledger[r]);
      assert SameKey(d.entries[i], e);
    }
  }

  lemma KnownGrows(ledger: map<Id, Record>, run: string, r: Id, record: Record, e: Entry)
    requires r !in ledger && record.run == run
    ensures Known(ledger, run, e) || e == EntryOf(record) ==> Known(ledger[r := record], run, e)
  {
    if x :| x in ledger && ledger[x].run == run && EntryOf(ledger[x]) == e {
      assert ledger[r := record][x] == ledger[x];
    }
    assert ledger[r := record][r] == record;
  }

  lemma MakeInStep(base: Database, p: Progress, d: Draft, t: Task, row: Row, key: string, o: Options)
    requires InStep(base, p, d, o.run) && !Clash(o.run, d.entries) && !d.stopped && !o.dry
    requires forall r :: r in p.db.ledger ==> r < p.db.next
    ensures var db := Created(d.db, row);
      InStep(base, DoMake(p, t, row, key, o),
             d.(db := db.(next := db.next + 1), entries := d.entries + [Entry(t.entity, t.source, key)]), o.run)
  {
    hide Clash, Recordable, Known, Bump, KeyTaken, Fits;
    var e := Entry(t.entity, t.source, key);
    ClashGrows(o.run, d.entries, e);
    RecordableIs(p, row, d, o.run, e);
    if Recordable(Created(p.db, row), o.run, e) {
      var record := Record(o.run, t.source, key, t.entity, p.db.next);
      var entries := d.entries + [e];
      forall i | 0 <= i < |entries| ensures Known(p.db.ledger[p.db.next + 1 := record], o.run, entries[i]) {
        KnownGrows(p.db.ledger, o.run, p.db.next + 1, record, entries[i]);
      }
    }
  }

  lemma LedgerBelow(base: Database, p: Progress, run: string)
    requires Ready(base, run) && Adds(base, p, run)
    ensures forall r :: r in p.db.ledger ==> r < p.db.next
  {
  }

  lemma DoInStep(base: Database, p: Progress, d: Draft, t: Task, o: Options)
    requires Ready(base, o.run) && Adds(base, p, o.run) && InStep(base, p, d, o.run) && !o.dry
    ensures InStep(base, Do(p, t, o), DraftOne(d, t, o.dummyHash), o.run)
  {
    hide Ready, Adds, Clash, Propose, DoMake, Seen, Known;
    LedgerBelow(base, p, o.run);
    var m := Propose(d.db, d.seen, t, o.dummyHash);
    if m.Make? {
      ClashGrows(o.run, d.entries, Entry(t.entity, t.source, m.key));
    }
    if !Clash(o.run, d.entries) && !d.stopped {
      SameProposal(p.db, d.db, p.seen, t, o.dummyHash);
      if m.Make? {
        MakeInStep(base, p.(seen := Seen(p.seen, t)), d.(seen := Seen(d.seen, t)), t, m.row, m.key, o);
      }
    }
  }

  lemma SameProposal(a: Database, b: Database, seen: set<string>, t: Task, dummyHash: string)
    requires a.rows == b.rows && a.next == b.next
    ensures Propose(a, seen, t, dummyHash) == Propose(b, seen, t, dummyHash)
  {
    hide ProposeUser, ProposePlan, ProposeDrama, ProposeSeason;
  }

  lemma {:induction false} AllInStep(base: Database, tasks: seq<Task>, o: Options)
    requires Ready(base, o.run) && !o.dry
    ensures InStep(base, DoAll(Beginning(base), tasks, o), DraftAll(base, tasks, o.dummyHash), o.run)
  {
    if tasks != [] {
      hide Ready, InStep, Do, DraftOne;
      var front := tasks[..|tasks| - 1];
      AllInStep(base, front, o);
      AllAdds(base, front, o);
      DoInStep(base, DoAll(Beginning(base), front, o), DraftAll(base, front, o.dummyHash), tasks[|tasks| - 1], o);
    }
  }

  /** The draft creates a row exactly when it has an entry. */
  lemma {:induction false} DraftedRows(base: Database, tasks: seq<Task>, dummyHash: string)
    ensures var d := DraftAll(base, tasks, dummyHash);
      if d.entries == [] then d.db == base else base.next in d.db.rows && d.db.next > base.next
  {
    if tasks != [] {
      hide Propose, Seen;
      DraftedRows(base, tasks[..|tasks| - 1], dummyHash);
    }
  }

  lemma NothingRecorded(base: Database, db: Database, run: string)
    requires Ready(base, run) && Kept(base, db) && NewRecords(base, db, run) && db.rows == base.rows
    ensures db.ledger == base.ledger
  {
    hide Rooted;
    forall r | r in db.ledger ensures r in base.ledger {
    }
  }

  /** A run can be taken back: it has an id if it creates anything, and every record
      it needs fits its columns and has a key of its own in its table. */
  ghost predicate Recoverable(run: string, entries: seq<Entry>) {
    (run == "" ==> entries == []) && !Clash(run, entries)
  }

  /** The four tables and the ledger are as before, and no deletion was refused. */
  predicate Restored(base: Database, u: Undone) { u.db.rows == base.rows && u.db.ledger == base.ledger && u.failures == 0 }

  /** Rolling back an applied run, with nothing written in between, brings back users,
      plans, dramas, seasons and the ledger exactly, and no deletion is refused, if
      and only if the run can be taken back. */
  lemma RollbackInvertsMigration(base: Database, input: Input, o: Options, ids: seq<Id>)
    requires Ready(base, o.run) && !o.dry && Lists(Migrate(base, input, o).db, o.run, ids)
    ensures Restored(base, Rollback(Migrate(base, input, o).db, o.run, ids))
      <==> Recoverable(o.run, DraftAll(base, Tasks(input), o.dummyHash).entries)
  {
    hide Clash, Tasks, FourPasses, DoAll, DraftAll, Ready, Lists, Kept, NewRows, NewRecords, Rooted, Known;
    var p, d := Migrate(base, input, o), DraftAll(base, Tasks(input), o.dummyHash);
    AllAdds(base, Tasks(input), o);
    AllInStep(base, Tasks(input), o);
    DraftedRows(base, Tasks(input), o.dummyHash);
    NextIsFree(base, o.run);
    if p.outcome.Orphaned? {
      OrphanStays(base, p, o.run, ids);
    } else if o.run == "" {
      if d.entries == [] {
        NothingRecorded(base, p.db, o.run);
      }
    } else {
      GoingRows(base, p.db, p.outcome);
      WholeRollsBack(base, p.db, o.run, ids);
    }
  }

  lemma NextIsFree(base: Database, run: string)
    requires Ready(base, run)
    ensures base.next !in base.rows
  {
  }

  lemma GoingRows(base: Database, db: Database, outcome: Outcome)
    requires NewRows(base, db, outcome) && !outcome.Orphaned?
    ensures NewRows(base, db, Going)
  {
  }

  // ---------------------------------------------------------------------
  // Source keys

  /** The key a row is recorded under depends on the row alone. */
  function KeyOf(t: Task): string {
    match t.entity
    case OfUser => SourceKey(t.row, Decimal(t.index))
    case OfPlan => SourceKey(t.row, Slice(Lower(Or(TextOf(t.row, ["code", "slug"]), "legacy_plan_" + Decimal(t.index))), 50))
    case OfDrama => SourceKey(t.row, Slice(Lower(Or(TextOf(t.row, ["slug", "code"]), "legacy-drama-" + Decimal(t.index))), 220))
    case OfSeason =>
      var number := IntegerOf(t.row, ["season_number", "season", "number"], 1);
      SourceKey(t.row, Or(TextOf(t.row, ["drama_slug", "drama_code", "slug_parent"]), "") + ":"
                       + Decimal(if number.Some? && number.value >= 0 then number.value else 0))
  }

  lemma MadeKey(db: Database, seen: set<string>, t: Task, dummyHash: string)
    ensures var m := Propose(db, seen, t, dummyHash); m.Make? ==> m.key == KeyOf(t)
  {
    hide TextOf, IntegerOf, Email, SourceKey, HasArgonHash, Slice, Lower, Decimal, HasUser, HasPlan, HasSeason, DramaBySlug;
  }

  function EntryFor(t: Task): Entry { Entry(t.entity, t.source, KeyOf(t)) }

  ghost predicate DistinctKeys(run: string, tasks: seq<Task>) {
    && (forall i :: 0 <= i < |tasks| ==> Fits(run, EntryFor(tasks[i])))
    && (forall i, j :: 0 <= i < j < |tasks| ==> !SameKey(EntryFor(tasks[i]), EntryFor(tasks[j])))
  }

  ghost predicate EntryOfSome(tasks: seq<Task>, e: Entry) { exists i :: 0 <= i < |tasks| && e == EntryFor(tasks[i]) }

  /** Every entry drafted is that of a task. */
  lemma {:induction false} DraftedKeys(base: Database, run: string, tasks: seq<Task>, dummyHash: string)
    requires DistinctKeys(run, tasks)
    ensures var entries := DraftAll(base, tasks, dummyHash).entries;
      !Clash(run, entries) && forall e :: e in entries ==> EntryOfSome(tasks, e)
  {
    if tasks != [] {
      hide KeyOf, Propose, Clash, Seen, Fits, SameKey;
      var front, t := tasks[..|tasks| - 1], tasks[|tasks| - 1];
      DraftedKeys(base, run, front, dummyHash);
      var d := DraftAll(base, front, dummyHash);
      MadeKey(d.db, d.seen, t, dummyHash);
      ClashGrows(run, d.entries, EntryFor(t));
      forall e | e in d.entries ensures EntryOfSome(tasks, e) && !SameKey(e, EntryFor(t)) {
        assert EntryOfSome(front, e);
        var i :| 0 <= i < |front| && e == EntryFor(front[i]);
        assert tasks[i] == front[i];
      }
      assert EntryOfSome(tasks, EntryFor(t));
    } else {
      assert !Clash(run, []);
    }
  }

  /** So a run id of 1 to 80 characters and source keys that fit and are distinct in
      each table are enough, whatever the database holds. */
  lemma DistinctKeysRollBack(base: Database, input: Input, o: Options, ids: seq<Id>)
    requires Ready(base, o.run) && !o.dry && Lists(Migrate(base, input, o).db, o.run, ids)
    requires o.run != "" && DistinctKeys(o.run, Tasks(input))
    ensures Restored(base, Rollback(Migrate(base, input, o).db, o.run, ids))
  {
    hide Clash, Tasks, Rollback, Migrate, DraftAll, Ready, Lists, DistinctKeys, Restored;
    DraftedKeys(base, o.run, Tasks(input), o.dummyHash);
    RollbackInvertsMigration(base, input, o, ids);
  }

  // ---------------------------------------------------------------------
  // Runs that cannot be taken back

  const NO_ROWS := Database(map[], map[], 0)

  /** A source row with an id and an address. */
  function UserRow(id: string, email: string): SourceRow { map["id" := Cell(id, None), "email" := Cell(email, None)] }

  function UsersOnly(rows: seq<SourceRow>): Input { Input(Source("users", rows), Source("", []), Source("", []), Source("", [])) }

  lemma UserRowReads(id: string, email: string)
    ensures var r := UserRow(id, email);
      && TextOf(r, ["email", "email_address"]) == Some(Trim(email))
      && TextOf(r, ["id", "uuid", "user_id", "episode_id", "slug", "code"]) == Some(Trim(id))
      && TextOf(r, ["username", "user_name", "name"]) == None && TextOf(r, ["password_hash", "password", "pass"]) == None
  {
    hide Trim;
    var r := UserRow(id, email);
    assert ["username", "user_name", "name"][1..] == ["user_name", "name"] && ["user_name", "name"][1..] == ["name"] && ["name"][1..] == [];
    assert ["password_hash", "password", "pass"][1..] == ["password", "pass"] && ["password", "pass"][1..] == ["pass"] && ["pass"][1..] == [];
    assert Value(r, ["name"]) == None && Value(r, ["pass"]) == None;
    assert Value(r, ["user_name", "name"]) == None && Value(r, ["password", "pass"]) == None;
  }

  lemma UserRowIsMade(db: Database, seen: set<string>, index: nat, id: string, email: string, dummyHash: string)
    requires Trim(id) == id && Trim(email) == email && '@' in email && Lower(email) == email
    requires Stores(email, EMAIL_WIDTH) && Stores(dummyHash, HASH_WIDTH) && Stores(id, 70)
    requires email !in seen && !HasUser(db.rows, email) && !ClaimsEmail(db.rows, email)
    ensures Email(UserRow(id, email)) == Some(email)
    ensures Propose(db, seen, Task(OfUser, "users", index, UserRow(id, email)), dummyHash)
         == Make(User(email, "legacy_" + id, dummyHash, false), id)
  {
    hide TextOf, Decimal, HasUser, ClaimsEmail, Lower, Trim;
    UserRowReads(id, email);
  }

  lemma ShortTexts()
    ensures Trim("1") == "1" && Stores("1", 70)
    ensures forall e: string :: e in {"a@x", "b@x"} ==>
      Trim(e) == e && Lower(e) == e && '@' in e && Stores(e, EMAIL_WIDTH)
  {
    ShortAddresses();
    hide Lower, Trim;
    TrimPadded("", "1");
    TrimPadded("", "a@x");
    TrimPadded("", "b@x");
    assert "" + "1" == "1" && "" + "a@x" == "a@x" && "" + "b@x" == "b@x";
  }

  lemma ShortAddresses()
    ensures Lower("a@x") == "a@x" && Lower("b@x") == "b@x" && '@' in "a@x" && '@' in "b@x"
  {
    assert "a@x"[1] == '@' && "b@x"[1] == '@';
  }

  const FIRST := User("a@x", "legacy_" + "1", "", false)

  lemma FirstDraft(dummyHash: string)
    requires Stores(dummyHash, HASH_WIDTH)
    ensures var d := DraftOne(Draft(NO_ROWS, {}, [], false), Task(OfUser, "users", 0, UserRow("1", "a@x")), dummyHash);
      && d.entries == [Entry(OfUser, "users", "1")] && !d.stopped && d.seen == {"a@x"}
      && d.db.rows == map[0 := FIRST.(hash := dummyHash)]
  {
    ShortTexts();
    hide Stores, UserRow, Trim, Lower;
    UserRowIsMade(NO_ROWS, {}, 0, "1", "a@x", dummyHash);
    hide Propose, Email;
    assert {} + {"a@x"} == {"a@x"};
  }

  lemma OneUserDraft(dummyHash: string)
    requires Stores(dummyHash, HASH_WIDTH)
    ensures var d := DraftAll(NO_ROWS, Tasks(UsersOnly([UserRow("1", "a@x")])), dummyHash);
      && d.entries == [Entry(OfUser, "users", "1")] && !d.stopped && d.seen == {"a@x"}
      && d.db.rows == map[0 := FIRST.(hash := dummyHash)]
  {
    hide UserRow, Stores, DraftOne;
    var t := Task(OfUser, "users", 0, UserRow("1", "a@x"));
    assert Tasks(UsersOnly([UserRow("1", "a@x")])) == [t];
    FirstDraft(dummyHash);
    assert DraftAll(NO_ROWS, [], dummyHash) == Draft(NO_ROWS, {}, [], false) && [t][..0] == [];
  }

  lemma SecondIsNew(dummyHash: string)
    ensures var rows := map[0 := FIRST.(hash := dummyHash)]; !HasUser(rows, "b@x") && !ClaimsEmail(rows, "b@x")
  {
    ShortTexts();
    hide HasUser, ClaimsEmail, Trim, Lower, Stores;
    assert "a@x"[0] != "b@x"[0];
    OneUser(FIRST.(hash := dummyHash), "b@x");
  }

  lemma OneUser(row: Row, email: string)
    requires row.User? && row.email != email && Lower(row.email) != email
    ensures !HasUser(map[0 := row], email) && !ClaimsEmail(map[0 := row], email)
  {
    hide Lower;
  }

  lemma SecondDraft(d: Draft, dummyHash: string)
    requires Stores(dummyHash, HASH_WIDTH) && !d.stopped && d.seen == {"a@x"} && d.db.rows == map[0 := FIRST.(hash := dummyHash)]
    ensures DraftOne(d, Task(OfUser, "users", 1, UserRow("1", "b@x")), dummyHash).entries == d.entries + [Entry(OfUser, "users", "1")]
  {
    ShortTexts();
    SecondIsNew(dummyHash);
    assert "a@x"[0] != "b@x"[0];
    hide HasUser, ClaimsEmail, Stores, UserRow, Trim, Lower;
    UserRowIsMade(d.db, d.seen, 1, "1", "b@x", dummyHash);
    hide Propose, Email;
  }

  lemma TwoUserDraft(dummyHash: string)
    requires Stores(dummyHash, HASH_WIDTH)
    ensures DraftAll(NO_ROWS, Tasks(UsersOnly([UserRow("1", "a@x"), UserRow("1", "b@x")])), dummyHash).entries
         == [Entry(OfUser, "users", "1"), Entry(OfUser, "users", "1")]
  {
    hide UserRow, Stores, DraftOne, HasUser, ClaimsEmail;
    var a, b := UserRow("1", "a@x"), UserRow("1", "b@x");
    var t, u := Task(OfUser, "users", 0, a), Task(OfUser, "users", 1, b);
    assert Tasks(UsersOnly([a, b])) == [t, u];
    assert Tasks(UsersOnly([a])) == [t];
    OneUserDraft(dummyHash);
    SecondDraft(DraftAll(NO_ROWS, [t], dummyHash), dummyHash);
    assert [t, u][..1] == [t];
  }

  lemma TooWide(run: string, e: Entry)
    requires |run| > RUN_WIDTH
    ensures Clash(run, [e])
  {
    assert !Fits(run, [e][0]);
  }

  lemma SameTwice(run: string, e: Entry)
    ensures Clash(run, [e, e])
  {
    hide Fits;
    assert SameKey([e, e][0], [e, e][1]);
  }

  /** Two users with one source id and different addresses: the second is created,
      its record refused, and the rollback does not restore the database. */
  lemma OneIdTwice(run: string, dummyHash: string, ids: seq<Id>)
    requires var after := Migrate(NO_ROWS, UsersOnly([UserRow("1", "a@x"), UserRow("1", "b@x")]), Options(run, false, dummyHash));
      Stores(dummyHash, HASH_WIDTH) && Lists(after.db, run, ids)
    ensures var after := Migrate(NO_ROWS, UsersOnly([UserRow("1", "a@x"), UserRow("1", "b@x")]), Options(run, false, dummyHash));
      !Restored(NO_ROWS, Rollback(after.db, run, ids))
  {
    hide Migrate, Rollback, Restored, DraftAll, Tasks, UserRow, UsersOnly, Stores, Lists, Clash;
    TwoUserDraft(dummyHash);
    SameTwice(run, Entry(OfUser, "users", "1"));
    RollbackInvertsMigration(NO_ROWS, UsersOnly([UserRow("1", "a@x"), UserRow("1", "b@x")]), Options(run, false, dummyHash), ids);
  }

  /** One user under a run id that is empty or longer than 80 characters: created and
      never taken back. */
  lemma UnusableRunId(run: string, dummyHash: string, ids: seq<Id>)
    requires run == "" || |run| > RUN_WIDTH
    requires var after := Migrate(NO_ROWS, UsersOnly([UserRow("1", "a@x")]), Options(run, false, dummyHash));
      Stores(dummyHash, HASH_WIDTH) && Lists(after.db, run, ids)
    ensures var after := Migrate(NO_ROWS, UsersOnly([UserRow("1", "a@x")]), Options(run, false, dummyHash));
      !Restored(NO_ROWS, Rollback(after.db, run, ids))
  {
    hide Migrate, Rollback, Restored, DraftAll, Tasks, UserRow, UsersOnly, Stores, Lists, Clash;
    OneUserDraft(dummyHash);
    if run != "" {
      TooWide(run, Entry(OfUser, "users", "1"));
    }
    RollbackInvertsMigration(NO_ROWS, UsersOnly([UserRow("1", "a@x")]), Options(run, false, dummyHash), ids);
  }

  // ---------------------------------------------------------------------
  // Dry runs

  /** An address is taken in the applied run exactly if it was to begin with or was seen. */
  ghost predicate EmailAgrees(base: map<Id, Row>, rows: map<Id, Row>, seen: set<string>, e: string) {
    && (HasUser(base, e) ==> HasUser(rows, e)) && (HasUser(rows, e) ==> HasUser(base, e) || e in seen)
    && (ClaimsEmail(base, e) ==> ClaimsEmail(rows, e)) && (ClaimsEmail(rows, e) ==> ClaimsEmail(base, e) || e in seen)
  }

  /** The dry run and the applied run have seen and reported the same so far. */
  ghost predicate Agree(base: Database, wet: Progress, dry: Progress) {
    && dry.db == base && dry.outcome == Going && wet.outcome == Going
    && wet.seen == dry.seen && wet.counts == dry.counts && wet.duplicates == dry.duplicates && wet.errors == dry.errors
    && (forall e :: EmailAgrees(base.rows, wet.db.rows, wet.seen, e))
    && (forall id :: id in wet.db.rows ==> id < wet.db.next)
  }

  lemma LowerTwice(s: string)
    ensures Lower(Lower(s)) == Lower(s)
  {
  }

  lemma UserProposals(base: Database, wet: Progress, dry: Progress, t: Task, dummyHash: string)
    requires Agree(base, wet, dry) && t.entity.OfUser?
    ensures Propose(wet.db, wet.seen, t, dummyHash) == Propose(base, dry.seen, t, dummyHash)
    ensures var m := Propose(base, dry.seen, t, dummyHash);
      m.Make? ==> m.row.User? && Email(t.row) == Some(m.row.email)
  {
    hide TextOf, SourceKey, HasArgonHash, Slice, Decimal, Email, HasUser, ClaimsEmail, Clean, Stores;
    var email := Email(t.row);
    if email.Some? {
      assert EmailAgrees(base.rows, wet.db.rows, wet.seen, email.value);
    }
  }

  lemma EmailIsLower(row: SourceRow)
    requires Email(row).Some?
    ensures Lower(Email(row).value) == Email(row).value
  {
    hide TextOf;
    LowerTwice(TextOf(row, ["email", "email_address"]).value);
  }

  lemma CreatedUser(db: Database, row: Row, e: string)
    requires row.User? && forall id :: id in db.rows ==> id < db.next
    ensures HasUser(Created(db, row).rows, e) <==> HasUser(db.rows, e) || e == row.email
    ensures ClaimsEmail(Created(db, row).rows, e) <==> ClaimsEmail(db.rows, e) || e == Lower(row.email)
  {
    hide Lower;
    var rows := Created(db, row).rows;
    assert rows[db.next] == row;
    if id :| id in db.rows && db.rows[id].User? && db.rows[id].email == e {
      assert rows[id] == db.rows[id];
    }
    if id :| id in db.rows && db.rows[id].User? && Lower(db.rows[id].email) == e {
      assert rows[id] == db.rows[id];
    }
  }

  lemma DoAgrees(base: Database, wet: Progress, dry: Progress, t: Task, o: Options)
    requires Agree(base, wet, dry) && t.entity.OfUser? && Do(wet, t, o.(dry := false)).outcome == Going
    ensures Agree(base, Do(wet, t, o.(dry := false)), Do(dry, t, o.(dry := true)))
  {
    UserProposals(base, wet, dry, t, o.dummyHash);
    hide Propose, HasUser, ClaimsEmail, Recordable, Bump, Email, Lower;
    var w := Do(wet, t, o.(dry := false));
    var m := Propose(base, dry.seen, t, o.dummyHash);
    forall e ensures EmailAgrees(base.rows, w.db.rows, w.seen, e) {
      assert EmailAgrees(base.rows, wet.db.rows, wet.seen, e);
      if m.Make? {
        EmailIsLower(t.row);
        CreatedUser(wet.db, m.row, e);
      }
    }
  }

  /** For users a dry run reports exactly what the applied run will, if it finishes. */
  lemma {:induction false} UsersDryRunPredicts(base: Database, tasks: seq<Task>, o: Options)
    requires (forall id :: id in base.rows ==> id < base.next) && (forall i :: 0 <= i < |tasks| ==> tasks[i].entity.OfUser?)
    requires DoAll(Beginning(base), tasks, o.(dry := false)).outcome == Going
    ensures Agree(base, DoAll(Beginning(base), tasks, o.(dry := false)), DoAll(Beginning(base), tasks, o.(dry := true)))
  {
    if tasks != [] {
      hide Agree, Propose, DoMake, Seen;
      var front := tasks[..|tasks| - 1];
      UsersDryRunPredicts(base, front, o);
      DoAgrees(base, DoAll(Beginning(base), front, o.(dry := false)), DoAll(Beginning(base), front, o.(dry := true)),
               tasks[|tasks| - 1], o);
    }
  }

  lemma TwoTasks(p: Progress, t: Task, u: Task, o: Options)
    ensures DoAll(p, [t, u], o) == Do(Do(p, t, o), u, o)
  {
    hide Do;
    assert [t, u][..1] == [t] && [t][..0] == [];
    assert DoAll(p, [t], o) == Do(DoAll(p, [], o), t, o);
  }

  /** The slug of a drama row that names one. */
  function SlugOf(row: SourceRow): string
    requires TextOf(row, ["slug", "code"]).Some?
  {
    Slice(Lower(TextOf(row, ["slug", "code"]).value), 220)
  }

  /** No text of the row holds what its column refuses. */
  predicate CleanDrama(row: SourceRow)
    requires TextOf(row, ["slug", "code"]).Some?
  {
    var description := TextOf(row, ["description", "details"]);
    && Clean(SlugOf(row)) && Clean(Slice(Or(TextOf(row, ["name", "title"]), SlugOf(row)), 200))
    && (description.Some? ==> Clean(description.value))
  }

  lemma DramaProposal(db: Database, seen: set<string>, t: Task, dummyHash: string)
    requires t.entity.OfDrama? && TextOf(t.row, ["slug", "code"]).Some? && CleanDrama(t.row)
    ensures var m, found := Propose(db, seen, t, dummyHash), DramaBySlug(db.rows, SlugOf(t.row), db.next);
      if found.Some? then m.Duplicate? else m.Make? && m.row.Drama? && m.row.slug == SlugOf(t.row) && m.key == SourceKey(t.row, SlugOf(t.row))
  {
    hide TextOf, SourceKey, Slice, Lower, Decimal, Clean;
  }

  lemma CreatedDrama(base: Database, row: Row, r: Record)
    requires row.Drama? && forall id :: id in base.rows ==> id < base.next
    ensures var db := Entered(Created(base, row), r); DramaBySlug(db.rows, row.slug, db.next).Some?
  {
    var db := Entered(Created(base, row), r);
    assert base.next + 1 !in db.rows;
    assert DramaBySlug(db.rows, row.slug, base.next + 1) == Some(base.next);
  }

  /** For dramas it does not: two source rows with one slug, new to the database, are
      counted twice by the dry run and once when applied. */
  lemma DramasDryRunMiscounts(base: Database, source: string, row: SourceRow, o: Options)
    requires Ready(base, o.run) && TextOf(row, ["slug", "code"]).Some? && CleanDrama(row)
    requires DramaBySlug(base.rows, SlugOf(row), base.next).None? && Fits(o.run, Entry(OfDrama, source, SourceKey(row, SlugOf(row))))
    ensures var tasks := [Task(OfDrama, source, 0, row), Task(OfDrama, source, 1, row)];
      && DoAll(Beginning(base), tasks, o.(dry := true)).counts == map[OfDrama := 2]
      && DoAll(Beginning(base), tasks, o.(dry := false)).counts == map[OfDrama := 1]
  {
    hide TextOf, SourceKey, SlugOf, Propose, DramaBySlug, DoAll, CleanDrama, Fits;
    var t0, t1 := Task(OfDrama, source, 0, row), Task(OfDrama, source, 1, row);
    TwoTasks(Beginning(base), t0, t1, o.(dry := true));
    TwoTasks(Beginning(base), t0, t1, o.(dry := false));
    DramaProposal(base, {}, t0, o.dummyHash);
    DramaProposal(base, {}, t1, o.dummyHash);
    var m := Propose(base, {}, t0, o.dummyHash);
    var record := Record(o.run, source, m.key, OfDrama, base.next);
    var wet := Do(Beginning(base), t0, o.(dry := false));
    assert wet.db == Entered(Created(base, m.row), record);
    CreatedDrama(base, m.row, record);
    DramaProposal(wet.db, {}, t1, o.dummyHash);
  }
}
