/** The soft-deleted content tree: dramas, their seasons, their episodes, and one
    media asset per episode (src/dramas/dramas.service.ts:33-96,
    src/seasons/seasons.service.ts:25-82, src/episodes/episodes.service.ts:15-88,
    src/media-assets/media-assets.service.ts:42-65). Every call is one step. */
module ContentTree {
  import opened Text

  type Id = nat

  datatype Status = DRAFT | PUBLISHED | ARCHIVED

  datatype Visibility = PUBLIC | PRIVATE

  datatype MediaStatus = PROCESSING | ACTIVE | INACTIVE | ERROR

  /** `live` says that `deletedAt` is null. */
  datatype Drama = Drama(slug: string, published: bool, live: bool)

  datatype Season = Season(drama: Id, number: int, live: bool)

  datatype Episode = Episode(season: Id, number: int, title: Option<string>, published: bool, status: Status,
                             visibility: Visibility, premium: bool, live: bool)

  datatype Media = Media(episode: Id, status: MediaStatus, locator: string, version: int, live: bool)

  datatype Catalog = Catalog(
    dramas: map<Id, Drama>,
    seasons: map<Id, Season>,
    episodes: map<Id, Episode>,
    media: map<Id, Media>,
    next: Id)                 // ids are fresh

  datatype Action = Publish | Unpublish | Delete | Restore

  /** The optional fields of a request are the ones it sets. */
  datatype EpisodeFields = EpisodeFields(season: Option<Id>, number: Option<int>, title: Option<string>, status: Option<Status>,
                                         published: Option<bool>, visibility: Option<Visibility>, premium: Option<bool>)

  datatype MediaFields = MediaFields(status: Option<MediaStatus>, locator: Option<string>, version: Option<int>)

  datatype Event =
    | CreateDrama(slug: string, published: Option<bool>)
    | UpdateDrama(id: Id, newSlug: Option<string>, published: Option<bool>)
    | RemoveDrama(id: Id)
    | RestoreDrama(id: Id)
    | PublishDrama(id: Id, publish: bool)
    | BulkDramas(ids: set<Id>, action: Action)
    | CreateSeason(drama: Id, number: int)
    | UpdateSeason(id: Id, newDrama: Option<Id>, newNumber: Option<int>)
    | RemoveSeason(id: Id)
    | RestoreSeason(id: Id)
    | BulkSeasons(ids: set<Id>, action: Action)
    | CreateEpisode(season: Id, number: int, fields: EpisodeFields)
    | UpdateEpisode(id: Id, fields: EpisodeFields)
    | RemoveEpisode(id: Id)
    | RestoreEpisode(id: Id)
    | PublishEpisode(id: Id, publish: bool)
    | BulkEpisodes(ids: set<Id>, action: Action)
    | CreateMedia(episode: Id, status: Option<MediaStatus>, locator: string, version: Option<int>)
    | UpdateMedia(id: Id, media: MediaFields)
    | RemoveMedia(id: Id)
    | RestoreMedia(id: Id)

  datatype Reply = NotFound | Conflict | Done(affected: nat)

  datatype Result = Result(catalog: Catalog, reply: Reply)

  // ---------------------------------------------------------------------
  // Which parents are live

  predicate LiveDrama(c: Catalog, id: Id) { id in c.dramas && c.dramas[id].live }

  /** The season and its drama. */
  predicate LiveSeason(c: Catalog, id: Id) { id in c.seasons && c.seasons[id].live && LiveDrama(c, c.seasons[id].drama) }

  /** The episode and its whole parent chain. */
  predicate LiveEpisode(c: Catalog, id: Id) { id in c.episodes && c.episodes[id].live && LiveSeason(c, c.episodes[id].season) }

  predicate LiveMedia(c: Catalog, id: Id) { id in c.media && c.media[id].live }

  // ---------------------------------------------------------------------
  // Deleting rows, one table at a time

  function Archived(e: Episode): Episode { e.(live := false, published := false, status := ARCHIVED) }

  function DropDramas(c: Catalog, ids: set<Id>): Catalog {
    c.(dramas := map id | id in c.dramas ::
         if id in ids && c.dramas[id].live then c.dramas[id].(live := false, published := false) else c.dramas[id])
  }

  function DropSeasons(c: Catalog, ids: set<Id>): Catalog {
    c.(seasons := map id | id in c.seasons ::
         if id in ids && c.seasons[id].live then c.seasons[id].(live := false) else c.seasons[id])
  }

  function DropEpisodes(c: Catalog, ids: set<Id>): Catalog {
    c.(episodes := map id | id in c.episodes ::
         if id in ids && c.episodes[id].live then Archived(c.episodes[id]) else c.episodes[id])
  }

  function DropMedia(c: Catalog, episodes: set<Id>): Catalog {
    c.(media := map id | id in c.media ::
         if c.media[id].episode in episodes && c.media[id].live then c.media[id].(live := false, status := INACTIVE) else c.media[id])
  }

  function SeasonsOf(c: Catalog, dramas: set<Id>): set<Id> { set id | id in c.seasons && c.seasons[id].drama in dramas }

  function EpisodesOf(c: Catalog, seasons: set<Id>): set<Id> { set id | id in c.episodes && c.episodes[id].season in seasons }

  /** Deletes episodes and their media. */
  function FellEpisodes(c: Catalog, ids: set<Id>): Catalog { DropMedia(DropEpisodes(c, ids), ids) }

  /** Deletes seasons and everything in them, also under seasons already deleted. */
  function FellSeasons(c: Catalog, ids: set<Id>): Catalog { FellEpisodes(DropSeasons(c, ids), EpisodesOf(c, ids)) }

  /** Deletes dramas and everything in them. */
  function FellDramas(c: Catalog, ids: set<Id>): Catalog { FellSeasons(DropDramas(c, ids), SeasonsOf(c, ids)) }

  // ---------------------------------------------------------------------
  // Calls

  predicate SlugTaken(c: Catalog, slug: string, but: Option<Id>) {
    exists id :: id in c.dramas && c.dramas[id].slug == slug && Some(id) != but
  }

  predicate SeasonTaken(c: Catalog, drama: Id, number: int, but: Option<Id>) {
    exists id :: id in c.seasons && c.seasons[id].drama == drama && c.seasons[id].number == number && Some(id) != but
  }

  predicate EpisodeTaken(c: Catalog, season: Id, number: int, but: Option<Id>) {
    exists id :: id in c.episodes && c.episodes[id].season == season && c.episodes[id].number == number && Some(id) != but
  }

  function DramaCall(c: Catalog, e: Event): Result
    requires e.CreateDrama? || e.UpdateDrama? || e.RemoveDrama? || e.RestoreDrama? || e.PublishDrama?
  {
    match e
    case CreateDrama(slug, published) =>
      if SlugTaken(c, Lower(slug), None) then Result(c, Conflict)
      else Result(c.(dramas := c.dramas[c.next := Drama(Lower(slug), Or(published, false), true)], next := c.next + 1), Done(1))
    case UpdateDrama(id, slug, published) =>
      if !LiveDrama(c, id) then Result(c, NotFound)
      else
        var d := c.dramas[id];
        var slug' := if slug.Some? then Lower(slug.value) else d.slug;
        if SlugTaken(c, slug', Some(id)) then Result(c, Conflict)
        else Result(c.(dramas := c.dramas[id := d.(slug := slug', published := Or(published, d.published))]), Done(1))
    case RemoveDrama(id) => if !LiveDrama(c, id) then Result(c, NotFound) else Result(FellDramas(c, {id}), Done(1))
    case RestoreDrama(id) =>
      if id !in c.dramas || c.dramas[id].live then Result(c, NotFound)
      else Result(c.(dramas := c.dramas[id := c.dramas[id].(live := true)]), Done(1))
    case PublishDrama(id, publish) =>
      if !LiveDrama(c, id) then Result(c, NotFound)
      else Result(c.(dramas := c.dramas[id := c.dramas[id].(published := publish)]), Done(1))
  }

  function BulkDramaCall(c: Catalog, ids: set<Id>, action: Action): Result {
    var live := set id | id in ids && LiveDrama(c, id);
    var dead := set id | id in ids && id in c.dramas && !c.dramas[id].live;
    match action
    case Publish => Result(c.(dramas := map id | id in c.dramas :: if id in live then c.dramas[id].(published := true) else c.dramas[id]), Done(|live|))
    case Unpublish => Result(c.(dramas := map id | id in c.dramas :: if id in live then c.dramas[id].(published := false) else c.dramas[id]), Done(|live|))
    case Restore => Result(c.(dramas := map id | id in c.dramas :: if id in dead then c.dramas[id].(live := true) else c.dramas[id]), Done(|dead|))
    case Delete => Result(FellDramas(c, ids), Done(|live|))
  }

  function SeasonCall(c: Catalog, e: Event): Result
    requires e.CreateSeason? || e.UpdateSeason? || e.RemoveSeason? || e.RestoreSeason?
  {
    match e
    case CreateSeason(drama, number) =>
      if !LiveDrama(c, drama) then Result(c, NotFound)
      else if SeasonTaken(c, drama, number, None) then Result(c, Conflict)
      else Result(c.(seasons := c.seasons[c.next := Season(drama, number, true)], next := c.next + 1), Done(1))
    case UpdateSeason(id, drama, number) =>
      if !LiveSeason(c, id) || (drama.Some? && !LiveDrama(c, drama.value)) then Result(c, NotFound)
      else
        var s := c.seasons[id].(drama := Or(drama, c.seasons[id].drama), number := Or(number, c.seasons[id].number));
        if SeasonTaken(c, s.drama, s.number, Some(id)) then Result(c, Conflict)
        else Result(c.(seasons := c.seasons[id := s]), Done(1))
    case RemoveSeason(id) =>
      if id !in c.seasons || !c.seasons[id].live then Result(c, NotFound) else Result(FellSeasons(c, {id}), Done(1))
    case RestoreSeason(id) =>
      if id !in c.seasons || c.seasons[id].live then Result(c, NotFound)
      else Result(c.(seasons := c.seasons[id := c.seasons[id].(live := true)]), Done(1))
  }

  /** Seasons have no published flag; the other two actions do nothing. */
  function BulkSeasonCall(c: Catalog, ids: set<Id>, action: Action): Result {
    var live := set id | id in ids && id in c.seasons && c.seasons[id].live;
    var dead := set id | id in ids && id in c.seasons && !c.seasons[id].live;
    match action
    case Restore => Result(c.(seasons := map id | id in c.seasons :: if id in dead then c.seasons[id].(live := true) else c.seasons[id]), Done(|dead|))
    case Delete => Result(FellSeasons(c, ids), Done(|live|))
    case _ => Result(c, Done(0))
  }

  /** The status asked for: `status` wins over `isPublished`. */
  function Asked(f: EpisodeFields): Option<Status> {
    if f.status.Some? then f.status
    else if f.published.None? then None
    else Some(if f.published.value then PUBLISHED else DRAFT)
  }

  function Trimmed(title: Option<string>): Option<string> { if title.Some? then Some(Trim(title.value)) else None }

  function EpisodeCall(c: Catalog, e: Event): Result
    requires e.CreateEpisode? || e.UpdateEpisode? || e.RemoveEpisode? || e.RestoreEpisode? || e.PublishEpisode?
  {
    match e
    case CreateEpisode(season, number, f) =>
      if !LiveSeason(c, season) then Result(c, NotFound)
      else if EpisodeTaken(c, season, number, None) then Result(c, Conflict)
      else
        var status := Or(Asked(f), DRAFT);
        var row := Episode(season, number, Trimmed(f.title), status == PUBLISHED, status, Or(f.visibility, PRIVATE), Or(f.premium, true), true);
        Result(c.(episodes := c.episodes[c.next := row], next := c.next + 1), Done(1))
    case UpdateEpisode(id, f) =>
      if !LiveEpisode(c, id) || (f.season.Some? && !LiveSeason(c, f.season.value)) then Result(c, NotFound)
      else
        var old' := c.episodes[id];
        var moved := old'.(season := Or(f.season, old'.season), number := Or(f.number, old'.number),
                           title := if f.title.Some? then Trimmed(f.title) else old'.title,
                           visibility := Or(f.visibility, old'.visibility), premium := Or(f.premium, old'.premium));
        var row := if Asked(f).Some? then moved.(published := Asked(f).value == PUBLISHED, status := Asked(f).value) else moved;
        if EpisodeTaken(c, row.season, row.number, Some(id)) then Result(c, Conflict)
        else Result(c.(episodes := c.episodes[id := row]), Done(1))
    case RemoveEpisode(id) =>
      if id !in c.episodes || !c.episodes[id].live then Result(c, NotFound) else Result(FellEpisodes(c, {id}), Done(1))
    case RestoreEpisode(id) =>
      if id !in c.episodes || c.episodes[id].live || !LiveSeason(c, c.episodes[id].season) then Result(c, NotFound)
      else Result(c.(episodes := c.episodes[id := c.episodes[id].(live := true, status := DRAFT)]), Done(1))
    case PublishEpisode(id, publish) =>
      if !LiveEpisode(c, id) then Result(c, NotFound)
      else Result(c.(episodes := c.episodes[id := c.episodes[id].(published := publish, status := if publish then PUBLISHED else DRAFT)]), Done(1))
  }

  function BulkEpisodeCall(c: Catalog, ids: set<Id>, action: Action): Result {
    var chained := set id | id in ids && LiveEpisode(c, id);
    var live := set id | id in ids && id in c.episodes && c.episodes[id].live;
    var dead := set id | id in ids && id in c.episodes && !c.episodes[id].live && LiveSeason(c, c.episodes[id].season);
    match action
    case Publish => Result(c.(episodes := map id | id in c.episodes ::
                        if id in chained then c.episodes[id].(published := true, status := PUBLISHED) else c.episodes[id]), Done(|chained|))
    case Unpublish => Result(c.(episodes := map id | id in c.episodes ::
                        if id in chained then c.episodes[id].(published := false, status := DRAFT) else c.episodes[id]), Done(|chained|))
    case Restore => Result(c.(episodes := map id | id in c.episodes ::
                        if id in dead then c.episodes[id].(live := true, status := DRAFT) else c.episodes[id]), Done(|dead|))
    case Delete => Result(FellEpisodes(c, ids), Done(|live|))
  }

  function MediaCall(c: Catalog, e: Event): Result
    requires e.CreateMedia? || e.UpdateMedia? || e.RemoveMedia? || e.RestoreMedia?
  {
    match e
    case CreateMedia(episode, status, locator, version) =>
      if !LiveEpisode(c, episode) then Result(c, NotFound)
      else if exists id :: id in c.media && c.media[id].episode == episode then Result(c, Conflict)
      else Result(c.(media := c.media[c.next := Media(episode, Or(status, PROCESSING), locator, Or(version, 1), true)], next := c.next + 1), Done(1))
    case UpdateMedia(id, f) =>
      if !LiveMedia(c, id) then Result(c, NotFound)
      else
        var m := c.media[id];
        var rotated := f.locator.Some? && f.locator.value != m.locator;
        var version := if f.version.Some? then f.version.value else if rotated then m.version + 1 else m.version;
        Result(c.(media := c.media[id := m.(status := Or(f.status, m.status), locator := Or(f.locator, m.locator), version := version)]), Done(1))
    case RemoveMedia(id) =>
      if !LiveMedia(c, id) then Result(c, NotFound)
      else Result(c.(media := c.media[id := c.media[id].(live := false, status := INACTIVE)]), Done(1))
    case RestoreMedia(id) =>
      if id !in c.media || c.media[id].live || !LiveEpisode(c, c.media[id].episode) then Result(c, NotFound)
      else Result(c.(media := c.media[id := c.media[id].(live := true, status := PROCESSING)]), Done(1))
  }

  function Step(c: Catalog, e: Event): Result {
    match e
    case BulkDramas(ids, action) => BulkDramaCall(c, ids, action)
    case BulkSeasons(ids, action) => BulkSeasonCall(c, ids, action)
    case BulkEpisodes(ids, action) => BulkEpisodeCall(c, ids, action)
    case CreateDrama(_, _) => DramaCall(c, e)
    case UpdateDrama(_, _, _) => DramaCall(c, e)
    case RemoveDrama(_) => DramaCall(c, e)
    case RestoreDrama(_) => DramaCall(c, e)
    case PublishDrama(_, _) => DramaCall(c, e)
    case CreateSeason(_, _) => SeasonCall(c, e)
    case UpdateSeason(_, _, _) => SeasonCall(c, e)
    case RemoveSeason(_) => SeasonCall(c, e)
    case RestoreSeason(_) => SeasonCall(c, e)
    case CreateEpisode(_, _, _) => EpisodeCall(c, e)
    case UpdateEpisode(_, _) => EpisodeCall(c, e)
    case RemoveEpisode(_) => EpisodeCall(c, e)
    case RestoreEpisode(_) => EpisodeCall(c, e)
    case PublishEpisode(_, _) => EpisodeCall(c, e)
    case _ => MediaCall(c, e)
  }

  const EMPTY := Catalog(map[], map[], map[], map[], 0)

  function Run(c: Catalog, events: seq<Event>): Catalog
    decreases |events|
  {
    if events == [] then c else Run(Step(c, events[0]).catalog, events[1..])
  }

  // ---------------------------------------------------------------------
  // What every reachable catalogue keeps

  ghost predicate Dramas(c: Catalog) {
    forall d :: d in c.dramas ==> d < c.next && (!c.dramas[d].live ==> !c.dramas[d].published)
  }

  ghost predicate Seasons(c: Catalog) { forall s :: s in c.seasons ==> s < c.next && c.seasons[s].drama in c.dramas }

  /** A live episode has a live season and a live drama; it is flagged published
      exactly when its status says so; a deleted one is not published. */
  ghost predicate Episodes(c: Catalog) {
    forall e :: e in c.episodes ==>
      && e < c.next && c.episodes[e].season in c.seasons
      && (c.episodes[e].live ==> LiveSeason(c, c.episodes[e].season))
      && (c.episodes[e].published <==> c.episodes[e].status == PUBLISHED)
      && (c.episodes[e].published ==> c.episodes[e].live)
  }

  ghost predicate Medias(c: Catalog) {
    && (forall m :: m in c.media ==> m < c.next && c.media[m].episode in c.episodes)
    && (forall m :: m in c.media && c.media[m].live ==> c.episodes[c.media[m].episode].live)
  }

  ghost predicate Inv(c: Catalog) {
    Dramas(c) && Seasons(c) && Episodes(c) && Medias(c)
  }

  lemma FellEpisodesKeeps(c: Catalog, ids: set<Id>)
    requires Inv(c)
    ensures Inv(FellEpisodes(c, ids))
  {
  }

  lemma FellSeasonsKeeps(c: Catalog, ids: set<Id>)
    requires Inv(c)
    ensures Inv(FellSeasons(c, ids))
  {
  }

  lemma FellDramasKeeps(c: Catalog, ids: set<Id>)
    requires Inv(c)
    ensures Inv(FellDramas(c, ids))
  {
  }

  lemma DramaCallKeeps(c: Catalog, e: Event)
    requires Inv(c) && (e.CreateDrama? || e.UpdateDrama? || e.RemoveDrama? || e.RestoreDrama? || e.PublishDrama?)
    ensures Inv(DramaCall(c, e).catalog)
  {
    hide FellDramas, SlugTaken;
    if e.RemoveDrama? {
      FellDramasKeeps(c, {e.id});
    }
  }

  lemma BulkDramaCallKeeps(c: Catalog, ids: set<Id>, action: Action)
    requires Inv(c)
    ensures Inv(BulkDramaCall(c, ids, action).catalog)
  {
    hide FellDramas;
    FellDramasKeeps(c, ids);
  }

  lemma SeasonCallKeeps(c: Catalog, e: Event)
    requires Inv(c) && (e.CreateSeason? || e.UpdateSeason? || e.RemoveSeason? || e.RestoreSeason?)
    ensures Inv(SeasonCall(c, e).catalog)
  {
    hide FellSeasons, SeasonTaken;
    if e.RemoveSeason? {
      FellSeasonsKeeps(c, {e.id});
    }
  }

  lemma BulkSeasonCallKeeps(c: Catalog, ids: set<Id>, action: Action)
    requires Inv(c)
    ensures Inv(BulkSeasonCall(c, ids, action).catalog)
  {
    hide FellSeasons;
    FellSeasonsKeeps(c, ids);
  }

  lemma EpisodeCallKeeps(c: Catalog, e: Event)
    requires Inv(c) && (e.CreateEpisode? || e.UpdateEpisode? || e.RemoveEpisode? || e.RestoreEpisode? || e.PublishEpisode?)
    ensures Inv(EpisodeCall(c, e).catalog)
  {
    hide FellEpisodes, EpisodeTaken;
    if e.RemoveEpisode? {
      FellEpisodesKeeps(c, {e.id});
    }
  }

  lemma BulkEpisodeCallKeeps(c: Catalog, ids: set<Id>, action: Action)
    requires Inv(c)
    ensures Inv(BulkEpisodeCall(c, ids, action).catalog)
  {
    hide FellEpisodes;
    FellEpisodesKeeps(c, ids);
    hide Inv;
    match action
    case Delete =>
    case _ => SetEpisodesKeep(c, BulkEpisodeCall(c, ids, action).catalog);
  }

  /** Setting flags of episodes keeps it, as long as no live one becomes deleted. */
  lemma SetEpisodesKeep(c: Catalog, d: Catalog)
    requires Inv(c) && d == c.(episodes := d.episodes) && d.episodes.Keys == c.episodes.Keys && Episodes(d)
    requires forall e :: e in c.episodes && c.episodes[e].live ==> d.episodes[e].live
    ensures Inv(d)
  {
  }

  lemma MediaCallKeeps(c: Catalog, e: Event)
    requires Inv(c) && (e.CreateMedia? || e.UpdateMedia? || e.RemoveMedia? || e.RestoreMedia?)
    ensures Inv(MediaCall(c, e).catalog)
  {
  }

  /** Create, update, move, remove, restore, publish and every bulk action keep it. */
  lemma StepKeeps(c: Catalog, e: Event)
    requires Inv(c)
    ensures Inv(Step(c, e).catalog)
  {
    hide Inv, DramaCall, BulkDramaCall, SeasonCall, BulkSeasonCall, EpisodeCall, BulkEpisodeCall, MediaCall;
    match e
    case BulkDramas(ids, action) => BulkDramaCallKeeps(c, ids, action);
    case BulkSeasons(ids, action) => BulkSeasonCallKeeps(c, ids, action);
    case BulkEpisodes(ids, action) => BulkEpisodeCallKeeps(c, ids, action);
    case _ =>
      if e.CreateDrama? || e.UpdateDrama? || e.RemoveDrama? || e.RestoreDrama? || e.PublishDrama? {
        DramaCallKeeps(c, e);
      } else if e.CreateSeason? || e.UpdateSeason? || e.RemoveSeason? || e.RestoreSeason? {
        SeasonCallKeeps(c, e);
      } else if e.CreateEpisode? || e.UpdateEpisode? || e.RemoveEpisode? || e.RestoreEpisode? || e.PublishEpisode? {
        EpisodeCallKeeps(c, e);
      } else {
        MediaCallKeeps(c, e);
      }
  }

  lemma {:induction false} RunKeeps(c: Catalog, events: seq<Event>)
    requires Inv(c)
    ensures Inv(Run(c, events))
    decreases |events|
  {
    if events != [] {
      StepKeeps(c, events[0]);
      RunKeeps(Step(c, events[0]).catalog, events[1..]);
    }
  }

  /** The calls about one row. */
  predicate OneRow(e: Event) {
    !(e.RemoveDrama? || e.RemoveSeason? || e.RemoveEpisode? || e.BulkDramas? || e.BulkSeasons? || e.BulkEpisodes?)
  }

  /** The row they are about. */
  function Named(c: Catalog, e: Event): Id
    requires OneRow(e)
  {
    if e.CreateDrama? || e.CreateSeason? || e.CreateEpisode? || e.CreateMedia? then c.next else e.id
  }

  ghost predicate SameBut<T>(a: map<Id, T>, b: map<Id, T>, id: Id) { a - {id} == b - {id} }

  /** The catalogue differs in the row `id` alone, and not at all after a refusal. */
  ghost predicate Changes(c: Catalog, r: Result, id: Id) {
    && SameBut(c.dramas, r.catalog.dramas, id) && SameBut(c.seasons, r.catalog.seasons, id)
    && SameBut(c.episodes, r.catalog.episodes, id) && SameBut(c.media, r.catalog.media, id)
    && (r.reply.Done? || r.catalog == c)
  }

  lemma DramaCallChanges(c: Catalog, e: Event)
    requires e.CreateDrama? || e.UpdateDrama? || e.RestoreDrama? || e.PublishDrama?
    ensures Changes(c, DramaCall(c, e), Named(c, e))
  {
    hide SlugTaken, Lower;
  }

  lemma SeasonCallChanges(c: Catalog, e: Event)
    requires e.CreateSeason? || e.UpdateSeason? || e.RestoreSeason?
    ensures Changes(c, SeasonCall(c, e), Named(c, e))
  {
    hide SeasonTaken, LiveSeason, LiveDrama;
  }

  lemma EpisodeCallChanges(c: Catalog, e: Event)
    requires e.CreateEpisode? || e.UpdateEpisode? || e.RestoreEpisode? || e.PublishEpisode?
    ensures Changes(c, EpisodeCall(c, e), Named(c, e))
  {
    hide EpisodeTaken, LiveSeason, Asked, Trimmed;
  }

  lemma MediaCallChanges(c: Catalog, e: Event)
    requires e.CreateMedia? || e.UpdateMedia? || e.RemoveMedia? || e.RestoreMedia?
    ensures Changes(c, MediaCall(c, e), Named(c, e))
  {
    hide LiveEpisode;
  }

  /** They touch no other row of any table, and none at all when refused. */
  lemma OneRowChanges(c: Catalog, e: Event)
    requires OneRow(e)
    ensures Changes(c, Step(c, e), Named(c, e))
  {
    hide Changes, DramaCall, SeasonCall, EpisodeCall, MediaCall;
    if e.CreateDrama? || e.UpdateDrama? || e.RestoreDrama? || e.PublishDrama? {
      DramaCallChanges(c, e);
    } else if e.CreateSeason? || e.UpdateSeason? || e.RestoreSeason? {
      SeasonCallChanges(c, e);
    } else if e.CreateEpisode? || e.UpdateEpisode? || e.RestoreEpisode? || e.PublishEpisode? {
      EpisodeCallChanges(c, e);
    } else {
      MediaCallChanges(c, e);
    }
  }

  /** In every reachable catalogue a live media asset has a live episode, a live
      episode a live season and a live drama, and a published one is all of that. */
  lemma ChainsHold(events: seq<Event>)
    ensures var c := Run(EMPTY, events);
      && (forall m :: LiveMedia(c, m) ==> LiveEpisode(c, c.media[m].episode))
      && (forall e :: e in c.episodes && c.episodes[e].live ==> LiveEpisode(c, e))
      && (forall e :: e in c.episodes ==> (c.episodes[e].published <==> c.episodes[e].status == PUBLISHED))
      && (forall e :: e in c.episodes && c.episodes[e].published ==> LiveEpisode(c, e))
  {
    RunKeeps(EMPTY, events);
  }

  lemma OutlivesSteps()
    ensures var c1 := Step(EMPTY, CreateDrama("d", None)).catalog;
      var c3 := Step(Step(c1, CreateSeason(0, 1)).catalog, RemoveDrama(0)).catalog;
      var c4 := Step(c3, RestoreSeason(1)).catalog;
      1 in c4.seasons && c4.seasons[1] == Season(0, 1, true) && 0 in c4.dramas && !c4.dramas[0].live
  {
    hide FellEpisodes;
    var c1 := Step(EMPTY, CreateDrama("d", None)).catalog;
    var c2 := Step(c1, CreateSeason(0, 1)).catalog;
    var c3 := Step(c2, RemoveDrama(0)).catalog;
    assert LiveDrama(c1, 0) && c2.seasons == map[1 := Season(0, 1, true)];
    FellDramasFirst(c2);
    assert c3.seasons[1] == Season(0, 1, false) && !c3.dramas[0].live;
  }

  lemma FellDramasFirst(c: Catalog)
    requires c.seasons == map[1 := Season(0, 1, true)] && LiveDrama(c, 0)
    ensures var t := FellDramas(c, {0}); t.seasons == map[1 := Season(0, 1, false)] && 0 in t.dramas && !t.dramas[0].live
  {
    assert SeasonsOf(c, {0}) == {1};
  }

  /** The chain stops there: a season restored under a deleted drama is live. */
  lemma SeasonOutlivesDrama()
    ensures var c := Run(EMPTY, [CreateDrama("d", None), CreateSeason(0, 1), RemoveDrama(0), RestoreSeason(1)]);
      1 in c.seasons && c.seasons[1].live && c.seasons[1].drama == 0 && 0 in c.dramas && !c.dramas[0].live
  {
    var c1 := Step(EMPTY, CreateDrama("d", None)).catalog;
    var c2 := Step(c1, CreateSeason(0, 1)).catalog;
    var c3 := Step(c2, RemoveDrama(0)).catalog;
    var c4 := Step(c3, RestoreSeason(1)).catalog;
    OutlivesSteps();
    hide Step;
    var events := [CreateDrama("d", None), CreateSeason(0, 1), RemoveDrama(0), RestoreSeason(1)];
    assert Run(EMPTY, events) == Run(c1, events[1..]);
    assert events[1..][1..] == events[2..] && events[2..][1..] == events[3..] && events[3..][1..] == [];
    assert Run(c1, events[1..]) == Run(c2, events[2..]);
    assert Run(c2, events[2..]) == Run(c3, events[3..]);
    assert Run(c3, events[3..]) == Run(c4, []) == c4;
  }

  // ---------------------------------------------------------------------
  // What an ordinary user sees

  datatype EpisodeQuery = EpisodeQuery(season: Option<Id>, drama: Option<Id>, includeDeleted: bool, published: Option<bool>,
                                       status: Option<Status>, visibility: Option<Visibility>, premium: Option<bool>,
                                       search: Option<string>)

  /** How the database compares a title with a search text, without regard to case. */
  type Like = (string, string) -> bool

  predicate Asks<T(==)>(field: Option<T>, value: T) { field.Some? ==> field.value == value }

  predicate PublishedDrama(c: Catalog, id: Id) { id in c.dramas && c.dramas[id].live && c.dramas[id].published }

  /** An empty search asks for nothing; a title that is missing matches no search. */
  predicate Titled(like: Like, search: Option<string>, title: Option<string>) {
    search.Some? && search.value != "" ==> title.Some? && like(title.value, Trim(search.value))
  }

  /** The season condition `list` builds up field by field. */
  predicate ListSeason(c: Catalog, q: EpisodeQuery, admin: bool, id: Id) {
    && id in c.seasons && Asks(q.season, id) && Asks(q.drama, c.seasons[id].drama)
    && (!admin || !q.includeDeleted ==> c.seasons[id].live)
    && (!admin ==> PublishedDrama(c, c.seasons[id].drama))
  }

  predicate Lists(c: Catalog, q: EpisodeQuery, admin: bool, like: Like, id: Id) {
    && id in c.episodes && ListSeason(c, q, admin, c.episodes[id].season)
    && (!(admin && q.includeDeleted) ==> c.episodes[id].live)
    && Asks(if admin then q.published else Some(true), c.episodes[id].published)
    && Asks(if admin then q.status else Some(PUBLISHED), c.episodes[id].status)
    && Asks(if admin then q.visibility else Some(PUBLIC), c.episodes[id].visibility)
    && Asks(q.premium, c.episodes[id].premium) && Titled(like, q.search, c.episodes[id].title)
  }

  /** The condition in episode details and in playback authorization. */
  predicate Details(c: Catalog, id: Id) {
    && id in c.episodes
    && var e := c.episodes[id];
    && e.live && e.published && e.status == PUBLISHED && e.visibility == PUBLIC
    && e.season in c.seasons && c.seasons[e.season].live && PublishedDrama(c, c.seasons[e.season].drama)
  }

  /** The season is shown, and the episode in it by the shorter condition. */
  predicate InSeasonDetails(c: Catalog, season: Id, id: Id) {
    && season in c.seasons && c.seasons[season].live && PublishedDrama(c, c.seasons[season].drama)
    && id in c.episodes && c.episodes[id].season == season
    && c.episodes[id].live && c.episodes[id].published && c.episodes[id].visibility == PUBLIC
  }

  /** Two flags and the visibility decide it all. */
  predicate Visible(c: Catalog, id: Id) {
    && id in c.episodes && c.episodes[id].published && c.episodes[id].visibility == PUBLIC
    && c.episodes[id].season in c.seasons && var d := c.seasons[c.episodes[id].season].drama; d in c.dramas && c.dramas[d].published
  }

  /** In every reachable catalogue the four conditions select the same episodes,
      whatever deleted, status, published or visibility value the query asks for,
      and no deleted-at or status test in them is ever the one that decides. */
  lemma FiltersAgree(events: seq<Event>, id: Id, season: Id, q: EpisodeQuery, like: Like)
    ensures var c := Run(EMPTY, events);
      && (Details(c, id) <==> Visible(c, id))
      && (InSeasonDetails(c, season, id) <==> Visible(c, id) && c.episodes[id].season == season)
      && (Lists(c, q, false, like, id) <==>
            && Visible(c, id) && Asks(q.season, c.episodes[id].season)
            && Asks(q.drama, c.seasons[c.episodes[id].season].drama) && Asks(q.premium, c.episodes[id].premium)
            && Titled(like, q.search, c.episodes[id].title))
      && (Lists(c, q, true, like, id) && !q.includeDeleted ==> LiveEpisode(c, id))
  {
    RunKeeps(EMPTY, events);
  }

  predicate Hides(e: Event) {
    || e.RemoveDrama? || e.RestoreDrama? || e.RemoveSeason? || e.RestoreSeason? || e.RemoveEpisode? || e.RestoreEpisode?
    || e.CreateMedia? || e.UpdateMedia? || e.RemoveMedia? || e.RestoreMedia? || e.CreateDrama? || e.CreateSeason?
    || (e.BulkDramas? && e.action in {Delete, Restore}) || e.BulkSeasons? || (e.BulkEpisodes? && e.action in {Delete, Restore})
  }

  lemma FellingShowsNothing(c: Catalog, ids: set<Id>, id: Id)
    requires Inv(c)
    ensures Visible(FellDramas(c, ids), id) || Visible(FellSeasons(c, ids), id) || Visible(FellEpisodes(c, ids), id) ==> Visible(c, id)
  {
  }

  lemma DramaCallShowsNothing(c: Catalog, e: Event, id: Id)
    requires Inv(c) && (e.CreateDrama? || e.RestoreDrama?)
    ensures Visible(DramaCall(c, e).catalog, id) ==> Visible(c, id)
  {
    hide SlugTaken, FellDramas;
  }

  lemma SeasonCallShowsNothing(c: Catalog, e: Event, id: Id)
    requires Inv(c) && (e.CreateSeason? || e.RestoreSeason?)
    ensures Visible(SeasonCall(c, e).catalog, id) ==> Visible(c, id)
  {
    hide SeasonTaken, FellSeasons;
  }

  lemma EpisodeCallShowsNothing(c: Catalog, e: Event, id: Id)
    requires Inv(c) && e.RestoreEpisode?
    ensures Visible(EpisodeCall(c, e).catalog, id) ==> Visible(c, id)
  {
    hide EpisodeTaken, FellEpisodes;
  }

  lemma BulkRestoreShowsNothing(c: Catalog, ids: set<Id>, id: Id)
    requires Inv(c)
    ensures Visible(BulkDramaCall(c, ids, Restore).catalog, id) ==> Visible(c, id)
    ensures Visible(BulkSeasonCall(c, ids, Restore).catalog, id) ==> Visible(c, id)
    ensures Visible(BulkEpisodeCall(c, ids, Restore).catalog, id) ==> Visible(c, id)
  {
    hide FellDramas, FellSeasons, FellEpisodes;
  }

  lemma MediaCallShowsNothing(c: Catalog, e: Event, id: Id)
    requires e.CreateMedia? || e.UpdateMedia? || e.RemoveMedia? || e.RestoreMedia?
    ensures Visible(MediaCall(c, e).catalog, id) ==> Visible(c, id)
  {
    hide LiveEpisode, LiveMedia;
  }

  /** Deleting and restoring never shows an episode: what comes back stays hidden
      until it is published again. */
  lemma RestoringShowsNothing(c: Catalog, e: Event, id: Id)
    requires Inv(c) && Hides(e) && Visible(Step(c, e).catalog, id)
    ensures Visible(c, id)
  {
    hide Visible, Inv, FellDramas, FellSeasons, FellEpisodes, SlugTaken, SeasonTaken, EpisodeTaken;
    if e.RemoveDrama? || e.RemoveSeason? || e.RemoveEpisode? {
      FellingShowsNothing(c, {e.id}, id);
    } else if e.BulkDramas? || e.BulkSeasons? || e.BulkEpisodes? {
      FellingShowsNothing(c, e.ids, id);
      BulkRestoreShowsNothing(c, e.ids, id);
    } else if e.CreateDrama? || e.RestoreDrama? {
      DramaCallShowsNothing(c, e, id);
    } else if e.CreateSeason? || e.RestoreSeason? {
      SeasonCallShowsNothing(c, e, id);
    } else if e.RestoreEpisode? {
      EpisodeCallShowsNothing(c, e, id);
    } else {
      MediaCallShowsNothing(c, e, id);
    }
  }

  /** After a drama is deleted nothing beneath it is live, and nothing else changed. */
  lemma FellDramasMeans(c: Catalog, ids: set<Id>)
    requires Inv(c)
    ensures var t := FellDramas(c, ids);
      && t.dramas.Keys == c.dramas.Keys && t.seasons.Keys == c.seasons.Keys
      && t.episodes.Keys == c.episodes.Keys && t.media.Keys == c.media.Keys
      && (forall d :: d in c.dramas ==> if d in ids then !t.dramas[d].live && !t.dramas[d].published else t.dramas[d] == c.dramas[d])
      && (forall s :: s in c.seasons ==> if c.seasons[s].drama in ids then !t.seasons[s].live else t.seasons[s] == c.seasons[s])
      && (forall e :: e in c.episodes ==>
            if c.seasons[c.episodes[e].season].drama in ids then !t.episodes[e].live && !t.episodes[e].published
            else t.episodes[e] == c.episodes[e])
      && (forall m :: m in c.media ==>
            if c.seasons[c.episodes[c.media[m].episode].season].drama in ids then !t.media[m].live else t.media[m] == c.media[m])
  {
  }

  // ---------------------------------------------------------------------
  // Bulk actions against one call after the other

  datatype Kind = OfDramas | OfSeasons | OfEpisodes

  function Single(kind: Kind, action: Action, id: Id): Event
    requires kind.OfSeasons? ==> action in {Delete, Restore}
  {
    match kind
    case OfDramas => (match action case Publish => PublishDrama(id, true) case Unpublish => PublishDrama(id, false)
                      case Delete => RemoveDrama(id) case Restore => RestoreDrama(id))
    case OfSeasons => if action.Delete? then RemoveSeason(id) else RestoreSeason(id)
    case OfEpisodes => (match action case Publish => PublishEpisode(id, true) case Unpublish => PublishEpisode(id, false)
                        case Delete => RemoveEpisode(id) case Restore => RestoreEpisode(id))
  }

  function Bulk(kind: Kind, action: Action, ids: set<Id>): Event {
    match kind
    case OfDramas => BulkDramas(ids, action)
    case OfSeasons => BulkSeasons(ids, action)
    case OfEpisodes => BulkEpisodes(ids, action)
  }

  function Each(c: Catalog, kind: Kind, action: Action, ids: seq<Id>): Catalog
    requires kind.OfSeasons? ==> action in {Delete, Restore}
    decreases |ids|
  {
    if ids == [] then c else Each(Step(c, Single(kind, action, ids[0])).catalog, kind, action, ids[1..])
  }

  /** Only a drama already deleted can have live seasons that a bulk deletion
      reaches and a single one does not. */
  ghost predicate Strays(c: Catalog, ids: set<Id>) {
    exists s :: s in c.seasons && c.seasons[s].live && c.seasons[s].drama in ids && !LiveDrama(c, c.seasons[s].drama)
  }

  lemma DropsUnite(c: Catalog, a: set<Id>, b: set<Id>)
    ensures DropDramas(DropDramas(c, a), b) == DropDramas(c, a + b)
    ensures DropSeasons(DropSeasons(c, a), b) == DropSeasons(c, a + b)
  {
    assert DropDramas(DropDramas(c, a), b).dramas == DropDramas(c, a + b).dramas;
    assert DropSeasons(DropSeasons(c, a), b).seasons == DropSeasons(c, a + b).seasons;
  }

  lemma LowerDropsUnite(c: Catalog, a: set<Id>, b: set<Id>)
    ensures DropEpisodes(DropEpisodes(c, a), b) == DropEpisodes(c, a + b)
    ensures DropMedia(DropMedia(c, a), b) == DropMedia(c, a + b)
    ensures DropEpisodes(DropMedia(c, a), b) == DropMedia(DropEpisodes(c, b), a)
  {
    assert DropEpisodes(DropEpisodes(c, a), b).episodes == DropEpisodes(c, a + b).episodes;
    assert DropMedia(DropMedia(c, a), b).media == DropMedia(c, a + b).media;
  }

  lemma FellEpisodesUnite(c: Catalog, a: set<Id>, b: set<Id>)
    ensures FellEpisodes(FellEpisodes(c, a), b) == FellEpisodes(c, a + b)
  {
    hide DropEpisodes, DropMedia;
    var t := DropEpisodes(c, a);
    LowerDropsUnite(c, a, b);
    LowerDropsUnite(t, a, b);
    LowerDropsUnite(DropEpisodes(t, b), a, b);
  }

  /** Felling episodes and dropping higher rows are about different tables. */
  lemma FellsCommute(c: Catalog, a: set<Id>, b: set<Id>)
    ensures DropSeasons(FellEpisodes(c, a), b) == FellEpisodes(DropSeasons(c, b), a)
    ensures DropDramas(FellEpisodes(c, a), b) == FellEpisodes(DropDramas(c, b), a)
    ensures DropDramas(DropSeasons(c, a), b) == DropSeasons(DropDramas(c, b), a)
  {
  }

  lemma MembersOfUnion(c: Catalog, a: set<Id>, b: set<Id>)
    ensures EpisodesOf(c, a + b) == EpisodesOf(c, a) + EpisodesOf(c, b)
    ensures SeasonsOf(c, a + b) == SeasonsOf(c, a) + SeasonsOf(c, b)
  {
  }

  /** Deleting leaves every row under its parent. */
  lemma MembersStay(c: Catalog, a: set<Id>, b: set<Id>)
    ensures EpisodesOf(DropSeasons(c, a), b) == EpisodesOf(c, b)
    ensures EpisodesOf(DropDramas(c, a), b) == EpisodesOf(c, b)
    ensures EpisodesOf(FellEpisodes(c, a), b) == EpisodesOf(c, b)
    ensures SeasonsOf(DropSeasons(c, a), b) == SeasonsOf(c, b)
    ensures SeasonsOf(DropDramas(c, a), b) == SeasonsOf(c, b)
    ensures SeasonsOf(FellEpisodes(c, a), b) == SeasonsOf(c, b)
  {
  }

  lemma FellSeasonsUnite(c: Catalog, a: set<Id>, b: set<Id>)
    ensures FellSeasons(FellSeasons(c, a), b) == FellSeasons(c, a + b)
  {
    hide DropSeasons, FellEpisodes, EpisodesOf;
    var t := DropSeasons(c, a);
    DropsUnite(c, a, b);
    MembersOfUnion(c, a, b);
    MembersStay(c, a, a);
    MembersStay(c, a, b);
    MembersStay(t, EpisodesOf(c, a), b);
    FellsCommute(t, EpisodesOf(c, a), b);
    FellEpisodesUnite(DropSeasons(c, a + b), EpisodesOf(c, a), EpisodesOf(c, b));
  }

  lemma SeasonsStay(c: Catalog, a: set<Id>, b: set<Id>)
    ensures SeasonsOf(FellSeasons(c, a), b) == SeasonsOf(c, b)
    ensures DropDramas(FellSeasons(c, a), b) == FellSeasons(DropDramas(c, b), a)
  {
    hide DropSeasons, DropDramas, FellEpisodes, EpisodesOf, SeasonsOf;
    MembersStay(c, a, b);
    MembersStay(c, b, a);
    MembersStay(DropSeasons(c, a), EpisodesOf(c, a), b);
    FellsCommute(DropSeasons(c, a), EpisodesOf(c, a), b);
    FellsCommute(c, a, b);
  }

  lemma FellDramasUnite(c: Catalog, a: set<Id>, b: set<Id>)
    ensures FellDramas(FellDramas(c, a), b) == FellDramas(c, a + b)
  {
    hide DropDramas, FellSeasons, SeasonsOf;
    var t := DropDramas(c, a);
    DropsUnite(c, a, b);
    MembersOfUnion(c, a, b);
    MembersStay(c, a, a);
    MembersStay(c, a, b);
    SeasonsStay(t, SeasonsOf(c, a), b);
    FellSeasonsUnite(DropDramas(c, a + b), SeasonsOf(c, a), SeasonsOf(c, b));
  }

  lemma FellDeadEpisodes(c: Catalog, ids: set<Id>)
    requires Medias(c) && forall e :: e in ids && e in c.episodes ==> !c.episodes[e].live
    ensures FellEpisodes(c, ids) == c
  {
    assert DropEpisodes(c, ids).episodes == c.episodes;
    assert DropMedia(c, ids).media == c.media;
  }

  /** Felling seasons that are all deleted changes nothing: their episodes are
      deleted already. */
  lemma FellDeadSeasons(c: Catalog, ids: set<Id>)
    requires Inv(c) && forall s :: s in ids && s in c.seasons ==> !c.seasons[s].live
    ensures FellSeasons(c, ids) == c
  {
    hide FellEpisodes;
    assert DropSeasons(c, ids).seasons == c.seasons;
    FellDeadEpisodes(c, EpisodesOf(c, ids));
  }

  /** A deleted drama's felling changes something exactly if it has a live season. */
  lemma FellDeadDrama(c: Catalog, i: Id)
    requires Inv(c) && !LiveDrama(c, i)
    ensures !Strays(c, {i}) ==> FellDramas(c, {i}) == c
  {
    hide FellSeasons;
    assert DropDramas(c, {i}).dramas == c.dramas;
    if !Strays(c, {i}) {
      FellDeadSeasons(c, SeasonsOf(c, {i}));
    }
  }

  /** A single removal is the felling of one row, also where it is refused,
      unless the row is a deleted drama with a live season. */
  lemma RemovalFells(c: Catalog, i: Id)
    requires Inv(c)
    ensures Step(c, RemoveEpisode(i)).catalog == FellEpisodes(c, {i})
    ensures Step(c, RemoveSeason(i)).catalog == FellSeasons(c, {i})
    ensures !Strays(c, {i}) ==> Step(c, RemoveDrama(i)).catalog == FellDramas(c, {i})
  {
    hide FellEpisodes, FellSeasons, FellDramas, Strays;
    if !(i in c.episodes && c.episodes[i].live) {
      FellDeadEpisodes(c, {i});
    }
    if !(i in c.seasons && c.seasons[i].live) {
      FellDeadSeasons(c, {i});
    }
    if !LiveDrama(c, i) {
      FellDeadDrama(c, i);
    }
  }

  ghost function Range(ids: seq<Id>): set<Id> { set i | i in ids }

  lemma RangeSplits(ids: seq<Id>)
    requires ids != []
    ensures Range(ids) == {ids[0]} + Range(ids[1..])
  {
    assert forall i :: i in ids <==> i == ids[0] || i in ids[1..];
  }

  function Fell(c: Catalog, kind: Kind, ids: set<Id>): Catalog {
    match kind case OfDramas => FellDramas(c, ids) case OfSeasons => FellSeasons(c, ids) case OfEpisodes => FellEpisodes(c, ids)
  }

  lemma FellUnites(c: Catalog, kind: Kind, a: set<Id>, b: set<Id>)
    ensures Fell(Fell(c, kind, a), kind, b) == Fell(c, kind, a + b)
  {
    hide FellEpisodes, FellSeasons, FellDramas;
    FellEpisodesUnite(c, a, b);
    FellSeasonsUnite(c, a, b);
    FellDramasUnite(c, a, b);
  }

  lemma FellNone(c: Catalog, kind: Kind)
    requires Inv(c)
    ensures Fell(c, kind, {}) == c
  {
    hide FellEpisodes, FellSeasons;
    FellDeadEpisodes(c, {});
    FellDeadSeasons(c, {});
    assert DropDramas(c, {}).dramas == c.dramas;
    assert SeasonsOf(c, {}) == {};
  }

  /** Removing a live drama leaves no stray season behind and makes none. */
  lemma StraysShrink(c: Catalog, i: Id, rest: set<Id>)
    requires Inv(c) && !Strays(c, {i} + rest)
    ensures !Strays(Step(c, RemoveDrama(i)).catalog, rest)
  {
    hide FellDramas;
    FellDramasMeans(c, {i});
    var t := Step(c, RemoveDrama(i)).catalog;
    forall s | s in t.seasons && t.seasons[s].live && t.seasons[s].drama in rest ensures LiveDrama(t, t.seasons[s].drama) {
      assert LiveDrama(c, c.seasons[s].drama);
    }
  }

  lemma {:induction false} EachFells(c: Catalog, kind: Kind, ids: seq<Id>)
    requires Inv(c) && (kind.OfDramas? ==> !Strays(c, Range(ids)))
    ensures Each(c, kind, Delete, ids) == Fell(c, kind, Range(ids))
    decreases |ids|
  {
    hide Strays, Inv, Step, FellEpisodes, FellSeasons, FellDramas;
    if ids == [] {
      FellNone(c, kind);
      assert Range(ids) == {};
    } else {
      var i, rest := ids[0], ids[1..];
      RangeSplits(ids);
      RemovalFells(c, i);
      StepKeeps(c, Single(kind, Delete, i));
      if kind.OfDramas? {
        StraysShrink(c, i, Range(rest));
        StraysFewer(c, i, Range(rest));
      }
      EachFells(Step(c, Single(kind, Delete, i)).catalog, kind, rest);
      FellUnites(c, kind, {i}, Range(rest));
    }
  }

  lemma StraysFewer(c: Catalog, i: Id, rest: set<Id>)
    requires !Strays(c, {i} + rest)
    ensures !Strays(c, {i})
  {
  }

  /** One call after the other never touches a stray season. */
  lemma {:induction false} EachSparesStrays(c: Catalog, ids: seq<Id>, s: Id)
    requires Inv(c) && s in c.seasons && c.seasons[s].live && !LiveDrama(c, c.seasons[s].drama)
    ensures var t := Each(c, OfDramas, Delete, ids); s in t.seasons && t.seasons[s].live
    decreases |ids|
  {
    hide FellDramas;
    if ids != [] {
      var t := Step(c, RemoveDrama(ids[0])).catalog;
      FellDramasMeans(c, {ids[0]});
      StepKeeps(c, RemoveDrama(ids[0]));
      EachSparesStrays(t, ids[1..], s);
    }
  }

  /** Deleting in bulk is deleting one after the other, for episodes and seasons
      always, and for dramas if and only if no listed drama is already deleted
      with a live season under it. */
  lemma BulkDeleteIsEach(events: seq<Event>, kind: Kind, ids: seq<Id>)
    ensures var c := Run(EMPTY, events);
      Step(c, Bulk(kind, Delete, Range(ids))).catalog == Each(c, kind, Delete, ids)
      <==> !(kind.OfDramas? && Strays(c, Range(ids)))
  {
    hide Run, Each, FellDramas, FellSeasons, FellEpisodes;
    var c := Run(EMPTY, events);
    EmptyHolds();
    RunKeeps(EMPTY, events);
    if kind.OfDramas? && Strays(c, Range(ids)) {
      var s :| s in c.seasons && c.seasons[s].live && c.seasons[s].drama in Range(ids) && !LiveDrama(c, c.seasons[s].drama);
      EachSparesStrays(c, ids, s);
      FellDramasMeans(c, Range(ids));
      assert !FellDramas(c, Range(ids)).seasons[s].live;
    } else {
      EachFells(c, kind, ids);
    }
  }

  lemma EmptyHolds()
    ensures Inv(EMPTY)
  {
  }

  lemma StrayDiffers(events: seq<Event>, drama: Id, season: Id)
    requires var c := Run(EMPTY, events);
      season in c.seasons && c.seasons[season].live && c.seasons[season].drama == drama && !LiveDrama(c, drama)
    ensures var c := Run(EMPTY, events); Step(c, BulkDramas({drama}, Delete)).catalog != Each(c, OfDramas, Delete, [drama])
  {
    hide Step, Each, Run, FellDramas;
    BulkDeleteIsEach(events, OfDramas, [drama]);
    assert Range([drama]) == {drama};
    assert Strays(Run(EMPTY, events), {drama});
  }

  /** The two differ where a season was restored under its deleted drama. */
  lemma BulkDeleteReachesFurther()
    ensures var c := Run(EMPTY, [CreateDrama("d", None), CreateSeason(0, 1), RemoveDrama(0), RestoreSeason(1)]);
      Step(c, BulkDramas({0}, Delete)).catalog != Each(c, OfDramas, Delete, [0])
  {
    hide Step, Each, Run;
    SeasonOutlivesDrama();
    var events := [CreateDrama("d", None), CreateSeason(0, 1), RemoveDrama(0), RestoreSeason(1)];
    OutlivingSeason(events);
    StrayDiffers(events, 0, 1);
  }

  lemma OutlivingSeason(events: seq<Event>)
    requires events == [CreateDrama("d", None), CreateSeason(0, 1), RemoveDrama(0), RestoreSeason(1)]
    ensures var c := Run(EMPTY, events);
      1 in c.seasons && c.seasons[1].live && c.seasons[1].drama == 0 && !LiveDrama(c, 0)
  {
    hide Step, Run;
    SeasonOutlivesDrama();
  }
}
