/** The content calls that take more than one statement or weigh several fields, as
    sequences of updates to the tables (src/dramas/dramas.service.ts:33-96, src/seasons/seasons.service.ts:32-82,
    src/episodes/episodes.service.ts:45-88, src/media-assets/media-assets.service.ts:42-65).
    Each is tied to its step of the content tree. */
module ContentServices {
  import opened Text
  import opened ContentTree

  lemma SeasonsStayPut(c: Catalog, ids: set<Id>)
    ensures SeasonsOf(DropDramas(c, ids), ids) == SeasonsOf(c, ids)
  {
  }

  lemma EpisodesStayPut(c: Catalog, ids: set<Id>)
    ensures DropSeasons(c, ids).episodes == c.episodes
  {
  }

  class ContentServices {
    var dramas: map<Id, Drama>
    var seasons: map<Id, Season>
    var episodes: map<Id, Episode>
    var media: map<Id, Media>
    var next: Id

    constructor ()
      ensures View() == EMPTY
    {
      dramas, seasons, episodes, media, next := map[], map[], map[], map[], 0;
    }

    function View(): Catalog
      reads this
    {
      Catalog(dramas, seasons, episodes, media, next)
    }

    /** `episode.updateMany` then `mediaAsset.updateMany`, skipped for an empty list. */
    method ArchiveEpisodes(ids: set<Id>)
      modifies this`episodes, this`media
      ensures View() == FellEpisodes(old(View()), ids)
    {
      if ids != {} {
        episodes := map id | id in episodes ::
          if id in ids && episodes[id].live then episodes[id].(live := false, published := false, status := ARCHIVED) else episodes[id];
        media := map id | id in media ::
          if media[id].episode in ids && media[id].live then media[id].(live := false, status := INACTIVE) else media[id];
      } else {
        assert DropEpisodes(View(), ids).episodes == episodes;
        assert DropMedia(View(), ids).media == media;
      }
    }

    method RemoveDrama(id: Id) returns (reply: Reply)
      modifies this
      ensures Result(View(), reply) == Step(old(View()), Event.RemoveDrama(id))
    {
      if id !in dramas || !dramas[id].live {
        return NotFound;
      }
      ghost var dropped := DropDramas(View(), {id});
      dramas := dramas[id := dramas[id].(live := false, published := false)];
      assert dramas == dropped.dramas;
      var seasonIds := set s | s in seasons && seasons[s].drama == id;
      var episodeIds := set e | e in episodes && episodes[e].season in seasonIds;
      assert seasonIds == SeasonsOf(old(View()), {id}) && episodeIds == EpisodesOf(dropped, seasonIds);
      assert seasonIds == {} ==> DropSeasons(dropped, seasonIds).seasons == seasons;
      if seasonIds != {} {
        seasons := map s | s in seasons :: if s in seasonIds && seasons[s].live then seasons[s].(live := false) else seasons[s];
      }
      assert View() == DropSeasons(dropped, seasonIds);
      ArchiveEpisodes(episodeIds);
      return Done(1);
    }

    /** The bulk deletion deletes seasons by their drama and looks them up afterwards. */
    method DropSeasonsUnder(ids: set<Id>) returns (seasonIds: set<Id>)
      modifies this`seasons
      ensures seasonIds == SeasonsOf(old(View()), ids) && View() == DropSeasons(old(View()), seasonIds)
    {
      seasons := map s | s in seasons ::
        if seasons[s].drama in ids && seasons[s].live then seasons[s].(live := false) else seasons[s];
      seasonIds := set s | s in seasons && seasons[s].drama in ids;
      assert seasons == DropSeasons(old(View()), seasonIds).seasons;
    }

    method BulkDeleteDramas(ids: set<Id>) returns (reply: Reply)
      modifies this
      ensures Result(View(), reply) == Step(old(View()), BulkDramas(ids, Delete))
    {
      hide DropMedia, DropEpisodes, DropSeasons, SeasonsOf, FellEpisodes;
      var live := set d | d in ids && d in dramas && dramas[d].live;
      assert live == set d | d in ids && LiveDrama(View(), d);
      dramas := map d | d in dramas ::
        if d in ids && dramas[d].live then dramas[d].(live := false, published := false) else dramas[d];
      ghost var dropped := View();
      assert dropped == DropDramas(old(View()), ids);
      SeasonsStayPut(old(View()), ids);
      var seasonIds := DropSeasonsUnder(ids);
      EpisodesStayPut(dropped, seasonIds);
      var episodeIds := set e | e in episodes && episodes[e].season in seasonIds;
      ArchiveEpisodes(episodeIds);
      return Done(|live|);
    }

    method RemoveSeason(id: Id) returns (reply: Reply)
      modifies this
      ensures Result(View(), reply) == Step(old(View()), Event.RemoveSeason(id))
    {
      if id !in seasons || !seasons[id].live {
        return NotFound;
      }
      ghost var dropped := DropSeasons(View(), {id});
      seasons := seasons[id := seasons[id].(live := false)];
      assert seasons == dropped.seasons;
      var episodeIds := set e | e in episodes && episodes[e].season == id;
      assert episodeIds == EpisodesOf(old(View()), {id});
      ArchiveEpisodes(episodeIds);
      return Done(1);
    }

    method BulkDeleteSeasons(ids: set<Id>) returns (reply: Reply)
      modifies this
      ensures Result(View(), reply) == Step(old(View()), BulkSeasons(ids, Delete))
    {
      ghost var dropped := DropSeasons(View(), ids);
      var count := |set s | s in ids && s in seasons && seasons[s].live|;
      seasons := map s | s in seasons :: if s in ids && seasons[s].live then seasons[s].(live := false) else seasons[s];
      assert seasons == dropped.seasons;
      var episodeIds := set e | e in episodes && episodes[e].season in ids;
      assert episodeIds == EpisodesOf(old(View()), ids);
      ArchiveEpisodes(episodeIds);
      return Done(count);
    }

    /** Media are deleted by episode id, whether or not the episode was live. */
    method BulkDeleteEpisodes(ids: set<Id>) returns (reply: Reply)
      modifies this
      ensures Result(View(), reply) == Step(old(View()), BulkEpisodes(ids, Delete))
    {
      var count := |set e | e in ids && e in episodes && episodes[e].live|;
      ArchiveEpisodes(ids);
      return Done(count);
    }

    method UpdateSeason(id: Id, drama: Option<Id>, number: Option<int>) returns (reply: Reply)
      modifies this
      ensures Result(View(), reply) == Step(old(View()), Event.UpdateSeason(id, drama, number))
      ensures reply != Done(1) ==> View() == old(View())
      ensures reply == Done(1) ==> LiveSeason(View(), id) && seasons == old(seasons)[id := seasons[id]]
      ensures reply == Done(1) ==> !SeasonTaken(View(), seasons[id].drama, seasons[id].number, Some(id))
    {
      if !LiveSeason(View(), id) {
        return NotFound;
      }
      if drama.Some? && !LiveDrama(View(), drama.value) {
        return NotFound;
      }
      var row := seasons[id];
      if drama.Some? {
        row := row.(drama := drama.value);
      }
      if number.Some? {
        row := row.(number := number.value);
      }
      if SeasonTaken(View(), row.drama, row.number, Some(id)) {
        return Conflict;
      }
      seasons := seasons[id := row];
      return Done(1);
    }

    method CreateEpisode(season: Id, number: int, f: EpisodeFields) returns (reply: Reply)
      modifies this
      ensures Result(View(), reply) == Step(old(View()), Event.CreateEpisode(season, number, f))
      ensures reply != Done(1) ==> View() == old(View())
      ensures reply == Done(1) ==> LiveEpisode(View(), old(next)) && episodes == old(episodes)[old(next) := episodes[old(next)]]
    {
      if !LiveSeason(View(), season) {
        return NotFound;
      }
      var status := if f.status.Some? then f.status.value else if f.published == Some(true) then PUBLISHED else DRAFT;
      if EpisodeTaken(View(), season, number, None) {
        return Conflict;
      }
      var row := Episode(season, number, Trimmed(f.title), status == PUBLISHED, status, Or(f.visibility, PRIVATE), Or(f.premium, true), true);
      episodes, next := episodes[next := row], next + 1;
      return Done(1);
    }

    method UpdateEpisode(id: Id, f: EpisodeFields) returns (reply: Reply)
      modifies this
      ensures Result(View(), reply) == Step(old(View()), Event.UpdateEpisode(id, f))
      ensures reply != Done(1) ==> View() == old(View())
      ensures reply == Done(1) ==> LiveEpisode(View(), id) && episodes == old(episodes)[id := episodes[id]]
      ensures reply == Done(1) ==> !EpisodeTaken(View(), episodes[id].season, episodes[id].number, Some(id))
    {
      if !LiveEpisode(View(), id) {
        return NotFound;
      }
      if f.season.Some? && !LiveSeason(View(), f.season.value) {
        return NotFound;
      }
      var row := episodes[id];
      row := row.(season := Or(f.season, row.season), number := Or(f.number, row.number),
                  title := if f.title.Some? then Trimmed(f.title) else row.title,
                  visibility := Or(f.visibility, row.visibility), premium := Or(f.premium, row.premium));
      if f.status.Some? {
        row := row.(published := f.status.value == PUBLISHED, status := f.status.value);
      } else if f.published.Some? {
        row := row.(published := f.published.value, status := if f.published.value then PUBLISHED else DRAFT);
      }
      if EpisodeTaken(View(), row.season, row.number, Some(id)) {
        return Conflict;
      }
      episodes := episodes[id := row];
      return Done(1);
    }

    method UpdateMedia(id: Id, f: MediaFields) returns (reply: Reply)
      modifies this
      ensures Result(View(), reply) == Step(old(View()), Event.UpdateMedia(id, f))
      ensures reply != Done(1) ==> View() == old(View())
      ensures reply == Done(1) ==> LiveMedia(View(), id) && LiveMedia(old(View()), id) && media == old(media)[id := media[id]]
      ensures reply == Done(1) && f.version.None? ==>
        media[id].version == old(media)[id].version + if media[id].locator == old(media)[id].locator then 0 else 1
    {
      if id !in media || !media[id].live {
        return NotFound;
      }
      var row := media[id];
      if f.version.Some? {
        row := row.(version := f.version.value);
      } else if f.locator.Some? && f.locator.value != row.locator {
        row := row.(version := row.version + 1);
      }
      media := media[id := row.(status := Or(f.status, row.status), locator := Or(f.locator, row.locator))];
      return Done(1);
    }
  }

  // ---------------------------------------------------------------------
  // The list filter as it is built up

  /** Conditions left out stay `None` or false. */
  datatype SeasonWhere = SeasonWhere(id: Option<Id>, drama: Option<Id>, live: bool, publishedDrama: bool)

  datatype EpisodeWhere = EpisodeWhere(live: bool, season: Option<SeasonWhere>, published: Option<bool>, status: Option<Status>,
                                       visibility: Option<Visibility>, premium: Option<bool>, title: Option<string>)

  const NO_CONDITION := SeasonWhere(None, None, false, false)

  predicate SeasonMatches(c: Catalog, w: SeasonWhere, id: Id) {
    && id in c.seasons && Asks(w.id, id) && Asks(w.drama, c.seasons[id].drama)
    && (w.live ==> c.seasons[id].live) && (w.publishedDrama ==> PublishedDrama(c, c.seasons[id].drama))
  }

  /** What the database makes of the conditions; every episode has a season row. */
  predicate EpisodeMatches(c: Catalog, w: EpisodeWhere, like: Like, id: Id) {
    && id in c.episodes && (w.live ==> c.episodes[id].live)
    && (w.season.Some? ==> SeasonMatches(c, w.season.value, c.episodes[id].season))
    && Asks(w.published, c.episodes[id].published) && Asks(w.status, c.episodes[id].status)
    && Asks(w.visibility, c.episodes[id].visibility) && Asks(w.premium, c.episodes[id].premium)
    && (w.title.Some? ==> c.episodes[id].title.Some? && like(c.episodes[id].title.value, w.title.value))
  }

  /** The conditions a query ends up with. */
  function WhereOf(q: EpisodeQuery, admin: bool): EpisodeWhere {
    var season := SeasonWhere(q.season, q.drama, !admin || !q.includeDeleted, !admin);
    EpisodeWhere(!(admin && q.includeDeleted), if season == NO_CONDITION then None else Some(season),
                 if admin then q.published else Some(true), if admin then q.status else Some(PUBLISHED),
                 if admin then q.visibility else Some(PUBLIC), q.premium,
                 if q.search.Some? && q.search.value != "" then Some(Trim(q.search.value)) else None)
  }

  /** They select exactly the listed episodes. */
  lemma WhereSelects(c: Catalog, q: EpisodeQuery, admin: bool, like: Like, id: Id)
    requires Episodes(c)
    ensures EpisodeMatches(c, WhereOf(q, admin), like, id) <==> Lists(c, q, admin, like, id)
  {
    hide Trim, LiveSeason;
  }

  method BuildWhere(q: EpisodeQuery, admin: bool) returns (where: EpisodeWhere)
    ensures where == WhereOf(q, admin)
  {
    var season := SeasonWhere(None, None, false, false);
    if q.season.Some? {
      season := season.(id := q.season);
    }
    if q.drama.Some? {
      season := season.(drama := q.drama);
    }
    if !admin || !q.includeDeleted {
      season := season.(live := true);
    }
    if !admin {
      season := season.(publishedDrama := true);
    } else if !q.includeDeleted {
      season := season.(live := true);
    }
    where := EpisodeWhere(!(admin && q.includeDeleted), if season != NO_CONDITION then Some(season) else None, None, None, None, None, None);
    if !admin || q.published.Some? {
      where := where.(published := if admin then q.published else Some(true));
    }
    if !admin || q.status.Some? {
      where := where.(status := if admin then q.status else Some(PUBLISHED));
    }
    if !admin || q.visibility.Some? {
      where := where.(visibility := if admin then q.visibility else Some(PUBLIC));
    }
    if q.premium.Some? {
      where := where.(premium := q.premium);
    }
    if q.search.Some? && q.search.value != "" {
      where := where.(title := Some(Trim(q.search.value)));
    }
  }
}
