/** The whole moderation state of a payload, and what it does not depend on. */
module ModerationPayload {
  import opened Prelude
  import opened Canonical
  import opened ModerationState

  datatype Specific =
    | Screen(kind: string, originalTitle: string, tagline: string, genres: seq<string>, keywords: seq<string>)
    | Game(genres: seq<string>, themes: seq<string>, modes: seq<string>, gameType: string, series: string, keywords: seq<string>)
    | Season(parentShow: string, episodes: seq<Episode>)
    | Album(artists: seq<string>, tracks: seq<Track>)
    | Book(authors: seq<string>, subjects: seq<string>)
    | Nothing

  datatype State = State(provider: string, contentType: string, title: string, description: string, specific: Specific)

  /** Unicode case mappings, which the state uses but does not define. */
  datatype Casing = Casing(fold: string -> string, upper: string -> string)

  function RequireNonEmpty(v: Json): Normal<string> {
    if v.Text? && !T.Blank(v.s) then Ok(T.Normalized(v.s)) else Err(ModerationStateError)
  }

  function ScreenState(kind: string, p: Fields): Normal<Specific> {
    var original :- NormalizeText(Get(p, "original_title"));
    var tagline :- NormalizeText(Get(p, "tagline"));
    var genres :- Names(Get(p, "genres"), None);
    var keywords :- Names(Get(p, "keywords"), Some(MAX_KEYWORDS));
    Ok(Screen(kind, original, tagline, genres, keywords))
  }

  function GameState(p: Fields): Normal<Specific> {
    var genres :- Names(Get(p, "genres"), None);
    var themes :- Names(Get(p, "themes"), None);
    var modes :- Names(Get(p, "game_modes"), None);
    var gameType :- NormalizeText(Get(p, "game_type"));
    var series :- NormalizeText(Get(p, "series"));
    var keywords :- Names(Get(p, "keywords"), Some(MAX_KEYWORDS));
    Ok(Game(genres, themes, modes, gameType, series, keywords))
  }

  function SeasonState(p: Fields): Normal<Specific> {
    var show :- NormalizeText(Get(p, "tv_show_name"));
    var episodes :- Episodes(Get(p, "episodes"));
    Ok(Season(show, episodes))
  }

  function AlbumState(p: Fields): Normal<Specific> {
    var artists :- People(Get(p, "authors"));
    var tracks :- Tracks(Get(p, "tracks"));
    Ok(Album(artists, tracks))
  }

  function BookState(p: Fields): Normal<Specific> {
    var authors :- People(Get(p, "authors"));
    var subjects :- Names(Get(p, "subjects"), Some(MAX_SUBJECTS));
    Ok(Book(authors, subjects))
  }

  function NormalizeTypeSpecific(kind: string, p: Fields): Normal<Specific> {
    if kind == "movie" || kind == "tv_show" then ScreenState(kind, p)
    else if kind == "game" then GameState(p)
    else if kind == "season" then SeasonState(p)
    else if kind == "album" then AlbumState(p)
    else if kind == "book" then BookState(p)
    else Ok(Nothing)
  }

  /** A payload is absent (Null) or an object; when present its own title and description are used. */
  function BuildState(c: Casing, provider: Json, contentType: Json, title: Json, description: Json, payload: Json): Normal<State> {
    var from :- RequireNonEmpty(provider);
    var ofType :- RequireNonEmpty(contentType);
    if !payload.Null? && !payload.Object? then Err(ModerationStateError)
    else
      var fields := if payload.Object? then payload.fields else map[];
      var name :- NormalizeText(if payload.Object? then Get(fields, "title") else title);
      var about :- NormalizeText(if payload.Object? then Get(fields, "description") else description);
      var specific :- NormalizeTypeSpecific(c.fold(c.upper(ofType)), fields);
      Ok(State(c.fold(from), c.upper(ofType), name, about, specific))
  }

  // ---------------------------------------------------------------- alike payloads

  /** The same value, or two lists that are shuffles of each other. */
  ghost predicate AlikeList(v: Json, w: Json) {
    v == w || (v.Items? && w.Items? && Shuffled(v.items, w.items))
  }

  /** Tracks that agree on title and advisory, with the same authors in any order. Nothing else about them matters. */
  ghost predicate AlikeTrack(x: Json, y: Json) {
    x == y || (x.Object? && y.Object? && Get(x.fields, "title") == Get(y.fields, "title") && Get(x.fields, "explicit") == Get(y.fields, "explicit") && AlikeList(Get(x.fields, "authors"), Get(y.fields, "authors")))
  }

  ghost predicate Pairwise(a: seq<Json>, b: seq<Json>) {
    |a| == |b| && forall i :: 0 <= i < |a| ==> AlikeTrack(a[i], b[i])
  }

  /** A shuffle of alike tracks. */
  ghost predicate AlikeTracks(v: Json, w: Json) {
    v == w || (v.Items? && w.Items? && exists mid :: Shuffled(v.items, mid) && Pairwise(mid, w.items))
  }

  function Allowed(kind: string): set<string> {
    {"title", "description"} +
    if kind == "movie" || kind == "tv_show" then {"original_title", "tagline", "genres", "keywords"}
    else if kind == "game" then {"genres", "themes", "game_modes", "game_type", "series", "keywords"}
    else if kind == "season" then {"tv_show_name", "episodes"}
    else if kind == "album" then {"authors", "tracks"}
    else if kind == "book" then {"authors", "subjects"}
    else {}
  }

  function LimitOf(kind: string, key: string): Option<nat> {
    if key == "keywords" then Some(MAX_KEYWORDS)
    else if key == "subjects" && kind == "book" then Some(MAX_SUBJECTS)
    else None
  }

  /** A limited list has no more distinct names than its limit. */
  predicate Fits(kind: string, key: string, v: Json) {
    LimitOf(kind, key).Some? && v.Items? && Readable(v.items, ReadName) ==> LimitHolds(v.items, LimitOf(kind, key))
  }

  ghost predicate AlikeField(kind: string, key: string, v: Json, w: Json) {
    v == w || if key == "tracks" then AlikeTracks(v, w) else AlikeList(v, w) && Fits(kind, key, v)
  }

  ghost predicate Alike(kind: string, p: Fields, q: Fields) {
    forall key :: key in Allowed(kind) ==> AlikeField(kind, key, Get(p, key), Get(q, key))
  }

  lemma TextAlike(kind: string, key: string, p: Fields, q: Fields)
    requires Alike(kind, p, q) && key in Allowed(kind) && key != "tracks"
    ensures NormalizeText(Get(p, key)) == NormalizeText(Get(q, key))
  {
    assert AlikeField(kind, key, Get(p, key), Get(q, key));
  }

  lemma NamesAlike(kind: string, key: string, limit: Option<nat>, p: Fields, q: Fields)
    requires Alike(kind, p, q) && key in Allowed(kind) && key != "tracks" && limit == LimitOf(kind, key)
    ensures Names(Get(p, key), limit) == Names(Get(q, key), limit)
  {
    var v, w := Get(p, key), Get(q, key);
    assert AlikeField(kind, key, v, w);
    if v != w {
      NamesIgnoreOrder(v.items, w.items, limit);
    }
  }

  lemma PeopleAlike(kind: string, key: string, p: Fields, q: Fields)
    requires Alike(kind, p, q) && key in Allowed(kind) && key != "tracks"
    ensures People(Get(p, key)) == People(Get(q, key))
  {
    var v, w := Get(p, key), Get(q, key);
    assert AlikeField(kind, key, v, w);
    if v != w {
      PeopleIgnoreOrder(v.items, w.items);
    }
  }

  lemma CreditsAndEpisodesAlike(v: Json, w: Json)
    requires AlikeList(v, w)
    ensures Credits(v) == Credits(w) && Episodes(v) == Episodes(w)
  {
    if v != w {
      CreditsAndEpisodesIgnoreOrder(v.items, w.items);
    }
  }

  lemma ReadTrackAlike(x: Json, y: Json)
    requires AlikeTrack(x, y)
    ensures ReadTrack(x) == ReadTrack(y)
  {
    if x != y {
      CreditsAndEpisodesAlike(Get(x.fields, "authors"), Get(y.fields, "authors"));
    }
  }

  /** Tracks come out the same for every order of the tracks and of the authors within each track. */
  lemma TracksAlike(v: Json, w: Json)
    requires AlikeTracks(v, w)
    ensures Tracks(v) == Tracks(w)
  {
    if v != w {
      var mid :| Shuffled(v.items, mid) && Pairwise(mid, w.items);
      TrackOrder();
      CollectedIgnoresOrder(v.items, mid, ReadTrack, TrackLe);
      forall i | 0 <= i < |mid|
        ensures ReadTrack(mid[i]) == ReadTrack(w.items[i])
      {
        ReadTrackAlike(mid[i], w.items[i]);
      }
      CollectedPointwise(mid, w.items, ReadTrack, TrackLe);
    }
  }

  lemma ScreenAlike(kind: string, p: Fields, q: Fields)
    requires (kind == "movie" || kind == "tv_show") && Alike(kind, p, q)
    ensures ScreenState(kind, p) == ScreenState(kind, q)
  {
    TextAlike(kind, "original_title", p, q);
    TextAlike(kind, "tagline", p, q);
    NamesAlike(kind, "genres", None, p, q);
    NamesAlike(kind, "keywords", Some(MAX_KEYWORDS), p, q);
  }

  lemma GameAlike(p: Fields, q: Fields)
    requires Alike("game", p, q)
    ensures GameState(p) == GameState(q)
  {
    NamesAlike("game", "genres", None, p, q);
    NamesAlike("game", "themes", None, p, q);
    NamesAlike("game", "game_modes", None, p, q);
    TextAlike("game", "game_type", p, q);
    TextAlike("game", "series", p, q);
    NamesAlike("game", "keywords", Some(MAX_KEYWORDS), p, q);
  }

  lemma SeasonAlike(p: Fields, q: Fields)
    requires Alike("season", p, q)
    ensures SeasonState(p) == SeasonState(q)
  {
    TextAlike("season", "tv_show_name", p, q);
    assert AlikeField("season", "episodes", Get(p, "episodes"), Get(q, "episodes"));
    CreditsAndEpisodesAlike(Get(p, "episodes"), Get(q, "episodes"));
  }

  lemma AlbumAlike(p: Fields, q: Fields)
    requires Alike("album", p, q)
    ensures AlbumState(p) == AlbumState(q)
  {
    PeopleAlike("album", "authors", p, q);
    assert AlikeField("album", "tracks", Get(p, "tracks"), Get(q, "tracks"));
    TracksAlike(Get(p, "tracks"), Get(q, "tracks"));
  }

  lemma BookAlike(p: Fields, q: Fields)
    requires Alike("book", p, q)
    ensures BookState(p) == BookState(q)
  {
    PeopleAlike("book", "authors", p, q);
    NamesAlike("book", "subjects", Some(MAX_SUBJECTS), p, q);
  }

  /** The state, and so whatever hash is taken of it, depends only on the allowlisted fields of the payload, and not on
      the order of any list in them, as long as no limited list has more distinct names than its limit. */
  lemma StateIgnoresOrderAndExtras<H>(c: Casing, provider: Json, contentType: Json, title: Json, description: Json,
                                      p: Fields, q: Fields, hash: Normal<State> -> H)
    requires RequireNonEmpty(contentType).Ok? ==> Alike(c.fold(c.upper(RequireNonEmpty(contentType).value)), p, q)
    ensures BuildState(c, provider, contentType, title, description, Object(p))
         == BuildState(c, provider, contentType, title, description, Object(q))
    ensures hash(BuildState(c, provider, contentType, title, description, Object(p)))
         == hash(BuildState(c, provider, contentType, title, description, Object(q)))
  {
    if RequireNonEmpty(contentType).Ok? {
      var kind := c.fold(c.upper(RequireNonEmpty(contentType).value));
      TextAlike(kind, "title", p, q);
      TextAlike(kind, "description", p, q);
      SpecificAlike(kind, p, q);
    }
  }

  lemma SpecificAlike(kind: string, p: Fields, q: Fields)
    requires Alike(kind, p, q)
    ensures NormalizeTypeSpecific(kind, p) == NormalizeTypeSpecific(kind, q)
  {
    if kind == "movie" || kind == "tv_show" {
      ScreenAlike(kind, p, q);
    } else if kind == "game" {
      GameAlike(p, q);
    } else if kind == "season" {
      SeasonAlike(p, q);
    } else if kind == "album" {
      AlbumAlike(p, q);
    } else if kind == "book" {
      BookAlike(p, q);
    }
  }
}
