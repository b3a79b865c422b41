/** What the canonical form says about its entries: which names, credits, episodes and tracks it holds, in which order,
    and what two payloads with the same state have in common. */
module ModerationReadings {
  import opened Prelude
  import opened Sorting
  import opened Canonical
  import opened ModerationState
  import opened ModerationPayload
  import T = Text

  // ---------------------------------------------------------------- texts

  /** A normalised text holds single blanks only, and those between other characters. */
  ghost predicate Tight(s: string) {
    forall i :: 0 <= i < |s| && T.IsSpace(s[i]) ==>
      s[i] == ' ' && 0 < i < |s| - 1 && !T.IsSpace(s[i - 1]) && !T.IsSpace(s[i + 1])
  }

  lemma {:induction false} JoinedIsTight(ws: seq<string>)
    requires T.Words(ws)
    ensures Tight(T.Join(ws))
    ensures ws != [] ==> T.Join(ws) != "" && !T.IsSpace(T.Join(ws)[0])
  {
    if |ws| > 1 {
      JoinedIsTight(ws[1..]);
      assert T.Word(ws[0]);
      var rest := T.Join(ws[1..]);
      var joined := ws[0] + " " + rest;
      forall i | 0 <= i < |joined| && T.IsSpace(joined[i])
        ensures joined[i] == ' ' && 0 < i < |joined| - 1 && !T.IsSpace(joined[i - 1]) && !T.IsSpace(joined[i + 1])
      {
        if i > |ws[0]| {
          assert joined[i] == rest[i - |ws[0]| - 1];
          assert joined[i - 1] == rest[i - |ws[0]| - 2];
          assert joined[i + 1] == rest[i - |ws[0]|];
        }
      }
    } else if |ws| == 1 {
      assert T.Word(ws[0]);
    }
  }

  /** Normalising keeps the words and their order, and separates them by single blanks. */
  lemma NormalizedMeans(s: string)
    ensures T.Split(T.Normalized(s)) == T.Split(s) && Tight(T.Normalized(s))
  {
    T.SplitIntoWords(s);
    T.SplitJoined(T.Split(s));
    JoinedIsTight(T.Split(s));
  }

  // ---------------------------------------------------------------- names

  /** The entry names this: it is a text whose words are these, and there are some. */
  predicate Says(v: Json, name: string) {
    v.Text? && T.Normalized(v.s) == name && name != ""
  }

  predicate Ascends(names: seq<string>) {
    forall i, j :: 0 <= i < j < |names| ==> TextLe(names[i], names[j]) && names[i] != names[j]
  }

  lemma {:induction false} KeptHas(items: seq<Json>, read: Json -> Reading<string>, x: string)
    ensures x in Kept(items, read) <==> exists i :: 0 <= i < |items| && read(items[i]) == Ok(Some(x))
  {
    if items != [] {
      var n := |items| - 1;
      KeptHas(items[..n], read, x);
      assert forall i :: 0 <= i < n ==> items[..n][i] == items[i];
    }
  }

  lemma KeptNames(items: seq<Json>, x: string)
    ensures x in Kept(items, ReadName) <==> exists i :: 0 <= i < |items| && Says(items[i], x)
  {
    KeptHas(items, ReadName, x);
    assert forall i :: 0 <= i < |items| ==> (ReadName(items[i]) == Ok(Some(x)) <==> Says(items[i], x));
  }

  /** Names without a limit: refused exactly when an entry is no text, and otherwise every name some entry says, once, in
      ascending order. */
  lemma NamesMean(items: seq<Json>)
    ensures Names(Items(items), None).Ok? <==> forall i :: 0 <= i < |items| ==> items[i].Text?
    ensures Names(Items(items), None).Ok? ==>
      var r := Names(Items(items), None).value;
      Ascends(r) && forall x :: x in r <==> exists i :: 0 <= i < |items| && Says(items[i], x)
  {
    var kept := Kept(items, ReadName);
    NamesOf(items, None);
    assert Cut(Dedup(kept), None) == Dedup(kept);
    SortedUniquely(kept);
    assert Readable(items, ReadName) <==> forall i :: 0 <= i < |items| ==> items[i].Text?;
    forall x
      ensures x in kept <==> exists i :: 0 <= i < |items| && Says(items[i], x)
    {
      KeptNames(items, x);
    }
  }

  lemma SortedUniquely(kept: seq<string>)
    ensures var r := Sort(Dedup(kept), TextLe); Ascends(r) && forall x :: x in r <==> x in kept
  {
    SortedDistinct(Dedup(kept));
    DedupKeepsElements(kept);
    SortKeepsNoDuplicates(Dedup(kept), TextLe);
  }

  lemma SortedDistinct(s: seq<string>)
    ensures Sorted(Sort(s, TextLe), TextLe)
    ensures NoDuplicates(s) ==> Ascends(Sort(s, TextLe))
    ensures forall x :: x in Sort(s, TextLe) <==> x in s
  {
    TextOrder();
    SortSorted(s, TextLe);
    if NoDuplicates(s) {
      SortKeepsNoDuplicates(s, TextLe);
    }
    ShuffledElements(Sort(s, TextLe), s);
  }

  /** The elements before the `k`-th. */
  function Before(s: seq<string>, k: nat): set<string>
    requires k <= |s|
  {
    set i | 0 <= i < k :: s[i]
  }

  lemma {:induction false} DedupSize(s: seq<string>)
    ensures |Dedup(s)| == |Before(s, |s|)|
  {
    if s != [] {
      var n := |s| - 1;
      DedupSize(s[..n]);
      DedupKeepsElements(s[..n]);
      assert Before(s[..n], n) == Before(s, n);
      assert Before(s, |s|) == Before(s, n) + {s[n]};
      assert s[n] in Before(s, n) <==> s[n] in s[..n];
    } else {
      assert Before(s, 0) == {};
    }
  }

  lemma {:induction false} DedupGrows(s: seq<string>, k: nat)
    requires k <= |s|
    ensures Dedup(s[..k]) <= Dedup(s)
    decreases |s|
  {
    if k < |s| {
      DedupGrows(s[..|s| - 1], k);
      assert s[..|s| - 1][..k] == s[..k];
    } else {
      assert s[..k] == s;
    }
  }

  /** An element is among the first `n` distinct ones exactly when fewer than `n` others come before its first occurrence. */
  lemma FirstDistinct(s: seq<string>, k: nat, n: nat)
    requires k < |s| && s[k] !in Before(s, k)
    ensures s[k] in Dedup(s)[..Min(n, |Dedup(s)|)] <==> |Before(s, k)| < n
  {
    var at := |Dedup(s[..k])|;
    DedupSize(s[..k]);
    assert Before(s[..k], k) == Before(s, k);
    DedupKeepsElements(s[..k]);
    assert s[k] !in s[..k];
    assert s[..k + 1][..k] == s[..k];
    assert Dedup(s[..k + 1]) == Dedup(s[..k]) + [s[k]];
    DedupGrows(s, k + 1);
    assert Dedup(s)[at] == s[k];
    DedupKeepsElements(s);
    var cut := Dedup(s)[..Min(n, |Dedup(s)|)];
    assert forall i :: 0 <= i < |cut| ==> cut[i] == Dedup(s)[i];
    assert at < n ==> cut[at] == s[k];
  }

  /** With a limit: of the names in entry order those before whose first mention fewer than `limit` others were said, again
      each once and in ascending order. */
  lemma LimitedNamesMean(items: seq<Json>, limit: nat, k: nat)
    requires Readable(items, ReadName)
    requires var kept := Kept(items, ReadName); k < |kept| && kept[k] !in Before(kept, k)
    ensures Names(Items(items), Some(limit)).Ok? && Ascends(Names(Items(items), Some(limit)).value)
    ensures var kept := Kept(items, ReadName);
      kept[k] in Names(Items(items), Some(limit)).value <==> |Before(kept, k)| < limit
  {
    var kept := Kept(items, ReadName);
    var cut := Cut(Dedup(kept), Some(limit));
    NamesOf(items, Some(limit));
    DedupKeepsElements(kept);
    SortedDistinct(cut);
    FirstDistinct(kept, k, limit);
  }

  // ---------------------------------------------------------------- people, credits, episodes, tracks

  /** A field that is null or a text. */
  predicate Plain(v: Json) {
    v.Null? || v.Text?
  }

  /** What a plain field says. */
  function Said(v: Json): string {
    if v.Text? then T.Normalized(v.s) else ""
  }

  /** A person is a text, or an object with a plain name; without words it is dropped. */
  lemma PersonMeans(v: Json)
    ensures ReadPerson(v).Ok? <==> v.Text? || (v.Object? && Plain(Get(v.fields, "name")))
    ensures ReadPerson(v).Ok? ==>
      var name := Said(if v.Text? then v else Get(v.fields, "name"));
      ReadPerson(v).value == if name == "" then None else Some(name)
  {
  }

  /** The role of a credit is its role, or its type when the role is missing, empty, zero or false. */
  function RoleField(fields: Fields): Json {
    var role := Get(fields, "role");
    if role == Null || role == Flag(false) || role == Number(0) || role == Text("") || role == Items([]) || role == Object(map[])
    then Get(fields, "type") else role
  }

  /** People: refused exactly when an entry is, and otherwise every name some entry has, once, in ascending order. */
  lemma PeopleMean(items: seq<Json>)
    ensures People(Items(items)).Ok? <==> forall i :: 0 <= i < |items| ==> ReadPerson(items[i]).Ok?
    ensures People(Items(items)).Ok? ==>
      var r := People(Items(items)).value;
      Ascends(r) && forall x :: x in r <==> exists i :: 0 <= i < |items| && ReadPerson(items[i]) == Ok(Some(x))
  {
    PeopleOf(items);
    SortedUniquely(Kept(items, ReadPerson));
    forall x
      ensures x in Kept(items, ReadPerson) <==> exists i :: 0 <= i < |items| && ReadPerson(items[i]) == Ok(Some(x))
    {
      KeptHas(items, ReadPerson, x);
    }
  }

  /** A credit is a text, which is a name without a role, or an object; without words in both fields it is dropped. */
  lemma CreditMeans(v: Json)
    ensures ReadCredit(v).Ok? <==> v.Text? || (v.Object? && Plain(Get(v.fields, "name")) && Plain(RoleField(v.fields)))
    ensures ReadCredit(v).Ok? ==>
      var name, role := Said(if v.Text? then v else Get(v.fields, "name")), if v.Text? then "" else Said(RoleField(v.fields));
      ReadCredit(v).value == if name == "" && role == "" then None else Some(Credit(name, role))
  {
  }

  lemma EpisodeMeans(v: Json)
    ensures ReadEpisode(v).Ok? <==> v.Object? && Plain(Get(v.fields, "title")) && Plain(Get(v.fields, "description"))
    ensures ReadEpisode(v).Ok? ==>
      var title, description := Said(Get(v.fields, "title")), Said(Get(v.fields, "description"));
      ReadEpisode(v).value == if title == "" && description == "" then None else Some(Episode(title, description))
  {
  }

  /** A track is an object with a plain title and readable authors; it is marked explicit for the value true alone. */
  lemma TrackMeans(v: Json)
    ensures ReadTrack(v).Ok? <==> v.Object? && Plain(Get(v.fields, "title")) && Credits(Get(v.fields, "authors")).Ok?
    ensures ReadTrack(v).Ok? ==>
      var title, credits := Said(Get(v.fields, "title")), Credits(Get(v.fields, "authors")).value;
      ReadTrack(v).value == if title == "" && credits == [] then None
                            else Some(Track(title, credits, if Get(v.fields, "explicit") == Flag(true) then "explicit" else ""))
  {
  }

  /** A list of credits, episodes or tracks is refused exactly when one entry is, and otherwise holds what the entries say,
      as often as they say it, in order. */
  lemma CollectedMeans<E(!new)>(items: seq<Json>, read: Json -> Reading<E>, le: (E, E) -> bool)
    requires TotalOrder(le)
    ensures Collected(Items(items), read, le).Ok? <==> forall i :: 0 <= i < |items| ==> read(items[i]).Ok?
    ensures Collected(Items(items), read, le).Ok? ==>
      Sorted(Collected(Items(items), read, le).value, le) && Shuffled(Collected(Items(items), read, le).value, Kept(items, read))
  {
    CollectedOf(items, read, le);
    SortSorted(Kept(items, read), le);
  }

  /** Credits and episodes are ordered by their first text and then by the second. */
  lemma PairsAreOrdered(a: Credit, b: Credit, e: Episode, f: Episode)
    ensures CreditLe(a, b) <==> (a.name != b.name && TextLe(a.name, b.name)) || (a.name == b.name && TextLe(a.role, b.role))
    ensures EpisodeLe(e, f) <==> (e.title != f.title && TextLe(e.title, f.title)) || (e.title == f.title && TextLe(e.description, f.description))
  {
  }

  /** Tracks are ordered by title, then by their credits from the first on, then unmarked before explicit. */
  lemma TracksAreOrdered(a: Track, b: Track)
    ensures a.title != b.title ==> (TrackLe(a, b) <==> TextLe(a.title, b.title))
    ensures a.title == b.title && a.credits != b.credits ==> (TrackLe(a, b) <==>
      a.credits <= b.credits
      || exists k :: 0 <= k < |a.credits| && k < |b.credits| && a.credits[..k] == b.credits[..k] && a.credits[k] != b.credits[k]
                     && CreditLe(a.credits[k], b.credits[k]))
    ensures a.title == b.title && a.credits == b.credits ==> (TrackLe(a, b) <==> TextLe(a.advisory, b.advisory))
  {
    SeqLeMeans(a.credits, b.credits, CreditLe);
  }

  /** A missing list is an empty one, and nothing but a list is accepted for one. */
  lemma ListsMean(v: Json, limit: Option<nat>)
    ensures v == Null ==> Names(v, limit) == Ok([]) && People(v) == Ok([]) && Credits(v) == Ok([]) && Episodes(v) == Ok([]) && Tracks(v) == Ok([])
    ensures !v.Null? && !v.Items? ==> Names(v, limit).Err? && People(v).Err? && Credits(v).Err? && Episodes(v).Err? && Tracks(v).Err?
  {
    assert Kept<Json, string>([], ReadName) == [] && Kept<Json, string>([], ReadPerson) == [];
    assert Kept<Json, Credit>([], ReadCredit) == [] && Kept<Json, Episode>([], ReadEpisode) == [];
  }

  // ---------------------------------------------------------------- what a state tells of its payload

  predicate SameText(p: Fields, q: Fields, key: string) {
    Said(Get(p, key)) == Said(Get(q, key))
  }

  predicate ListSays(v: Json, name: string) {
    v.Items? && exists i :: 0 <= i < |v.items| && Says(v.items[i], name)
  }

  ghost predicate SameNames(p: Fields, q: Fields, key: string) {
    forall x :: ListSays(Get(p, key), x) <==> ListSays(Get(q, key), x)
  }

  predicate SameFirst(p: Fields, q: Fields, key: string, limit: nat) {
    Names(Get(p, key), Some(limit)) == Names(Get(q, key), Some(limit))
  }

  ghost predicate SamePeople(p: Fields, q: Fields, key: string) {
    People(Get(p, key)) == People(Get(q, key))
  }

  lemma TextTells(p: Fields, q: Fields, key: string)
    requires NormalizeText(Get(p, key)).Ok? && NormalizeText(Get(q, key)).Ok?
    ensures NormalizeText(Get(p, key)) == NormalizeText(Get(q, key)) <==> SameText(p, q, key)
  {
  }

  function ItemsOf(v: Json): seq<Json> {
    if v.Items? then v.items else []
  }

  lemma UnlimitedNames(v: Json)
    requires Names(v, None).Ok?
    ensures Names(v, None) == Ok(Sort(Dedup(Kept(ItemsOf(v), ReadName)), TextLe))
  {
  }

  /** Kept names agree exactly when the same names are said. */
  lemma SaidAlikeIff(v: Json, w: Json)
    ensures (forall x :: x in Kept(ItemsOf(v), ReadName) <==> x in Kept(ItemsOf(w), ReadName))
       <==> forall x :: ListSays(v, x) <==> ListSays(w, x)
  {
    forall x
      ensures x in Kept(ItemsOf(v), ReadName) <==> ListSays(v, x)
      ensures x in Kept(ItemsOf(w), ReadName) <==> ListSays(w, x)
    {
      KeptNames(ItemsOf(v), x);
      KeptNames(ItemsOf(w), x);
    }
  }

  lemma NamesTell(p: Fields, q: Fields, key: string)
    requires Names(Get(p, key), None).Ok? && Names(Get(q, key), None).Ok?
    ensures Names(Get(p, key), None) == Names(Get(q, key), None) <==> SameNames(p, q, key)
  {
    ListsTell(Get(p, key), Get(q, key));
  }

  lemma ListsTell(v: Json, w: Json)
    requires Names(v, None).Ok? && Names(w, None).Ok?
    ensures Names(v, None) == Names(w, None) <==> forall x :: ListSays(v, x) <==> ListSays(w, x)
  {
    UnlimitedNames(v);
    UnlimitedNames(w);
    UniqueAgreeIff(Kept(ItemsOf(v), ReadName), Kept(ItemsOf(w), ReadName));
    SaidAlikeIff(v, w);
  }

  /** What two payloads of a kind have to share for their states to be equal: every allowlisted text, every name of an
      unlimited list, the names within the limit of a limited one, and the episodes, people and tracks. */
  ghost predicate TellTheSame(kind: string, p: Fields, q: Fields) {
    && SameText(p, q, "title") && SameText(p, q, "description")
    && (kind == "movie" || kind == "tv_show" ==>
          && SameText(p, q, "original_title") && SameText(p, q, "tagline") && SameNames(p, q, "genres")
          && SameFirst(p, q, "keywords", 40))
    && (kind == "game" ==>
          && SameNames(p, q, "genres") && SameNames(p, q, "themes") && SameNames(p, q, "game_modes")
          && SameText(p, q, "game_type") && SameText(p, q, "series") && SameFirst(p, q, "keywords", 40))
    && (kind == "season" ==> SameText(p, q, "tv_show_name") && Episodes(Get(p, "episodes")) == Episodes(Get(q, "episodes")))
    && (kind == "album" ==> SamePeople(p, q, "authors") && Tracks(Get(p, "tracks")) == Tracks(Get(q, "tracks")))
    && (kind == "book" ==> SamePeople(p, q, "authors") && SameFirst(p, q, "subjects", 30))
  }

  lemma ScreenTells(kind: string, p: Fields, q: Fields)
    requires ScreenState(kind, p).Ok? && ScreenState(kind, q).Ok?
    ensures ScreenState(kind, p) == ScreenState(kind, q) <==>
      SameText(p, q, "original_title") && SameText(p, q, "tagline") && SameNames(p, q, "genres") && SameFirst(p, q, "keywords", 40)
  {
    TextTells(p, q, "original_title");
    TextTells(p, q, "tagline");
    NamesTell(p, q, "genres");
  }

  lemma GameTells(p: Fields, q: Fields)
    requires GameState(p).Ok? && GameState(q).Ok?
    ensures GameState(p) == GameState(q) <==>
      && SameNames(p, q, "genres") && SameNames(p, q, "themes") && SameNames(p, q, "game_modes")
      && SameText(p, q, "game_type") && SameText(p, q, "series") && SameFirst(p, q, "keywords", 40)
  {
    NamesTell(p, q, "genres");
    NamesTell(p, q, "themes");
    NamesTell(p, q, "game_modes");
    TextTells(p, q, "game_type");
    TextTells(p, q, "series");
  }

  lemma SeasonTells(p: Fields, q: Fields)
    requires SeasonState(p).Ok? && SeasonState(q).Ok?
    ensures SeasonState(p) == SeasonState(q) <==> SameText(p, q, "tv_show_name") && Episodes(Get(p, "episodes")) == Episodes(Get(q, "episodes"))
  {
    TextTells(p, q, "tv_show_name");
  }

  lemma AlbumTells(p: Fields, q: Fields)
    requires AlbumState(p).Ok? && AlbumState(q).Ok?
    ensures AlbumState(p) == AlbumState(q) <==> SamePeople(p, q, "authors") && Tracks(Get(p, "tracks")) == Tracks(Get(q, "tracks"))
  {
    AlbumHolds(p, People(Get(p, "authors")), Tracks(Get(p, "tracks")));
    AlbumHolds(q, People(Get(q, "authors")), Tracks(Get(q, "tracks")));
  }

  lemma AlbumHolds(p: Fields, people: Normal<seq<string>>, tracks: Normal<seq<Track>>)
    requires people == People(Get(p, "authors")) && tracks == Tracks(Get(p, "tracks")) && AlbumState(p).Ok?
    ensures people.Ok? && tracks.Ok? && AlbumState(p) == Ok(Album(people.value, tracks.value))
  {
  }

  lemma BookTells(p: Fields, q: Fields)
    requires BookState(p).Ok? && BookState(q).Ok?
    ensures BookState(p) == BookState(q) <==> SamePeople(p, q, "authors") && SameFirst(p, q, "subjects", 30)
  {
    BookHolds(p, People(Get(p, "authors")), Names(Get(p, "subjects"), Some(30)));
    BookHolds(q, People(Get(q, "authors")), Names(Get(q, "subjects"), Some(30)));
  }

  lemma BookHolds(p: Fields, people: Normal<seq<string>>, subjects: Normal<seq<string>>)
    requires people == People(Get(p, "authors")) && subjects == Names(Get(p, "subjects"), Some(30)) && BookState(p).Ok?
    ensures people.Ok? && subjects.Ok? && BookState(p) == Ok(Book(people.value, subjects.value))
  {
  }

  lemma SpecificTells(kind: string, p: Fields, q: Fields)
    requires NormalizeTypeSpecific(kind, p).Ok? && NormalizeTypeSpecific(kind, q).Ok?
    requires SameText(p, q, "title") && SameText(p, q, "description")
    ensures NormalizeTypeSpecific(kind, p) == NormalizeTypeSpecific(kind, q) <==> TellTheSame(kind, p, q)
  {
    if kind == "movie" || kind == "tv_show" {
      ScreenTells(kind, p, q);
    } else if kind == "game" {
      GameTells(p, q);
    } else if kind == "season" {
      SeasonTells(p, q);
    } else if kind == "album" {
      AlbumTells(p, q);
    } else if kind == "book" {
      BookTells(p, q);
    }
  }

  /** A state is built exactly for a provider and a type with words in them and a payload whose fields can be read. It
      holds the folded provider, the upper-case type, and the normalised title and description of the payload. */
  lemma StateMeans(c: Casing, provider: Json, contentType: Json, title: Json, description: Json, p: Fields)
    ensures BuildState(c, provider, contentType, title, description, Object(p)).Ok? <==>
      && provider.Text? && !T.Blank(provider.s) && contentType.Text? && !T.Blank(contentType.s)
      && Plain(Get(p, "title")) && Plain(Get(p, "description"))
      && NormalizeTypeSpecific(c.fold(c.upper(Said(contentType))), p).Ok?
    ensures BuildState(c, provider, contentType, title, description, Object(p)).Ok? ==>
      BuildState(c, provider, contentType, title, description, Object(p)).value ==
        State(c.fold(Said(provider)), c.upper(Said(contentType)), Said(Get(p, "title")), Said(Get(p, "description")),
              NormalizeTypeSpecific(c.fold(c.upper(Said(contentType))), p).value)
  {
  }

  /** Two payloads of the same item have the same state exactly when they tell the same. */
  lemma StatesAgreeIff(c: Casing, provider: Json, contentType: Json, title: Json, description: Json, p: Fields, q: Fields)
    requires BuildState(c, provider, contentType, title, description, Object(p)).Ok?
    requires BuildState(c, provider, contentType, title, description, Object(q)).Ok?
    ensures BuildState(c, provider, contentType, title, description, Object(p))
         == BuildState(c, provider, contentType, title, description, Object(q))
       <==> TellTheSame(c.fold(c.upper(Said(contentType))), p, q)
  {
    StateMeans(c, provider, contentType, title, description, p);
    StateMeans(c, provider, contentType, title, description, q);
    if SameText(p, q, "title") && SameText(p, q, "description") {
      SpecificTells(c.fold(c.upper(Said(contentType))), p, q);
    }
  }

  /** Without a payload the given title and description count, and no other kind of payload is accepted. */
  lemma StateWithoutPayload(c: Casing, provider: Json, contentType: Json, title: Json, description: Json, payload: Json)
    requires !payload.Object?
    ensures BuildState(c, provider, contentType, title, description, payload)
         == if payload != Null then Err(ModerationStateError)
            else BuildState(c, provider, contentType, title, description, Object(map["title" := title, "description" := description]))
  {
    var p := map["title" := title, "description" := description];
    assert Get(p, "title") == title && Get(p, "description") == description;
    if RequireNonEmpty(contentType).Ok? {
      OwnFieldsOnly(c.fold(c.upper(RequireNonEmpty(contentType).value)), p);
    }
  }

  predicate NoField(p: Fields, key: string) {
    Get(p, key) == Null
  }

  lemma ScreenOwnFields(kind: string, p: Fields)
    requires NoField(p, "original_title") && NoField(p, "tagline") && NoField(p, "genres") && NoField(p, "keywords")
    ensures ScreenState(kind, p) == ScreenState(kind, map[])
  {
  }

  lemma GameOwnFields(p: Fields)
    requires NoField(p, "genres") && NoField(p, "themes") && NoField(p, "game_modes")
    requires NoField(p, "game_type") && NoField(p, "series") && NoField(p, "keywords")
    ensures GameState(p) == GameState(map[])
  {
  }

  lemma SeasonOwnFields(p: Fields)
    requires NoField(p, "tv_show_name") && NoField(p, "episodes")
    ensures SeasonState(p) == SeasonState(map[])
  {
  }

  lemma AlbumOwnFields(p: Fields)
    requires NoField(p, "authors") && NoField(p, "tracks")
    ensures AlbumState(p) == AlbumState(map[])
  {
  }

  lemma BookOwnFields(p: Fields)
    requires NoField(p, "authors") && NoField(p, "subjects")
    ensures BookState(p) == BookState(map[])
  {
  }

  lemma OwnFieldsOnly(kind: string, p: Fields)
    requires p.Keys <= {"title", "description"}
    ensures NormalizeTypeSpecific(kind, p) == NormalizeTypeSpecific(kind, map[])
  {
    if kind == "movie" || kind == "tv_show" {
      ScreenOwnFields(kind, p);
    } else if kind == "game" {
      GameOwnFields(p);
    } else if kind == "season" {
      SeasonOwnFields(p);
    } else if kind == "album" {
      AlbumOwnFields(p);
    } else if kind == "book" {
      BookOwnFields(p);
    }
  }
}
