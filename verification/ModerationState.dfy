/** The text-only moderation state: an allowlist of normalised text and canonically ordered lists. */
module ModerationState {
  import opened Prelude
  import opened Sorting
  import opened Canonical
  import T = Text

  /** The JSON-like values of a reconstructed payload. */
  datatype Json =
    | Null
    | Flag(b: bool)
    | Number(n: int)
    | Text(s: string)
    | Items(items: seq<Json>)
    | Object(fields: map<string, Json>)

  type Fields = map<string, Json>

  function Get(fields: Fields, key: string): Json {
    if key in fields then fields[key] else Null
  }

  predicate Truthy(v: Json) {
    match v
    case Null => false
    case Flag(b) => b
    case Number(n) => n != 0
    case Text(s) => s != ""
    case Items(items) => items != []
    case Object(fields) => fields != map[]
  }

  const MAX_KEYWORDS: nat := 40
  const MAX_SUBJECTS: nat := 30

  type Normal<T> = Result<T, StateError>

  function NormalizeText(v: Json): Normal<string> {
    match v
    case Null => Ok("")
    case Text(s) => Ok(T.Normalized(s))
    case _ => Err(ModerationStateError)
  }

  function Sequence(v: Json): Normal<seq<Json>> {
    match v
    case Null => Ok([])
    case Items(items) => Ok(items)
    case _ => Err(ModerationStateError)
  }

  // ---------------------------------------------------------------- one entry

  datatype Credit = Credit(name: string, role: string)

  datatype Episode = Episode(title: string, description: string)

  datatype Track = Track(title: string, credits: seq<Credit>, advisory: string)

  function Unless<E>(empty: bool, e: E): Reading<E> {
    Ok(if empty then None else Some(e))
  }

  function ReadName(v: Json): Reading<string> {
    if v.Text? then Unless(T.Normalized(v.s) == "", T.Normalized(v.s)) else Err(ModerationStateError)
  }

  function ReadPerson(v: Json): Reading<string> {
    if v.Text? || v.Object? then
      var name :- NormalizeText(if v.Text? then v else Get(v.fields, "name"));
      Unless(name == "", name)
    else Err(ModerationStateError)
  }

  function RawRole(fields: Fields): Json {
    if Truthy(Get(fields, "role")) then Get(fields, "role") else Get(fields, "type")
  }

  function ReadCredit(v: Json): Reading<Credit> {
    if v.Text? || v.Object? then
      var name :- NormalizeText(if v.Text? then v else Get(v.fields, "name"));
      var role :- NormalizeText(if v.Text? then Null else RawRole(v.fields));
      Unless(name == "" && role == "", Credit(name, role))
    else Err(ModerationStateError)
  }

  function ReadEpisode(v: Json): Reading<Episode> {
    if v.Object? then
      var title :- NormalizeText(Get(v.fields, "title"));
      var description :- NormalizeText(Get(v.fields, "description"));
      Unless(title == "" && description == "", Episode(title, description))
    else Err(ModerationStateError)
  }

  function ReadTrack(v: Json): Reading<Track> {
    if v.Object? then
      var title :- NormalizeText(Get(v.fields, "title"));
      var credits :- Credits(Get(v.fields, "authors"));
      Unless(title == "" && credits == [],
             Track(title, credits, if Get(v.fields, "explicit") == Flag(true) then "explicit" else ""))
    else Err(ModerationStateError)
  }

  // ---------------------------------------------------------------- orders

  predicate PairLe(a: (string, string), b: (string, string)) {
    if a.0 != b.0 then TextLe(a.0, b.0) else TextLe(a.1, b.1)
  }

  predicate CreditLe(a: Credit, b: Credit) {
    PairLe((a.name, a.role), (b.name, b.role))
  }

  predicate EpisodeLe(a: Episode, b: Episode) {
    PairLe((a.title, a.description), (b.title, b.description))
  }

  predicate TrackLe(a: Track, b: Track) {
    if a.title != b.title then TextLe(a.title, b.title)
    else if a.credits != b.credits then SeqLe(a.credits, b.credits, CreditLe)
    else TextLe(a.advisory, b.advisory)
  }

  lemma CreditOrder()
    ensures TotalOrder(CreditLe)
  {
    TextOrder();
  }

  lemma EpisodeOrder()
    ensures TotalOrder(EpisodeLe)
  {
    TextOrder();
  }

  lemma TrackOrder()
    ensures TotalOrder(TrackLe)
  {
    TextOrder();
    CreditOrder();
    forall a: Track, b: Track
      ensures TrackLe(a, b) || TrackLe(b, a)
    {
      SeqTotal(a.credits, b.credits, CreditLe);
    }
    forall a: Track, b: Track | TrackLe(a, b) && TrackLe(b, a)
      ensures a == b
    {
      if a.title == b.title && a.credits != b.credits {
        SeqAntisymmetric(a.credits, b.credits, CreditLe);
      }
    }
    forall a: Track, b: Track, c: Track | TrackLe(a, b) && TrackLe(b, c)
      ensures TrackLe(a, c)
    {
      TrackTransitive(a, b, c);
    }
  }

  lemma TrackTransitive(a: Track, b: Track, c: Track)
    requires TotalOrder(TextLe) && TotalOrder(CreditLe) && TrackLe(a, b) && TrackLe(b, c)
    ensures TrackLe(a, c)
  {
    if a.title == b.title && b.title == c.title && a.credits != b.credits && b.credits != c.credits {
      SeqTransitive(a.credits, b.credits, c.credits, CreditLe);
      if a.credits == c.credits {
        SeqAntisymmetric(a.credits, b.credits, CreditLe);
      }
    }
  }

  // ---------------------------------------------------------------- whole lists

  function Cut(names: seq<string>, limit: Option<nat>): seq<string> {
    match limit
    case None => names
    case Some(n) => names[..Min(n, |names|)]
  }

  function Names(v: Json, limit: Option<nat>): Normal<seq<string>> {
    var items :- Sequence(v);
    if Readable(items, ReadName) then Ok(Sort(Cut(Dedup(Kept(items, ReadName)), limit), TextLe)) else Err(ModerationStateError)
  }

  function People(v: Json): Normal<seq<string>> {
    var items :- Sequence(v);
    if Readable(items, ReadPerson) then Ok(Sort(Dedup(Kept(items, ReadPerson)), TextLe)) else Err(ModerationStateError)
  }

  function Collected<E>(v: Json, read: Json -> Reading<E>, le: (E, E) -> bool): Normal<seq<E>> {
    var items :- Sequence(v);
    if Readable(items, read) then Ok(Sort(Kept(items, read), le)) else Err(ModerationStateError)
  }

  function Credits(v: Json): Normal<seq<Credit>> {
    Collected(v, ReadCredit, CreditLe)
  }

  function Episodes(v: Json): Normal<seq<Episode>> {
    Collected(v, ReadEpisode, EpisodeLe)
  }

  function Tracks(v: Json): Normal<seq<Track>> {
    Collected(v, ReadTrack, TrackLe)
  }

  // ---------------------------------------------------------------- the loops

  method NormalizeNames(values: Json, limit: Option<nat>) returns (r: Normal<seq<string>>)
    ensures r == Names(values, limit)
  {
    var items :- Sequence(values);
    var names: seq<string> := [];
    for i := 0 to |items|
      invariant Readable(items[..i], ReadName) && names == Kept(items[..i], ReadName)
    {
      KeptStep(items, i, ReadName);
      if !items[i].Text? {
        return Err(ModerationStateError);
      }
      var cleaned := T.Normalized(items[i].s);
      if cleaned != "" {
        names := names + [cleaned];
      }
    }
    assert items[..|items|] == items;
    return Ok(Sort(Cut(Dedup(names), limit), TextLe));
  }

  method NormalizePeopleNames(values: Json) returns (r: Normal<seq<string>>)
    ensures r == People(values)
  {
    var items :- Sequence(values);
    var names: seq<string> := [];
    for i := 0 to |items|
      invariant Readable(items[..i], ReadPerson) && names == Kept(items[..i], ReadPerson)
    {
      KeptStep(items, i, ReadPerson);
      var person := items[i];
      var rawName := Null;
      if person.Text? {
        rawName := person;
      } else if person.Object? {
        rawName := Get(person.fields, "name");
      } else {
        return Err(ModerationStateError);
      }
      var name := NormalizeText(rawName);
      if name.Err? {
        return Err(ModerationStateError);
      }
      if name.value != "" {
        names := names + [name.value];
      }
    }
    assert items[..|items|] == items;
    return Ok(Sort(Dedup(names), TextLe));
  }

  method NormalizeCredits(values: Json) returns (r: Normal<seq<Credit>>)
    ensures r == Credits(values)
  {
    var items :- Sequence(values);
    var credits: seq<Credit> := [];
    for i := 0 to |items|
      invariant Readable(items[..i], ReadCredit) && credits == Kept(items[..i], ReadCredit)
    {
      KeptStep(items, i, ReadCredit);
      var credit := items[i];
      var rawName, rawRole := Null, Null;
      if credit.Text? {
        rawName := credit;
      } else if credit.Object? {
        rawName := Get(credit.fields, "name");
        rawRole := Get(credit.fields, "role");
        if !Truthy(rawRole) {
          rawRole := Get(credit.fields, "type");
        }
      } else {
        return Err(ModerationStateError);
      }
      var name, role := NormalizeText(rawName), NormalizeText(rawRole);
      if name.Err? || role.Err? {
        return Err(ModerationStateError);
      }
      if name.value != "" || role.value != "" {
        credits := credits + [Credit(name.value, role.value)];
      }
    }
    assert items[..|items|] == items;
    return Ok(Sort(credits, CreditLe));
  }

  method NormalizeEpisodes(values: Json) returns (r: Normal<seq<Episode>>)
    ensures r == Episodes(values)
  {
    var items :- Sequence(values);
    var episodes: seq<Episode> := [];
    for i := 0 to |items|
      invariant Readable(items[..i], ReadEpisode) && episodes == Kept(items[..i], ReadEpisode)
    {
      KeptStep(items, i, ReadEpisode);
      if !items[i].Object? {
        return Err(ModerationStateError);
      }
      var title, description := NormalizeText(Get(items[i].fields, "title")), NormalizeText(Get(items[i].fields, "description"));
      if title.Err? || description.Err? {
        return Err(ModerationStateError);
      }
      if title.value != "" || description.value != "" {
        episodes := episodes + [Episode(title.value, description.value)];
      }
    }
    assert items[..|items|] == items;
    return Ok(Sort(episodes, EpisodeLe));
  }

  method NormalizeTracks(values: Json) returns (r: Normal<seq<Track>>)
    ensures r == Tracks(values)
  {
    var items :- Sequence(values);
    var tracks: seq<Track> := [];
    for i := 0 to |items|
      invariant Readable(items[..i], ReadTrack) && tracks == Kept(items[..i], ReadTrack)
    {
      KeptStep(items, i, ReadTrack);
      if !items[i].Object? {
        return Err(ModerationStateError);
      }
      var title := NormalizeText(Get(items[i].fields, "title"));
      if title.Err? {
        return Err(ModerationStateError);
      }
      var credits := NormalizeCredits(Get(items[i].fields, "authors"));
      if credits.Err? {
        return Err(ModerationStateError);
      }
      if title.value != "" || credits.value != [] {
        var advisory := if Get(items[i].fields, "explicit") == Flag(true) then "explicit" else "";
        tracks := tracks + [Track(title.value, credits.value, advisory)];
      }
    }
    assert items[..|items|] == items;
    return Ok(Sort(tracks, TrackLe));
  }

  // ---------------------------------------------------------------- canonical forms

  lemma CollectedOf<E>(items: seq<Json>, read: Json -> Reading<E>, le: (E, E) -> bool)
    ensures Collected(Items(items), read, le)
         == if Readable(items, read) then Ok(Sort(Kept(items, read), le)) else Err(ModerationStateError)
  {
  }

  lemma PeopleOf(items: seq<Json>)
    ensures People(Items(items))
         == if Readable(items, ReadPerson) then Ok(Sort(Dedup(Kept(items, ReadPerson)), TextLe)) else Err(ModerationStateError)
  {
  }

  lemma NamesOf(items: seq<Json>, limit: Option<nat>)
    ensures Names(Items(items), limit)
         == if Readable(items, ReadName) then Ok(Sort(Cut(Dedup(Kept(items, ReadName)), limit), TextLe)) else Err(ModerationStateError)
  {
  }

  /** A collected list depends on what its entries say and how often, and on nothing else about them. */
  lemma CollectedIff<E(!new)>(a: seq<Json>, b: seq<Json>, read: Json -> Reading<E>, le: (E, E) -> bool)
    requires TotalOrder(le) && Readable(a, read) && Readable(b, read)
    ensures Collected(Items(a), read, le) == Collected(Items(b), read, le) <==> Shuffled(Kept(a, read), Kept(b, read))
  {
    CollectedOf(a, read, le);
    CollectedOf(b, read, le);
    SortedAlikeIff(Kept(a, read), Kept(b, read), le);
  }

  lemma CollectedIgnoresOrder<E(!new)>(a: seq<Json>, b: seq<Json>, read: Json -> Reading<E>, le: (E, E) -> bool)
    requires TotalOrder(le) && Shuffled(a, b)
    ensures Collected(Items(a), read, le) == Collected(Items(b), read, le)
  {
    ReadableShuffled(a, b, read);
    KeptShuffled(a, b, read);
    SortedAlikeIff(Kept(a, read), Kept(b, read), le);
  }

  lemma CollectedPointwise<E>(a: seq<Json>, b: seq<Json>, read: Json -> Reading<E>, le: (E, E) -> bool)
    requires |a| == |b| && forall i :: 0 <= i < |a| ==> read(a[i]) == read(b[i])
    ensures Collected(Items(a), read, le) == Collected(Items(b), read, le)
  {
    KeptPointwise(a, b, read);
    assert Readable(a, read) <==> Readable(b, read);
    CollectedOf(a, read, le);
    CollectedOf(b, read, le);
  }

  /** Credits and episodes come out the same for every order of the entries. */
  lemma CreditsAndEpisodesIgnoreOrder(a: seq<Json>, b: seq<Json>)
    requires Shuffled(a, b)
    ensures Credits(Items(a)) == Credits(Items(b))
    ensures Episodes(Items(a)) == Episodes(Items(b))
  {
    CreditOrder();
    EpisodeOrder();
    CollectedIgnoresOrder(a, b, ReadCredit, CreditLe);
    CollectedIgnoresOrder(a, b, ReadEpisode, EpisodeLe);
  }

  /** People come out the same exactly when the same normalised names occur. */
  lemma PeopleAgreeIff(a: seq<Json>, b: seq<Json>)
    requires Readable(a, ReadPerson) && Readable(b, ReadPerson)
    ensures People(Items(a)) == People(Items(b)) <==> forall x :: x in Kept(a, ReadPerson) <==> x in Kept(b, ReadPerson)
  {
    PeopleOf(a);
    PeopleOf(b);
    UniqueAgreeIff(Kept(a, ReadPerson), Kept(b, ReadPerson));
  }

  lemma UniqueAgreeIff(a: seq<string>, b: seq<string>)
    ensures Sort(Dedup(a), TextLe) == Sort(Dedup(b), TextLe) <==> forall x :: x in a <==> x in b
  {
    TextOrder();
    DedupKeepsElements(a);
    DedupKeepsElements(b);
    SortedAlikeIff(Dedup(a), Dedup(b), TextLe);
    SameSetIffShuffled(Dedup(a), Dedup(b));
  }

  lemma PeopleIgnoreOrder(a: seq<Json>, b: seq<Json>)
    requires Shuffled(a, b)
    ensures People(Items(a)) == People(Items(b))
  {
    ReadableShuffled(a, b, ReadPerson);
    KeptShuffled(a, b, ReadPerson);
    ShuffledElements(Kept(a, ReadPerson), Kept(b, ReadPerson));
    UniqueAgreeIff(Kept(a, ReadPerson), Kept(b, ReadPerson));
  }

  lemma ShuffledElements(a: seq<string>, b: seq<string>)
    requires Shuffled(a, b)
    ensures forall x :: x in a <==> x in b
  {
    forall x
      ensures x in a <==> x in b
    {
      SameElements(a, b, x);
    }
  }

  /** Whether the limit cannot cut anything: there is none, it is zero, or the distinct names fit. */
  predicate LimitHolds(items: seq<Json>, limit: Option<nat>) {
    limit.None? || limit.value == 0 || |Dedup(Kept(items, ReadName))| <= limit.value
  }

  lemma NamesIgnoreOrder(a: seq<Json>, b: seq<Json>, limit: Option<nat>)
    requires Shuffled(a, b) && (Readable(a, ReadName) ==> LimitHolds(a, limit))
    ensures Names(Items(a), limit) == Names(Items(b), limit)
  {
    ReadableShuffled(a, b, ReadName);
    if Readable(a, ReadName) {
      var x, y := Kept(a, ReadName), Kept(b, ReadName);
      KeptShuffled(a, b, ReadName);
      ShuffledElements(x, y);
      UniqueAgreeIff(x, y);
      DedupKeepsElements(x);
      DedupKeepsElements(y);
      SameSetIffShuffled(Dedup(x), Dedup(y));
      assert |Dedup(x)| == |multiset(Dedup(x))| == |multiset(Dedup(y))| == |Dedup(y)|;
      NothingCut(Dedup(x), limit);
      NothingCut(Dedup(y), limit);
    }
    NamesOf(a, limit);
    NamesOf(b, limit);
  }

  lemma NothingCut(names: seq<string>, limit: Option<nat>)
    ensures Cut(names, limit) == if limit == Some(0) then [] else if limit.Some? && limit.value < |names| then names[..limit.value] else names
  {
  }

  /** The names come out the same for every order of the entries exactly when an entry is refused or the limit cannot
      cut: with too many distinct names, moving the first one cut to the front brings it in. */
  lemma NamesIgnoreOrderIff(items: seq<Json>, limit: Option<nat>)
    ensures (forall b :: Shuffled(items, b) ==> Names(Items(b), limit) == Names(Items(items), limit))
       <==> !Readable(items, ReadName) || LimitHolds(items, limit)
  {
    if !Readable(items, ReadName) || LimitHolds(items, limit) {
      forall b | Shuffled(items, b)
        ensures Names(Items(b), limit) == Names(Items(items), limit)
      {
        NamesIgnoreOrder(items, b, limit);
      }
    } else {
      var b := FirstCutToFront(items, limit.value);
      assert Shuffled(items, b) && Names(Items(b), limit) != Names(Items(items), limit);
    }
  }

  lemma FirstCutToFront(items: seq<Json>, n: nat) returns (b: seq<Json>)
    requires Readable(items, ReadName) && 0 < n < |Dedup(Kept(items, ReadName))|
    ensures Shuffled(items, b) && Names(Items(b), Some(n)) != Names(Items(items), Some(n))
  {
    var names := Kept(items, ReadName);
    DedupKeepsElements(names);
    var x := Dedup(names)[n];
    assert x in names;
    var k := KeptCameFrom(items, ReadName, x);
    b := MovedToFront(items, k);
    ReadableShuffled(items, b, ReadName);
    DedupFirst(Kept(b, ReadName));
    NamesOf(items, Some(n));
    NamesOf(b, Some(n));
    CutDiffers(Dedup(names), Dedup(Kept(b, ReadName)), n);
  }

  lemma MovedToFront(items: seq<Json>, k: nat) returns (b: seq<Json>)
    requires k < |items| && ReadName(items[k]).Ok? && ReadName(items[k]).value.Some?
    ensures Shuffled(items, b)
    ensures Kept(b, ReadName) != [] && Kept(b, ReadName)[0] == ReadName(items[k]).value.value
  {
    var rest := items[..k] + items[k + 1..];
    b := [items[k]] + rest;
    assert items == items[..k] + ([items[k]] + items[k + 1..]);
    KeptConcat([items[k]], rest, ReadName);
    KeptOne(items[k], ReadName);
  }

  /** Cutting before an element of one list and after it in the other leaves different names. */
  lemma CutDiffers(a: seq<string>, b: seq<string>, n: nat)
    requires NoDuplicates(a) && 0 < n < |a| && b != [] && b[0] == a[n]
    ensures Sort(Cut(a, Some(n)), TextLe) != Sort(Cut(b, Some(n)), TextLe)
  {
    var without, with := Cut(a, Some(n)), Cut(b, Some(n));
    assert a[n] !in without;
    assert with[0] == a[n];
    SameElements(without, Sort(without, TextLe), a[n]);
    SameElements(with, Sort(with, TextLe), a[n]);
  }

  function Letters(n: nat): (s: string)
    ensures |s| == n && forall i :: 0 <= i < n ==> s[i] == 'a'
  {
    if n == 0 then "" else Letters(n - 1) + "a"
  }

  lemma LettersAreAName(n: nat)
    requires n >= 1
    ensures ReadName(Text(Letters(n))) == Ok(Some(Letters(n)))
  {
    assert T.Word(Letters(n));
    T.SplitJoined([Letters(n)]);
  }

  lemma ManyNames(n: nat) returns (items: seq<Json>)
    ensures |items| == n && Readable(items, ReadName) && |Dedup(Kept(items, ReadName))| == n
  {
    var names := seq(n, i requires 0 <= i < n => Letters(i + 1));
    forall i | 0 <= i < n
      ensures ReadName(Text(names[i])) == Ok(Some(names[i])) && |names[i]| == i + 1
    {
      LettersAreAName(i + 1);
    }
    items := Written(names, s => Text(s));
    KeptWritten(names, ReadName, s => Text(s));
    DedupFixed(names);
  }

  /** For every limit there is a list with one distinct name too many, and a shuffle of it that gives other names. */
  lemma OneNameTooMany(n: nat) returns (items: seq<Json>, b: seq<Json>)
    requires n >= 1
    ensures |items| == n + 1 && Readable(items, ReadName) && Shuffled(items, b)
    ensures Names(Items(b), Some(n)) != Names(Items(items), Some(n))
  {
    items := ManyNames(n + 1);
    b := FirstCutToFront(items, n);
  }

  // ---------------------------------------------------------------- normalising twice

  function CreditJson(c: Credit): Json {
    Object(map["name" := Text(c.name), "role" := Text(c.role)])
  }

  function EpisodeJson(e: Episode): Json {
    Object(map["title" := Text(e.title), "description" := Text(e.description)])
  }

  lemma CollectedIsStable<E(!new)>(v: Json, read: Json -> Reading<E>, le: (E, E) -> bool, write: E -> Json)
    requires TotalOrder(le) && Collected(v, read, le).Ok?
    requires forall j, e :: read(j) == Ok(Some(e)) ==> read(write(e)) == Ok(Some(e))
    ensures Collected(Items(Written(Collected(v, read, le).value, write)), read, le) == Collected(v, read, le)
  {
    var items := Sequence(v).value;
    var r := Collected(v, read, le).value;
    forall i | 0 <= i < |r|
      ensures read(write(r[i])) == Ok(Some(r[i]))
    {
      SameElements(r, Kept(items, read), r[i]);
      var k := KeptCameFrom(items, read, r[i]);
    }
    KeptWritten(r, read, write);
    CollectedOf(Written(r, write), read, le);
    SortSorted(Kept(items, read), le);
    SortFixed(r, le);
  }

  /** Credits and episodes that went through once come back unchanged. */
  lemma CreditsAndEpisodesAreStable(v: Json)
    ensures Credits(v).Ok? ==> Credits(Items(Written(Credits(v).value, CreditJson))) == Credits(v)
    ensures Episodes(v).Ok? ==> Episodes(Items(Written(Episodes(v).value, EpisodeJson))) == Episodes(v)
  {
    if Credits(v).Ok? {
      CreditOrder();
      forall j, e | ReadCredit(j) == Ok(Some(e))
        ensures ReadCredit(CreditJson(e)) == Ok(Some(e))
      {
        CreditRoundTrip(j, e);
      }
      CollectedIsStable(v, ReadCredit, CreditLe, CreditJson);
    }
    if Episodes(v).Ok? {
      EpisodeOrder();
      forall j, e | ReadEpisode(j) == Ok(Some(e))
        ensures ReadEpisode(EpisodeJson(e)) == Ok(Some(e))
      {
        NormalTextIsStable(Get(j.fields, "title"));
        NormalTextIsStable(Get(j.fields, "description"));
      }
      CollectedIsStable(v, ReadEpisode, EpisodeLe, EpisodeJson);
    }
  }

  lemma NormalTextIsStable(v: Json)
    requires NormalizeText(v).Ok?
    ensures NormalizeText(Text(NormalizeText(v).value)) == NormalizeText(v)
  {
    if v.Text? {
      T.NormalizedIsStable(v.s);
    } else {
      T.NormalizedIsStable("");
      assert T.Normalized("") == "";
    }
  }

  lemma CreditRoundTrip(j: Json, e: Credit)
    requires ReadCredit(j) == Ok(Some(e))
    ensures ReadCredit(CreditJson(e)) == Ok(Some(e))
  {
    NormalTextIsStable(if j.Text? then j else Get(j.fields, "name"));
    NormalTextIsStable(if j.Text? then Null else RawRole(j.fields));
    var fields := CreditJson(e).fields;
    assert Get(fields, "name") == Text(e.name) && Get(fields, "role") == Text(e.role) && Get(fields, "type") == Null;
  }

  /** Names that went through once, with or without a limit, come back unchanged. */
  lemma NamesAreStable(v: Json, limit: Option<nat>)
    requires Names(v, limit).Ok?
    ensures Names(Items(Written(Names(v, limit).value, s => Text(s))), limit) == Names(v, limit)
  {
    var items := Sequence(v).value;
    var unique := Dedup(Kept(items, ReadName));
    var r := Names(v, limit).value;
    DedupKeepsElements(Kept(items, ReadName));
    NothingCut(unique, limit);
    StableUnique(items, ReadName, Cut(unique, limit), r);
    NamesOf(Written(r, s => Text(s)), limit);
    NothingCut(r, limit);
  }

  /** People that went through once come back unchanged. */
  lemma PeopleAreStable(v: Json)
    requires People(v).Ok?
    ensures People(Items(Written(People(v).value, s => Text(s)))) == People(v)
  {
    var items := Sequence(v).value;
    DedupKeepsElements(Kept(items, ReadPerson));
    StableUnique(items, ReadPerson, Dedup(Kept(items, ReadPerson)), People(v).value);
    PeopleOf(Written(People(v).value, s => Text(s)));
  }

  lemma StableUnique(items: seq<Json>, read: Json -> Reading<string>, unique: seq<string>, r: seq<string>)
    requires read == ReadName || read == ReadPerson
    requires NoDuplicates(unique) && r == Sort(unique, TextLe)
    requires forall x :: x in unique ==> x in Kept(items, read)
    ensures var again := Written(r, s => Text(s));
      Readable(again, read) && Kept(again, read) == r && Dedup(r) == r && Sort(r, TextLe) == r
  {
    forall i | 0 <= i < |r|
      ensures read(Text(r[i])) == Ok(Some(r[i]))
    {
      SameElements(r, unique, r[i]);
      var k := KeptCameFrom(items, read, r[i]);
      var from := if read == ReadName || items[k].Text? then items[k] else Get(items[k].fields, "name");
      NormalTextIsStable(from);
    }
    KeptWritten(r, read, s => Text(s));
    TextOrder();
    SortKeepsNoDuplicates(unique, TextLe);
    DedupFixed(r);
    SortSorted(unique, TextLe);
    SortFixed(r, TextLe);
  }
}
