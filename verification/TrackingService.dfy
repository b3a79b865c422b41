/** Personal progress: tracking rows, ratings, favourites and the profile banner of one user, changed together. */
module TrackingService {
  import opened Prelude
  import opened Text
  import opened DynamicCollections

  type Time = int

  type ImageId = nat

  const FAVORITE_LIMIT_PER_TYPE := 5

  datatype Row = Row(status: Status, lastCompletedAt: Option<Time>, isFavorite: bool, favoritedAt: Option<Time>)

  datatype Rating = Rating(score: real, comment: string, spoiler: bool, isActive: bool)

  /** The rows of one user; `lock_user` serialises every operation on them. */
  datatype User = User(tracking: map<ItemId, Row>, ratings: map<ItemId, Rating>, banner: Option<ItemId>, bannerImage: Option<ImageId>)

  datatype Catalog = Catalog(typeOf: ItemId -> ContentType, imageOwner: map<ImageId, ItemId>)

  datatype Effect = ReviewArchived | RatingArchived | FavoriteRemoved

  datatype Error =
    | StatusUnsupported
    | EffectsRequireConfirmation(effects: seq<Effect>)
    | NotCompleted
    | FavoriteLimitReached
    | ChooseFavoriteFirst
    | NotAnActiveFavorite
    | NotAnImageOfThatFavorite

  predicate Supported(contentType: ContentType, status: Status) {
    match contentType
    case Movie => status != OnHold
    case Album => status in {Backlog, InProgress, Completed}
    case _ => true
  }

  function Archive(r: Rating): Effect {
    if Strip(r.comment) == "" then RatingArchived else ReviewArchived
  }

  function Reactivated(r: Rating): Rating {
    r.(isActive := true, spoiler := Strip(r.comment) != "" && r.spoiler)
  }

  function ClearBanner(u: User, item: ItemId): User {
    if u.banner == Some(item) then u.(banner := None, bannerImage := None) else u
  }

  function FreshRow(status: Status, now: Time): Row {
    Row(status, if status == Completed then Some(now) else None, false, None)
  }

  // ---------------------------------------------------------------- the operations, branch by branch

  function EnsureTracking(cat: Catalog, u: User, item: ItemId, status: Status): Result<User, Error> {
    if !Supported(cat.typeOf(item), status) then Err(StatusUnsupported)
    else if item in u.tracking then Ok(u)
    else Ok(u.(tracking := u.tracking[item := Row(status, None, false, None)]))
  }

  datatype Outcome = Outcome(user: User, effects: seq<Effect>, shouldPromptRating: bool)

  function TransitionEffects(u: User, item: ItemId, status: Status): seq<Effect> {
    if item in u.tracking && u.tracking[item].status == Completed && status != Completed then
      (if item in u.ratings && u.ratings[item].isActive then [Archive(u.ratings[item])] else [])
      + (if u.tracking[item].isFavorite then [FavoriteRemoved] else [])
    else []
  }

  function TransitionedRating(u: User, item: ItemId, status: Status): User {
    if item !in u.ratings then u
    else if status == Completed && !u.ratings[item].isActive then u.(ratings := u.ratings[item := Reactivated(u.ratings[item])])
    else if status != Completed && u.ratings[item].isActive then u.(ratings := u.ratings[item := u.ratings[item].(isActive := false)])
    else u
  }

  /** The writes of a transition that was not refused. */
  function WithTransition(u: User, item: ItemId, status: Status, now: Time): User {
    var created := item !in u.tracking;
    var row := if created then FreshRow(status, now) else u.tracking[item];
    var dated := if status == Completed && !created && row.status != Completed then Some(now) else row.lastCompletedAt;
    var dropsFavorite := status != Completed && row.isFavorite;
    var next := Row(status, dated, row.isFavorite && !dropsFavorite, if dropsFavorite then None else row.favoritedAt);
    var cleared := if dropsFavorite then ClearBanner(u, item) else u;
    var rated := TransitionedRating(cleared, item, status);
    rated.(tracking := rated.tracking[item := next])
  }

  function TransitionTracking(cat: Catalog, u: User, item: ItemId, status: Status, acknowledged: bool, now: Time): Result<Outcome, Error> {
    if !Supported(cat.typeOf(item), status) then Err(StatusUnsupported)
    else
      var effects := TransitionEffects(u, item, status);
      if effects != [] && !acknowledged then Err(EffectsRequireConfirmation(effects))
      else Ok(Outcome(WithTransition(u, item, status, now), effects, status == Completed && item !in u.ratings))
  }

  function SaveRating(u: User, item: ItemId, score: real, comment: string, spoiler: bool, now: Time): User {
    var row := if item !in u.tracking then FreshRow(Completed, now)
      else if u.tracking[item].status != Completed then u.tracking[item].(status := Completed, lastCompletedAt := Some(now))
      else u.tracking[item];
    u.(tracking := u.tracking[item := row],
       ratings := u.ratings[item := Rating(score, Strip(comment), Strip(comment) != "" && spoiler, true)])
  }

  function Favorites(cat: Catalog, u: User, contentType: ContentType): set<ItemId> {
    set i | i in u.tracking && u.tracking[i].isFavorite && cat.typeOf(i) == contentType
  }

  function SetFavorite(cat: Catalog, u: User, item: ItemId, favorite: bool, now: Time): Result<User, Error> {
    if item !in u.tracking || (favorite && u.tracking[item].status != Completed) then Err(NotCompleted)
    else if favorite && !u.tracking[item].isFavorite
        && |Favorites(cat, u, cat.typeOf(item)) - {item}| >= FAVORITE_LIMIT_PER_TYPE then Err(FavoriteLimitReached)
    else Ok(WithFavorite(u, item, favorite, now))
  }

  function WithFavorite(u: User, item: ItemId, favorite: bool, now: Time): User
    requires item in u.tracking
  {
    var row := u.tracking[item].(isFavorite := favorite, favoritedAt := if favorite then Some(now) else None);
    var cleared := if favorite then u else ClearBanner(u, item);
    cleared.(tracking := cleared.tracking[item := row])
  }

  function DeleteEffects(u: User, item: ItemId): seq<Effect>
    requires item in u.tracking
  {
    (if item in u.ratings && u.ratings[item].isActive then [Archive(u.ratings[item])] else [])
    + (if u.tracking[item].isFavorite then [FavoriteRemoved] else [])
  }

  /** The flag tells whether there was a row to delete. */
  function DeleteTracking(u: User, item: ItemId, acknowledged: bool): Result<(User, bool), Error> {
    if item !in u.tracking then Ok((u, false))
    else if DeleteEffects(u, item) != [] && !acknowledged then Err(EffectsRequireConfirmation(DeleteEffects(u, item)))
    else
      var rated := if item in u.ratings && u.ratings[item].isActive
        then u.(ratings := u.ratings[item := u.ratings[item].(isActive := false)]) else u;
      var cleared := if u.tracking[item].isFavorite then ClearBanner(rated, item) else rated;
      Ok((cleared.(tracking := cleared.tracking - {item}), true))
  }

  /** A submitted profile field: absent, or present with a value that may be null. */
  datatype Attr<T> = Absent | Given(value: Option<T>)

  function ContentChoice(u: User, content: Attr<ItemId>): Option<ItemId> {
    if content.Given? then content.value else u.banner
  }

  function ImageChoice(u: User, content: Attr<ItemId>, image: Attr<ImageId>): Option<ImageId> {
    if image.Given? then image.value else if content == Given(None) then None else u.bannerImage
  }

  predicate ActiveFavorite(u: User, item: ItemId) {
    item in u.tracking && u.tracking[item].status == Completed && u.tracking[item].isFavorite
  }

  /** validate: returns the image attribute as rewritten. */
  function ValidateBanner(cat: Catalog, u: User, content: Attr<ItemId>, image: Attr<ImageId>): Result<Attr<ImageId>, Error> {
    var contentId := ContentChoice(u, content);
    var imageId := ImageChoice(u, content, image);
    if contentId.None? then
      if imageId.Some? && content != Given(None) then Err(ChooseFavoriteFirst) else Ok(Given(None))
    else if !ActiveFavorite(u, contentId.value) then Err(NotAnActiveFavorite)
    else if imageId.Some? then
      if imageId.value in cat.imageOwner && cat.imageOwner[imageId.value] == contentId.value then Ok(image)
      else Err(NotAnImageOfThatFavorite)
    else if content.Given? then Ok(Given(None))
    else Ok(image)
  }

  function UpdateBanner(cat: Catalog, u: User, content: Attr<ItemId>, image: Attr<ImageId>): Result<User, Error> {
    match ValidateBanner(cat, u, content, image)
    case Err(e) => Err(e)
    case Ok(rewritten) =>
      Ok(u.(banner := if content.Given? then content.value else u.banner,
            bannerImage := if rewritten.Given? then rewritten.value else u.bannerImage))
  }

  // ---------------------------------------------------------------- the joint invariant

  ghost predicate RowOk(cat: Catalog, item: ItemId, row: Row) {
    && Supported(cat.typeOf(item), row.status)
    && (row.status == Completed ==> row.lastCompletedAt.Some?)
    && (row.isFavorite ==> row.status == Completed)
    && (row.isFavorite <==> row.favoritedAt.Some?)
  }

  predicate IsCompleted(u: User, item: ItemId) {
    item in u.tracking && u.tracking[item].status == Completed
  }

  ghost predicate RowsOk(cat: Catalog, u: User) {
    forall i :: i in u.tracking ==> RowOk(cat, i, u.tracking[i])
  }

  /** A stored rating is active exactly while its item is completed. */
  ghost predicate RatingsOk(u: User) {
    forall i :: i in u.ratings ==> (u.ratings[i].isActive <==> IsCompleted(u, i))
  }

  ghost predicate FavoritesOk(cat: Catalog, u: User) {
    forall t: ContentType :: |Favorites(cat, u, t)| <= FAVORITE_LIMIT_PER_TYPE
  }

  ghost predicate BannerOk(cat: Catalog, u: User) {
    && (u.banner.Some? ==> ActiveFavorite(u, u.banner.value))
    && (u.bannerImage.Some? ==>
          u.banner.Some? && u.bannerImage.value in cat.imageOwner && cat.imageOwner[u.bannerImage.value] == u.banner.value)
  }

  ghost predicate Inv(cat: Catalog, u: User) {
    RowsOk(cat, u) && RatingsOk(u) && FavoritesOk(cat, u) && BannerOk(cat, u)
  }

  /** Favourites only shrink when nothing but one item changes and it does not become a favourite. */
  lemma FavoritesShrink(cat: Catalog, u: User, v: User)
    requires FavoritesOk(cat, u)
    requires forall i :: i in v.tracking && v.tracking[i].isFavorite ==> i in u.tracking && u.tracking[i].isFavorite
    ensures FavoritesOk(cat, v)
  {
    forall t: ContentType
      ensures |Favorites(cat, v, t)| <= FAVORITE_LIMIT_PER_TYPE
    {
      SubsetSize(Favorites(cat, v, t), Favorites(cat, u, t));
    }
  }

  function CompletionDate(u: User, item: ItemId, status: Status, now: Time): Option<Time> {
    if status == Completed && !IsCompleted(u, item) then Some(now)
    else if item in u.tracking then u.tracking[item].lastCompletedAt
    else None
  }

  predicate StaysFavorite(u: User, item: ItemId, status: Status) {
    item in u.tracking && u.tracking[item].isFavorite && status == Completed
  }

  function RatingFor(r: Rating, status: Status): Rating {
    if r.isActive == (status == Completed) then r
    else if status == Completed then Reactivated(r)
    else r.(isActive := false)
  }

  /** What a transition means, without its case analysis: the row takes the status, the rating is active exactly when
      the status is completed, and favourite and banner survive only a completed status. */
  function Transitioned(u: User, item: ItemId, status: Status, now: Time): User {
    var keeps := StaysFavorite(u, item, status);
    User(u.tracking[item := Row(status, CompletionDate(u, item, status, now), keeps,
                                if keeps then u.tracking[item].favoritedAt else None)],
         if item in u.ratings then u.ratings[item := RatingFor(u.ratings[item], status)] else u.ratings,
         if u.banner == Some(item) && status != Completed then None else u.banner,
         if u.banner == Some(item) && status != Completed then None else u.bannerImage)
  }

  /** On every state the operations can reach, the branches of the code amount to that meaning. */
  lemma TransitionMeans(cat: Catalog, u: User, item: ItemId, status: Status, acknowledged: bool, now: Time)
    requires Inv(cat, u) && TransitionTracking(cat, u, item, status, acknowledged, now).Ok?
    ensures TransitionTracking(cat, u, item, status, acknowledged, now).value.user == Transitioned(u, item, status, now)
  {
    var v := TransitionTracking(cat, u, item, status, acknowledged, now).value.user;
    assert item in u.tracking ==> RowOk(cat, item, u.tracking[item]);
    if item in u.ratings {
      assert u.ratings[item].isActive <==> IsCompleted(u, item);
      assert u.ratings == u.ratings[item := u.ratings[item]];
    }
    assert v.tracking == Transitioned(u, item, status, now).tracking;
    assert v.ratings == Transitioned(u, item, status, now).ratings;
  }

  lemma TransitionKeepsInv(cat: Catalog, u: User, item: ItemId, status: Status, acknowledged: bool, now: Time)
    requires Inv(cat, u) && TransitionTracking(cat, u, item, status, acknowledged, now).Ok?
    ensures Inv(cat, TransitionTracking(cat, u, item, status, acknowledged, now).value.user)
  {
    TransitionMeans(cat, u, item, status, acknowledged, now);
    var v := Transitioned(u, item, status, now);
    assert item in u.tracking ==> RowOk(cat, item, u.tracking[item]);
    assert RowsOk(cat, v);
    assert RatingsOk(v);
    FavoritesShrink(cat, u, v);
    assert BannerOk(cat, v);
  }

  lemma SaveRatingKeepsInv(cat: Catalog, u: User, item: ItemId, score: real, comment: string, spoiler: bool, now: Time)
    requires Inv(cat, u)
    ensures Inv(cat, SaveRating(u, item, score, comment, spoiler, now))
  {
    FavoritesShrink(cat, u, SaveRating(u, item, score, comment, spoiler, now));
  }

  lemma FavoritesOfOneMore(cat: Catalog, u: User, item: ItemId, now: Time, t: ContentType)
    requires item in u.tracking
    ensures Favorites(cat, WithFavorite(u, item, true, now), t)
         == if t == cat.typeOf(item) then Favorites(cat, u, t) - {item} + {item} else Favorites(cat, u, t)
    ensures t == cat.typeOf(item) && u.tracking[item].isFavorite ==> Favorites(cat, u, t) - {item} + {item} == Favorites(cat, u, t)
  {
    var v := WithFavorite(u, item, true, now);
    assert forall i :: i in v.tracking && i != item ==> i in u.tracking && v.tracking[i] == u.tracking[i];
  }

  lemma OneMoreFavorite(cat: Catalog, u: User, item: ItemId, now: Time)
    requires FavoritesOk(cat, u) && item in u.tracking
    requires !u.tracking[item].isFavorite ==> |Favorites(cat, u, cat.typeOf(item)) - {item}| < FAVORITE_LIMIT_PER_TYPE
    ensures FavoritesOk(cat, WithFavorite(u, item, true, now))
  {
    var v := WithFavorite(u, item, true, now);
    forall t: ContentType
      ensures |Favorites(cat, v, t)| <= FAVORITE_LIMIT_PER_TYPE
    {
      assert |Favorites(cat, u, t)| <= FAVORITE_LIMIT_PER_TYPE;
      FavoritesOfOneMore(cat, u, item, now, t);
    }
  }

  lemma FavoriteKeepsRows(cat: Catalog, u: User, item: ItemId, favorite: bool, now: Time)
    requires Inv(cat, u) && item in u.tracking && (favorite ==> u.tracking[item].status == Completed)
    ensures RowsOk(cat, WithFavorite(u, item, favorite, now))
    ensures RatingsOk(WithFavorite(u, item, favorite, now))
  {
    assert RowOk(cat, item, u.tracking[item]);
    assert forall i :: IsCompleted(WithFavorite(u, item, favorite, now), i) <==> IsCompleted(u, i);
  }

  lemma SetFavoriteKeepsInv(cat: Catalog, u: User, item: ItemId, favorite: bool, now: Time)
    requires Inv(cat, u) && SetFavorite(cat, u, item, favorite, now).Ok?
    ensures Inv(cat, SetFavorite(cat, u, item, favorite, now).value)
  {
    var v := SetFavorite(cat, u, item, favorite, now).value;
    FavoriteKeepsRows(cat, u, item, favorite, now);
    if favorite {
      OneMoreFavorite(cat, u, item, now);
    } else {
      FavoritesShrink(cat, u, v);
    }
    assert BannerOk(cat, v);
  }

  lemma DeleteKeepsInv(cat: Catalog, u: User, item: ItemId, acknowledged: bool)
    requires Inv(cat, u) && DeleteTracking(u, item, acknowledged).Ok?
    ensures Inv(cat, DeleteTracking(u, item, acknowledged).value.0)
  {
    FavoritesShrink(cat, u, DeleteTracking(u, item, acknowledged).value.0);
  }

  lemma BannerKeepsInv(cat: Catalog, u: User, content: Attr<ItemId>, image: Attr<ImageId>)
    requires Inv(cat, u) && UpdateBanner(cat, u, content, image).Ok?
    ensures Inv(cat, UpdateBanner(cat, u, content, image).value)
  {
    FavoritesShrink(cat, u, UpdateBanner(cat, u, content, image).value);
  }

  /** `ensure_tracking` with a status of its own would break the invariant exactly when it creates a completed
      row: such a row has no completion date. Its one caller never passes a status. */
  lemma EnsureKeepsInvIff(cat: Catalog, u: User, item: ItemId, status: Status)
    requires Inv(cat, u) && EnsureTracking(cat, u, item, status).Ok?
    ensures Inv(cat, EnsureTracking(cat, u, item, status).value) <==> item in u.tracking || status != Completed
  {
    var v := EnsureTracking(cat, u, item, status).value;
    FavoritesShrink(cat, u, v);
    if item !in u.tracking && status == Completed {
      assert !RowOk(cat, item, v.tracking[item]);
    }
  }

  /** It does break it: a new user, any item, COMPLETED. */
  lemma EnsureCompletedBreaksInv(cat: Catalog, item: ItemId)
    ensures Inv(cat, NewUser()) && EnsureTracking(cat, NewUser(), item, Completed).Ok?
    ensures !Inv(cat, EnsureTracking(cat, NewUser(), item, Completed).value)
  {
    EveryRunKeepsInv(cat, []);
    EnsureKeepsInvIff(cat, NewUser(), item, Completed);
  }

  // ---------------------------------------------------------------- runs of operations

  datatype Op =
    | DoEnsure(item: ItemId)
    | DoTransition(item: ItemId, status: Status, acknowledged: bool, now: Time)
    | DoSaveRating(item: ItemId, score: real, comment: string, spoiler: bool, now: Time)
    | DoSetFavorite(item: ItemId, favorite: bool, now: Time)
    | DoDelete(item: ItemId, acknowledged: bool)
    | DoBanner(content: Attr<ItemId>, image: Attr<ImageId>)

  /** An operation that raises leaves the user as it was. */
  function Apply(cat: Catalog, u: User, op: Op): User {
    match op
    case DoEnsure(item) => (match EnsureTracking(cat, u, item, Backlog) case Ok(v) => v case Err(_) => u)
    case DoTransition(item, status, acknowledged, now) =>
      (match TransitionTracking(cat, u, item, status, acknowledged, now) case Ok(o) => o.user case Err(_) => u)
    case DoSaveRating(item, score, comment, spoiler, now) => SaveRating(u, item, score, comment, spoiler, now)
    case DoSetFavorite(item, favorite, now) => (match SetFavorite(cat, u, item, favorite, now) case Ok(v) => v case Err(_) => u)
    case DoDelete(item, acknowledged) => (match DeleteTracking(u, item, acknowledged) case Ok(r) => r.0 case Err(_) => u)
    case DoBanner(content, image) => (match UpdateBanner(cat, u, content, image) case Ok(v) => v case Err(_) => u)
  }

  function NewUser(): User {
    User(map[], map[], None, None)
  }

  function Run(cat: Catalog, ops: seq<Op>): User {
    if ops == [] then NewUser() else Apply(cat, Run(cat, ops[..|ops| - 1]), ops[|ops| - 1])
  }

  lemma ApplyKeepsInv(cat: Catalog, u: User, op: Op)
    requires Inv(cat, u)
    ensures Inv(cat, Apply(cat, u, op))
  {
    match op
    case DoEnsure(item) =>
      if EnsureTracking(cat, u, item, Backlog).Ok? {
        EnsureKeepsInvIff(cat, u, item, Backlog);
      }
    case DoTransition(item, status, acknowledged, now) =>
      if TransitionTracking(cat, u, item, status, acknowledged, now).Ok? {
        TransitionKeepsInv(cat, u, item, status, acknowledged, now);
      }
    case DoSaveRating(item, score, comment, spoiler, now) => SaveRatingKeepsInv(cat, u, item, score, comment, spoiler, now);
    case DoSetFavorite(item, favorite, now) =>
      if SetFavorite(cat, u, item, favorite, now).Ok? {
        SetFavoriteKeepsInv(cat, u, item, favorite, now);
      }
    case DoDelete(item, acknowledged) =>
      if DeleteTracking(u, item, acknowledged).Ok? {
        DeleteKeepsInv(cat, u, item, acknowledged);
      }
    case DoBanner(content, image) =>
      if UpdateBanner(cat, u, content, image).Ok? {
        BannerKeepsInv(cat, u, content, image);
      }
  }

  /** After any sequence of operations, in any order and with any arguments, the joint invariant holds. */
  lemma {:induction false} EveryRunKeepsInv(cat: Catalog, ops: seq<Op>)
    ensures Inv(cat, Run(cat, ops))
  {
    if ops == [] {
      forall t: ContentType
        ensures Favorites(cat, NewUser(), t) == {}
      {
      }
    } else {
      EveryRunKeepsInv(cat, ops[..|ops| - 1]);
      ApplyKeepsInv(cat, Run(cat, ops[..|ops| - 1]), ops[|ops| - 1]);
    }
  }

  // ---------------------------------------------------------------- acknowledgement

  /** Nothing the user would miss is gone: active ratings stay active, favourites stay favourites, the banner stays. */
  ghost predicate NothingLost(u: User, v: User) {
    && (forall i :: i in u.ratings && u.ratings[i].isActive ==> i in v.ratings && v.ratings[i] == u.ratings[i])
    && (forall i :: i in u.tracking && u.tracking[i].isFavorite ==>
          i in v.tracking && v.tracking[i].isFavorite && v.tracking[i].favoritedAt == u.tracking[i].favoritedAt)
    && v.banner == u.banner && v.bannerImage == u.bannerImage
  }

  /** A transition or deletion that was not acknowledged loses nothing: it raises and changes nothing, or what it
      does costs no active rating, no favourite and no banner. */
  lemma UnacknowledgedLosesNothing(cat: Catalog, ops: seq<Op>, op: Op)
    requires (op.DoTransition? || op.DoDelete?) && !op.acknowledged
    ensures NothingLost(Run(cat, ops), Apply(cat, Run(cat, ops), op))
  {
    EveryRunKeepsInv(cat, ops);
    var u := Run(cat, ops);
    if op.DoTransition? {
      TransitionReport(cat, u, op.item, op.status, false, op.now);
    }
  }

  predicate ArchivedBy(u: User, v: User, item: ItemId) {
    item in u.ratings && u.ratings[item].isActive && item in v.ratings && !v.ratings[item].isActive
  }

  predicate FavoriteRemovedBy(u: User, v: User, item: ItemId) {
    item in u.tracking && u.tracking[item].isFavorite && !(item in v.tracking && v.tracking[item].isFavorite)
  }

  /** The effects a transition reports are exactly the losses it causes, and only the item itself is touched. */
  lemma TransitionReport(cat: Catalog, u: User, item: ItemId, status: Status, acknowledged: bool, now: Time)
    requires Inv(cat, u)
    ensures TransitionTracking(cat, u, item, status, acknowledged, now).Ok? ==>
      var o := TransitionTracking(cat, u, item, status, acknowledged, now).value;
      && (RatingArchived in o.effects || ReviewArchived in o.effects <==> ArchivedBy(u, o.user, item))
      && (ReviewArchived in o.effects ==> ArchivedBy(u, o.user, item) && !Blank(u.ratings[item].comment))
      && (RatingArchived in o.effects ==> ArchivedBy(u, o.user, item) && Blank(u.ratings[item].comment))
      && (FavoriteRemoved in o.effects <==> FavoriteRemovedBy(u, o.user, item))
      && (o.effects == [] ==> NothingLost(u, o.user))
      && (o.shouldPromptRating <==> status == Completed && item !in u.ratings)
      && (forall i :: i != item ==> (i in o.user.tracking <==> i in u.tracking) && (i in o.user.ratings <==> i in u.ratings))
      && (forall i :: i != item && i in u.tracking ==> o.user.tracking[i] == u.tracking[i])
      && (forall i :: i != item && i in u.ratings ==> o.user.ratings[i] == u.ratings[i])
  {
    if TransitionTracking(cat, u, item, status, acknowledged, now).Ok? {
      TransitionMeans(cat, u, item, status, acknowledged, now);
      EffectsMean(cat, u, item, status, now);
      assert item in u.tracking ==> RowOk(cat, item, u.tracking[item]);
    }
  }

  /** The effects computed before anything is written, against what the transition means. */
  lemma EffectsMean(cat: Catalog, u: User, item: ItemId, status: Status, now: Time)
    requires Inv(cat, u)
    ensures var effects, v := TransitionEffects(u, item, status), Transitioned(u, item, status, now);
      && (RatingArchived in effects <==> ArchivedBy(u, v, item) && Blank(u.ratings[item].comment))
      && (ReviewArchived in effects <==> ArchivedBy(u, v, item) && !Blank(u.ratings[item].comment))
      && (FavoriteRemoved in effects <==> FavoriteRemovedBy(u, v, item))
  {
    assert item in u.tracking ==> RowOk(cat, item, u.tracking[item]);
    if item in u.ratings {
      assert u.ratings[item].isActive <==> IsCompleted(u, item);
      StripEmptyIffBlank(u.ratings[item].comment);
    }
  }

  /** What a deletion would report is exactly what it takes: the active rating, as a review when its comment holds more
      than white space, and the favourite. It refuses exactly when that is something and nobody acknowledged it. */
  lemma DeleteReport(cat: Catalog, u: User, item: ItemId, acknowledged: bool)
    requires Inv(cat, u) && item in u.tracking
    ensures DeleteTracking(u, item, acknowledged).Ok? ==>
      var effects, v := DeleteEffects(u, item), DeleteTracking(u, item, acknowledged).value.0;
      && v.tracking == u.tracking - {item} && v.banner != Some(item)
      && (RatingArchived in effects <==> ArchivedBy(u, v, item) && Blank(u.ratings[item].comment))
      && (ReviewArchived in effects <==> ArchivedBy(u, v, item) && !Blank(u.ratings[item].comment))
      && (FavoriteRemoved in effects <==> FavoriteRemovedBy(u, v, item))
    ensures DeleteTracking(u, item, acknowledged).Err? <==> DeleteEffects(u, item) != [] && !acknowledged
  {
    if item in u.ratings {
      StripEmptyIffBlank(u.ratings[item].comment);
    }
  }

  /** Without the joint invariant the guarantee is false: an active rating of an item that is not completed would be
      archived by an unacknowledged transition that reports no effect. */
  lemma GuaranteeNeedsInvariant(cat: Catalog, now: Time) returns (u: User, v: User)
    ensures TransitionTracking(cat, u, 1, InProgress, false, now) == Ok(Outcome(v, [], false))
    ensures !Inv(cat, u) && ArchivedBy(u, v, 1)
  {
    u := User(map[1 := Row(Backlog, None, false, None)], map[1 := Rating(8.0, "", false, true)], None, None);
    v := TransitionTracking(cat, u, 1, InProgress, false, now).value.user;
    assert !IsCompleted(u, 1) && u.ratings[1].isActive;
  }
}
