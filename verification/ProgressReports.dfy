/** What each personal-progress operation does to the stored rows, column by column. */
module ProgressReports {
  import opened Prelude
  import opened Text
  import opened DynamicCollections
  import opened TrackingService

  /** No row and no rating of another item changes. */
  ghost predicate OthersStay(u: User, v: User, item: ItemId) {
    && (forall i :: i != item ==> (i in v.tracking <==> i in u.tracking) && (i in v.ratings <==> i in u.ratings))
    && (forall i :: i != item && i in u.tracking ==> v.tracking[i] == u.tracking[i])
    && (forall i :: i != item && i in u.ratings ==> v.ratings[i] == u.ratings[i])
  }

  /** Which status a type of content can have. */
  predicate Allowed(contentType: ContentType, status: Status) {
    !(contentType == Movie && status == OnHold) && !(contentType == Album && (status == OnHold || status == Dropped))
  }

  /** Creating a row: refused exactly for a status the type cannot have; an existing row stays, a new one has the status
      and nothing else. */
  lemma EnsureReport(cat: Catalog, u: User, item: ItemId, status: Status)
    ensures EnsureTracking(cat, u, item, status) ==
      if !Allowed(cat.typeOf(item), status) then Err(StatusUnsupported)
      else Ok(if item in u.tracking then u else u.(tracking := u.tracking[item := Row(status, None, false, None)]))
  {
  }

  /** What leaving the completed status, or deleting the row, costs: the rating, as a review when its comment holds more than
      white space, and then the favourite. */
  function Costs(u: User, item: ItemId): seq<Effect> {
    if !(item in u.tracking && u.tracking[item].status == Completed) then []
    else (if item !in u.ratings then [] else if Blank(u.ratings[item].comment) then [RatingArchived] else [ReviewArchived])
         + (if u.tracking[item].isFavorite then [FavoriteRemoved] else [])
  }

  /** A transition is refused exactly for a status the type cannot have, or when it would archive an active rating or
      remove a favourite and nobody acknowledged that. */
  lemma TransitionRefusal(cat: Catalog, u: User, item: ItemId, status: Status, acknowledged: bool, now: Time)
    requires Inv(cat, u)
    ensures var costs := if status == Completed then [] else Costs(u, item);
      match TransitionTracking(cat, u, item, status, acknowledged, now)
      case Err(e) => e == if !Allowed(cat.typeOf(item), status) then StatusUnsupported else EffectsRequireConfirmation(costs)
      case Ok(o) => o.effects == costs
    ensures TransitionTracking(cat, u, item, status, acknowledged, now).Ok? <==>
      Allowed(cat.typeOf(item), status) && (acknowledged || status == Completed || Costs(u, item) == [])
  {
    if item in u.ratings {
      assert u.ratings[item].isActive <==> IsCompleted(u, item);
      StripEmptyIffBlank(u.ratings[item].comment);
    }
  }

  /** A deletion is refused exactly when it costs something and nobody acknowledged it, and says what. */
  lemma DeleteRefusal(cat: Catalog, u: User, item: ItemId, acknowledged: bool)
    requires Inv(cat, u)
    ensures DeleteTracking(u, item, acknowledged).Ok? <==> acknowledged || Costs(u, item) == []
    ensures DeleteTracking(u, item, acknowledged).Err? ==> DeleteTracking(u, item, acknowledged).error == EffectsRequireConfirmation(Costs(u, item))
  {
    assert item in u.tracking ==> RowOk(cat, item, u.tracking[item]);
    if item in u.ratings {
      assert u.ratings[item].isActive <==> IsCompleted(u, item);
      StripEmptyIffBlank(u.ratings[item].comment);
    }
  }

  /** A transition: the row has the status; completing it dates it; leaving it takes the favourite; the rating keeps its
      score and comment, is active exactly when the status is completed, and a spoiler mark without a comment goes when
      it is reactivated; the banner goes with its item. */
  lemma TransitionColumns(cat: Catalog, u: User, item: ItemId, status: Status, acknowledged: bool, now: Time)
    requires Inv(cat, u) && TransitionTracking(cat, u, item, status, acknowledged, now).Ok?
    ensures var v := TransitionTracking(cat, u, item, status, acknowledged, now).value.user;
      && item in v.tracking && OthersStay(u, v, item) && (item in v.ratings <==> item in u.ratings)
      && v.tracking[item].status == status
      && v.tracking[item].lastCompletedAt == (if status == Completed && !(item in u.tracking && u.tracking[item].status == Completed) then Some(now)
                                              else if item in u.tracking then u.tracking[item].lastCompletedAt else None)
      && (v.tracking[item].isFavorite <==> status == Completed && item in u.tracking && u.tracking[item].isFavorite)
      && (v.tracking[item].isFavorite ==> v.tracking[item].favoritedAt == u.tracking[item].favoritedAt)
      && (item in u.ratings ==>
            && v.ratings[item].score == u.ratings[item].score && v.ratings[item].comment == u.ratings[item].comment
            && (v.ratings[item].isActive <==> status == Completed)
            && v.ratings[item].spoiler == (u.ratings[item].spoiler && (status != Completed || u.ratings[item].isActive || !Blank(u.ratings[item].comment))))
      && (if u.banner == Some(item) && status != Completed then v.banner == None && v.bannerImage == None
          else v.banner == u.banner && v.bannerImage == u.bannerImage)
  {
    TransitionMeans(cat, u, item, status, acknowledged, now);
    assert item in u.tracking ==> RowOk(cat, item, u.tracking[item]);
    if item in u.ratings {
      assert u.ratings[item].isActive <==> IsCompleted(u, item);
      StripEmptyIffBlank(u.ratings[item].comment);
    }
  }

  /** A saved rating is active with the submitted score, its comment is the submitted one without outer white space, and
      it is a spoiler exactly when asked for with a comment. The item is completed, now unless it was already, and keeps
      its favourite. */
  lemma SaveRatingReport(u: User, item: ItemId, score: real, comment: string, spoiler: bool, now: Time) returns (before: string, after: string)
    ensures var v := SaveRating(u, item, score, comment, spoiler, now);
      && item in v.ratings && item in v.tracking && OthersStay(u, v, item)
      && v.ratings[item].score == score && v.ratings[item].isActive
      && comment == before + v.ratings[item].comment + after && Blank(before) && Blank(after)
      && (v.ratings[item].comment != "" ==>
            !IsSpace(v.ratings[item].comment[0]) && !IsSpace(v.ratings[item].comment[|v.ratings[item].comment| - 1]))
      && (v.ratings[item].spoiler <==> spoiler && !Blank(comment))
      && v.tracking[item].status == Completed
      && v.tracking[item].lastCompletedAt == (if IsCompleted(u, item) then u.tracking[item].lastCompletedAt else Some(now))
      && (if item in u.tracking
          then v.tracking[item].isFavorite == u.tracking[item].isFavorite && v.tracking[item].favoritedAt == u.tracking[item].favoritedAt
          else !v.tracking[item].isFavorite && v.tracking[item].favoritedAt == None)
      && v.banner == u.banner && v.bannerImage == u.bannerImage
  {
    StripEmptyIffBlank(comment);
    before, after := StripMeans(comment);
  }

  /** Marking a favourite is refused exactly when the item is not completed, or when five others of its type are
      favourites and it is not one; otherwise the row is marked for now. Unmarking needs only a row, and takes the banner
      that shows the item. */
  lemma SetFavoriteReport(cat: Catalog, u: User, item: ItemId, favorite: bool, now: Time)
    ensures var others := set i | i in u.tracking && u.tracking[i].isFavorite && cat.typeOf(i) == cat.typeOf(item) && i != item;
      var result := SetFavorite(cat, u, item, favorite, now);
      var unfit := item !in u.tracking || (favorite && u.tracking[item].status != Completed);
      && (result == Err(NotCompleted) <==> unfit)
      && (result == Err(FavoriteLimitReached) <==> !unfit && favorite && !u.tracking[item].isFavorite && |others| >= 5)
      && (result.Ok? <==> !unfit && !(favorite && !u.tracking[item].isFavorite && |others| >= 5))
    ensures SetFavorite(cat, u, item, favorite, now).Ok? ==>
      var v := SetFavorite(cat, u, item, favorite, now).value;
      && item in v.tracking && OthersStay(u, v, item) && v.ratings == u.ratings
      && v.tracking[item].status == u.tracking[item].status && v.tracking[item].lastCompletedAt == u.tracking[item].lastCompletedAt
      && v.tracking[item].isFavorite == favorite && v.tracking[item].favoritedAt == (if favorite then Some(now) else None)
      && (if u.banner == Some(item) && !favorite then v.banner == None && v.bannerImage == None
          else v.banner == u.banner && v.bannerImage == u.bannerImage)
  {
    var others := set i | i in u.tracking && u.tracking[i].isFavorite && cat.typeOf(i) == cat.typeOf(item) && i != item;
    assert Favorites(cat, u, cat.typeOf(item)) - {item} == others;
  }

  /** A deletion takes the row, archives the rating with its score and comment, and takes the banner of a favourite. */
  lemma DeleteColumns(cat: Catalog, u: User, item: ItemId, acknowledged: bool)
    requires Inv(cat, u) && DeleteTracking(u, item, acknowledged).Ok?
    ensures var (v, deleted) := DeleteTracking(u, item, acknowledged).value;
      && item !in v.tracking && (deleted <==> item in u.tracking) && OthersStay(u, v, item)
      && (item in v.ratings <==> item in u.ratings)
      && (item in u.ratings ==> v.ratings[item] == u.ratings[item].(isActive := false))
      && (if u.banner == Some(item) then v.banner == None && v.bannerImage == None
          else v.banner == u.banner && v.bannerImage == u.bannerImage)
  {
    assert item in u.ratings ==> (u.ratings[item].isActive <==> IsCompleted(u, item));
  }

  /** A banner edit shows the submitted item, or the one shown before, and the submitted image, or the one shown before
      unless the item was cleared. It is refused exactly when there is an image without an item that was not cleared, when
      the item is not a completed favourite, or when the image is not one of that item; without an item there is no image. */
  lemma BannerReport(cat: Catalog, u: User, content: Attr<ItemId>, image: Attr<ImageId>)
    ensures var item := if content == Absent then u.banner else content.value;
      var picture := if image != Absent then image.value else if content == Given(None) then None else u.bannerImage;
      UpdateBanner(cat, u, content, image) ==
        match item
        case None => if picture.Some? && content != Given(None) then Err(ChooseFavoriteFirst) else Ok(u.(banner := None, bannerImage := None))
        case Some(i) =>
          if !(i in u.tracking && u.tracking[i].status == Completed && u.tracking[i].isFavorite) then Err(NotAnActiveFavorite)
          else if picture.Some? && !(picture.value in cat.imageOwner && cat.imageOwner[picture.value] == i) then Err(NotAnImageOfThatFavorite)
          else Ok(u.(banner := Some(i), bannerImage := picture))
  {
  }
}
