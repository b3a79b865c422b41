/** The tracking operations as they update the stored rows in place, each followed by the synchronisation of the
    system lists where the service calls it. */
module ProgressStore {
  import opened Prelude
  import opened Text
  import opened DynamicCollections
  import Service = TrackingService

  function ProgressOf(cat: Service.Catalog, tracking: map<ItemId, Service.Row>): Tracking {
    map i | i in tracking :: Progress(tracking[i].status, cat.typeOf(i))
  }

  class ProgressTable {
    const cat: Service.Catalog
    const lists: SystemLists
    var tracking: map<ItemId, Service.Row>
    var ratings: map<ItemId, Service.Rating>
    var banner: Option<ItemId>
    var bannerImage: Option<Service.ImageId>

    ghost function Contents(): Service.User
      reads this
    {
      Service.User(tracking, ratings, banner, bannerImage)
    }

    /** Every system list holds exactly the tracked items its filter selects. */
    ghost predicate Mirrored()
      reads this, lists
    {
      forall k: Key :: k in lists.lists && lists.lists[k].Keys == Expected(k, ProgressOf(cat, tracking))
    }

    /** The joint invariant, and lists that mirror the rows once the first synchronisation has created them. */
    ghost predicate Valid()
      reads this, lists
    {
      && Service.Inv(cat, Contents())
      && lists.Valid()
      && (tracking == map[] || Mirrored())
    }

    constructor (cat: Service.Catalog)
      ensures Valid() && Contents() == Service.NewUser() && this.cat == cat && fresh(lists)
    {
      this.cat := cat;
      this.lists := new SystemLists();
      this.tracking, this.ratings, this.banner, this.bannerImage := map[], map[], None, None;
      new;
      Service.EveryRunKeepsInv(cat, []);
    }

    method Sync()
      requires lists.Valid()
      modifies lists
      ensures lists.Valid() && Mirrored()
    {
      ghost var before, id := lists.lists, lists.nextId;
      lists.SyncDynamicCollections(ProgressOf(cat, tracking));
      forall k: Key
        ensures k in lists.lists && lists.lists[k].Keys == Expected(k, ProgressOf(cat, tracking))
      {
        assert SyncedList(Current(before, k), Expected(k, ProgressOf(cat, tracking)), lists.lists[k], id);
      }
    }

    method EnsureTracking(item: ItemId, status: Status) returns (error: Option<Service.Error>)
      requires Valid()
      modifies this, lists
      ensures match Service.EnsureTracking(cat, old(Contents()), item, status)
        case Err(e) => error == Some(e) && Contents() == old(Contents())
        case Ok(u) => error == None && Contents() == u && Mirrored()
      ensures Valid() <==> (error == None ==> item in old(tracking) || status != Completed)
    {
      if !Service.Supported(cat.typeOf(item), status) {
        return Some(Service.StatusUnsupported);
      }
      Service.EnsureKeepsInvIff(cat, Contents(), item, status);
      if item !in tracking {
        tracking := tracking[item := Service.Row(status, None, false, None)];
      }
      Sync();
      return None;
    }

    method TransitionTracking(item: ItemId, status: Status, acknowledged: bool, now: Service.Time)
        returns (result: Result<(seq<Service.Effect>, bool), Service.Error>)
      requires Valid()
      modifies this, lists
      ensures Valid()
      ensures match Service.TransitionTracking(cat, old(Contents()), item, status, acknowledged, now)
        case Err(e) => result == Err(e) && Contents() == old(Contents()) && lists.lists == old(lists.lists)
        case Ok(o) => result == Ok((o.effects, o.shouldPromptRating)) && Contents() == o.user && Mirrored()
    {
      if !Service.Supported(cat.typeOf(item), status) {
        return Err(Service.StatusUnsupported);
      }
      var effects := LeavingEffects(item, status);
      if effects != [] && !acknowledged {
        return Err(Service.EffectsRequireConfirmation(effects));
      }
      Service.TransitionKeepsInv(cat, Contents(), item, status, acknowledged, now);
      var prompt := WriteTransition(item, status, now);
      Sync();
      return Ok((effects, prompt));
    }

    /** What moving a completed item away from that status would take from the user. */
    method LeavingEffects(item: ItemId, status: Status) returns (effects: seq<Service.Effect>)
      ensures effects == Service.TransitionEffects(Contents(), item, status)
    {
      effects := [];
      if item in tracking && tracking[item].status == Completed && status != Completed {
        if item in ratings && ratings[item].isActive {
          effects := effects + [Service.Archive(ratings[item])];
        }
        if tracking[item].isFavorite {
          effects := effects + [Service.FavoriteRemoved];
        }
        assert effects == Service.TransitionEffects(Contents(), item, status);
      }
    }

    method WriteTransition(item: ItemId, status: Status, now: Service.Time) returns (prompt: bool)
      modifies this
      ensures Contents() == Service.WithTransition(old(Contents()), item, status, now)
      ensures prompt <==> status == Completed && item !in old(ratings)
    {
      var created := item !in tracking;
      var row := if created then Service.FreshRow(status, now) else tracking[item];
      var previous := row.status;
      row := row.(status := status);
      prompt := false;
      if status == Completed {
        if !created && previous != Completed {
          row := row.(lastCompletedAt := Some(now));
        }
        if item !in ratings {
          prompt := true;
        } else if !ratings[item].isActive {
          ratings := ratings[item := Service.Reactivated(ratings[item])];
        }
      } else if item in ratings && ratings[item].isActive {
        ratings := ratings[item := ratings[item].(isActive := false)];
        if row.isFavorite {
          ClearBannerSelection(item);
          row := row.(isFavorite := false, favoritedAt := None);
        }
      } else if row.isFavorite {
        ClearBannerSelection(item);
        row := row.(isFavorite := false, favoritedAt := None);
      }
      tracking := tracking[item := row];
    }

    method SaveRating(item: ItemId, score: real, comment: string, spoiler: bool, now: Service.Time)
      requires Valid()
      modifies this, lists
      ensures Valid() && Mirrored()
      ensures Contents() == Service.SaveRating(old(Contents()), item, score, comment, spoiler, now)
    {
      Service.SaveRatingKeepsInv(cat, Contents(), item, score, comment, spoiler, now);
      if item !in tracking {
        tracking := tracking[item := Service.FreshRow(Completed, now)];
      } else if tracking[item].status != Completed {
        tracking := tracking[item := tracking[item].(status := Completed, lastCompletedAt := Some(now))];
      } else {
        assert tracking == tracking[item := tracking[item]];
      }
      var normalized := Strip(comment);
      ratings := ratings[item := Service.Rating(score, normalized, normalized != "" && spoiler, true)];
      Sync();
    }

    method SetFavorite(item: ItemId, favorite: bool, now: Service.Time) returns (error: Option<Service.Error>)
      requires Valid()
      modifies this
      ensures Valid()
      ensures match Service.SetFavorite(cat, old(Contents()), item, favorite, now)
        case Err(e) => error == Some(e) && Contents() == old(Contents())
        case Ok(u) => error == None && Contents() == u
    {
      if item !in tracking || (favorite && tracking[item].status != Completed) {
        return Some(Service.NotCompleted);
      }
      if favorite && !tracking[item].isFavorite {
        var others := Service.Favorites(cat, Service.User(tracking, ratings, banner, bannerImage), cat.typeOf(item)) - {item};
        if |others| >= Service.FAVORITE_LIMIT_PER_TYPE {
          return Some(Service.FavoriteLimitReached);
        }
      }
      Service.SetFavoriteKeepsInv(cat, Contents(), item, favorite, now);
      MarkFavorite(item, favorite, now);
      return None;
    }

    method MarkFavorite(item: ItemId, favorite: bool, now: Service.Time)
      requires item in tracking
      modifies this
      ensures Contents() == Service.WithFavorite(old(Contents()), item, favorite, now)
      ensures ProgressOf(cat, tracking) == ProgressOf(cat, old(tracking))
    {
      var row := tracking[item].(isFavorite := favorite, favoritedAt := if favorite then Some(now) else None);
      if !favorite {
        ClearBannerSelection(item);
      }
      tracking := tracking[item := row];
    }

    method DeleteTracking(item: ItemId, acknowledged: bool) returns (result: Result<bool, Service.Error>)
      requires Valid()
      modifies this, lists
      ensures Valid()
      ensures match Service.DeleteTracking(old(Contents()), item, acknowledged)
        case Err(e) => result == Err(e) && Contents() == old(Contents()) && lists.lists == old(lists.lists)
        case Ok(r) => result == Ok(r.1) && Contents() == r.0
    {
      if item !in tracking {
        return Ok(false);
      }
      var row := tracking[item];
      var rated := item in ratings && ratings[item].isActive;
      var effects: seq<Service.Effect> := [];
      if rated {
        effects := effects + [Service.Archive(ratings[item])];
      }
      if row.isFavorite {
        effects := effects + [Service.FavoriteRemoved];
      }
      assert effects == Service.DeleteEffects(Contents(), item);
      if effects != [] && !acknowledged {
        return Err(Service.EffectsRequireConfirmation(effects));
      }
      Service.DeleteKeepsInv(cat, Contents(), item, acknowledged);
      if rated {
        ratings := ratings[item := ratings[item].(isActive := false)];
      }
      tracking := tracking - {item};
      if row.isFavorite {
        ClearBannerSelection(item);
      }
      Sync();
      return Ok(true);
    }

    /** validate followed by the save of the profile form. */
    method UpdateBanner(content: Service.Attr<ItemId>, image: Service.Attr<Service.ImageId>) returns (error: Option<Service.Error>)
      requires Valid()
      modifies this
      ensures Valid()
      ensures match Service.UpdateBanner(cat, old(Contents()), content, image)
        case Err(e) => error == Some(e) && Contents() == old(Contents())
        case Ok(u) => error == None && Contents() == u
    {
      var user := Service.User(tracking, ratings, banner, bannerImage);
      var contentWasCleared := content == Service.Given(None);
      var contentId := if content.Given? then content.value else banner;
      var imageId := if image.Given? then image.value else if contentWasCleared then None else bannerImage;
      var rewritten := image;
      if contentId.None? {
        if imageId.Some? && !contentWasCleared {
          return Some(Service.ChooseFavoriteFirst);
        }
        rewritten := Service.Given(None);
      } else {
        if !Service.ActiveFavorite(user, contentId.value) {
          return Some(Service.NotAnActiveFavorite);
        }
        if imageId.Some? {
          if imageId.value !in cat.imageOwner || cat.imageOwner[imageId.value] != contentId.value {
            return Some(Service.NotAnImageOfThatFavorite);
          }
        } else if content.Given? {
          rewritten := Service.Given(None);
        }
      }
      Service.BannerKeepsInv(cat, user, content, image);
      if content.Given? {
        banner := content.value;
      }
      if rewritten.Given? {
        bannerImage := rewritten.value;
      }
      return None;
    }

    method ClearBannerSelection(item: ItemId)
      modifies this`banner, this`bannerImage
      ensures Contents() == Service.ClearBanner(old(Contents()), item)
    {
      if banner == Some(item) {
        banner, bannerImage := None, None;
      }
    }
  }
}
