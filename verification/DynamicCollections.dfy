/** The ten system lists that mirror a user's tracking rows, and their incremental synchronisation. */
module DynamicCollections {
  import opened Prelude

  type ItemId = nat

  datatype Status = Backlog | InProgress | Completed | OnHold | Dropped

  datatype ContentType = Movie | TvShow | Season | Game | Album | Book

  datatype Progress = Progress(status: Status, contentType: ContentType)

  type Tracking = map<ItemId, Progress>

  datatype Key =
    | BacklogList | InProgressList | OnHoldList | DroppedList | CompletedList
    | MovieList | SeriesList | GameList | AlbumList | BookList

  /** The order of the definition table. */
  const KEYS: seq<Key> := [BacklogList, InProgressList, OnHoldList, DroppedList, CompletedList,
                           MovieList, SeriesList, GameList, AlbumList, BookList]

  datatype Definition = Definition(status: Option<Status>, contentTypes: set<ContentType>)

  function GetDefinition(key: Key): Definition {
    match key
    case BacklogList => Definition(Some(Backlog), {})
    case InProgressList => Definition(Some(InProgress), {})
    case OnHoldList => Definition(Some(OnHold), {})
    case DroppedList => Definition(Some(Dropped), {})
    case CompletedList => Definition(Some(Completed), {})
    case MovieList => Definition(None, {Movie})
    case SeriesList => Definition(None, {TvShow, Season})
    case GameList => Definition(None, {Game})
    case AlbumList => Definition(None, {Album})
    case BookList => Definition(None, {Book})
  }

  predicate Selects(key: Key, p: Progress) {
    var d := GetDefinition(key);
    && (d.status.Some? ==> d.status.value == p.status)
    && (d.contentTypes != {} ==> p.contentType in d.contentTypes)
  }

  lemma KeysAreComplete()
    ensures forall k: Key :: k in KEYS
    ensures forall i, j :: 0 <= i < j < |KEYS| ==> KEYS[i] != KEYS[j]
  {
    forall k: Key
      ensures k in KEYS
    {
      match k
      case BacklogList => assert KEYS[0] == k;
      case InProgressList => assert KEYS[1] == k;
      case OnHoldList => assert KEYS[2] == k;
      case DroppedList => assert KEYS[3] == k;
      case CompletedList => assert KEYS[4] == k;
      case MovieList => assert KEYS[5] == k;
      case SeriesList => assert KEYS[6] == k;
      case GameList => assert KEYS[7] == k;
      case AlbumList => assert KEYS[8] == k;
      case BookList => assert KEYS[9] == k;
    }
  }

  /** The items a list must show: the filter that `collection_queryset` applies for display. */
  function Expected(key: Key, tracking: Tracking): set<ItemId> {
    set i | i in tracking && Selects(key, tracking[i])
  }

  function ExpectedWithout(key: Key, tracking: Tracking, rest: set<ItemId>): set<ItemId> {
    set i | i in tracking && i !in rest && Selects(key, tracking[i])
  }

  /** A stored list item: its primary key and its position. */
  datatype Entry = Entry(id: nat, order: int)

  type Members = map<ItemId, Entry>

  type Lists = map<Key, Members>

  function Current(lists: Lists, key: Key): Members {
    if key in lists then lists[key] else map[]
  }

  function Orders(members: Members): set<int> {
    set i | i in members :: members[i].order
  }

  /** Positions are positive and distinct within a list; primary keys are unique across lists. */
  ghost predicate ValidLists(lists: Lists, nextId: nat) {
    && (forall k, i :: k in lists && i in lists[k] ==> lists[k][i].order >= 1 && lists[k][i].id < nextId)
    && (forall k, i, j :: k in lists && i in lists[k] && j in lists[k] && i != j ==> lists[k][i].order != lists[k][j].order)
    && (forall k, l, i, j :: k in lists && l in lists && i in lists[k] && j in lists[l] && lists[k][i].id == lists[l][j].id
          ==> k == l && i == j)
  }

  function Missing(current: Members, target: set<ItemId>): set<ItemId> {
    target - current.Keys
  }

  function Below(s: set<ItemId>, i: ItemId): set<ItemId> {
    set x | x in s && x < i
  }

  /** New items are appended in the order of their content ids. */
  function OrderFor(current: Members, target: set<ItemId>, i: ItemId): int {
    Greatest(Orders(current)) + 1 + |Below(Missing(current, target), i)|
  }

  ghost predicate SyncedList(current: Members, target: set<ItemId>, after: Members, nextId: nat) {
    && after.Keys == target
    && (forall i :: i in target && i in current ==> after[i] == current[i])
    && (forall i :: i in target && i !in current ==> after[i].order == OrderFor(current, target, i) && after[i].id >= nextId)
  }

  /** What a synchronisation achieves: every list holds exactly what its filter selects, survivors keep
      their row and position, and new items are appended. */
  ghost predicate Synced(before: Lists, nextId: nat, after: Lists, tracking: Tracking) {
    forall k: Key :: k in after && SyncedList(Current(before, k), Expected(k, tracking), after[k], nextId)
  }

  // ---------------------------------------------------------------- the synchronisation loop

  datatype NewItem = NewItem(key: Key, item: ItemId, order: int)

  ghost predicate Ascending(q: seq<ItemId>) {
    forall i, j :: 0 <= i < j < |q| ==> q[i] < q[j]
  }

  method SortedIds(s: set<ItemId>) returns (q: seq<ItemId>)
    ensures Ascending(q) && (forall x :: x in q <==> x in s)
  {
    q := [];
    var rest := s;
    while rest != {}
      invariant rest <= s && Ascending(q)
      invariant forall x :: x in s <==> x in q || x in rest
      invariant forall x, y :: x in q && y in rest ==> x < y
      decreases |rest|
    {
      var least :| least in rest;
      var others := rest - {least};
      while others != {}
        invariant least in rest && others <= rest
        invariant forall y :: y in rest && y !in others ==> least <= y
        decreases |others|
      {
        var y :| y in others;
        others := others - {y};
        if y < least {
          least := y;
        }
      }
      assert forall i :: 0 <= i < |q| ==> q[i] in q;
      rest := rest - {least};
      q := q + [least];
    }
  }

  /** The place of an element in the ascending arrangement is the number of smaller elements. */
  lemma {:induction false} RankIsIndex(q: seq<ItemId>, s: set<ItemId>, k: nat)
    requires Ascending(q) && (forall x :: x in q <==> x in s) && k < |q|
    ensures |Below(s, q[k])| == k
  {
    if k == 0 {
      assert Below(s, q[0]) == {};
    } else {
      RankIsIndex(q, s, k - 1);
      assert Below(s, q[k]) == Below(s, q[k - 1]) + {q[k - 1]};
    }
  }

  ghost predicate Planned(plan: seq<NewItem>, lists: Lists, tracking: Tracking, j: nat)
    requires j < |plan|
  {
    var n := plan[j];
    && n.item in Missing(Current(lists, n.key), Expected(n.key, tracking))
    && n.order == OrderFor(Current(lists, n.key), Expected(n.key, tracking), n.item)
  }

  ghost predicate Occurs(plan: seq<NewItem>, key: Key, i: ItemId) {
    exists j :: 0 <= j < |plan| && plan[j].key == key && plan[j].item == i
  }

  ghost predicate DistinctItems(plan: seq<NewItem>) {
    forall j, k :: 0 <= j < k < |plan| ==> plan[j].key != plan[k].key || plan[j].item != plan[k].item
  }

  /** The plan lists every missing item of every list once, with the position it is to get. */
  ghost predicate IsPlan(plan: seq<NewItem>, lists: Lists, tracking: Tracking, done: set<Key>) {
    && (forall j :: 0 <= j < |plan| ==> plan[j].key in done && Planned(plan, lists, tracking, j))
    && DistinctItems(plan)
    && (forall k, i :: k in done && i in Missing(Current(lists, k), Expected(k, tracking)) ==> Occurs(plan, k, i))
  }

  function StaleIds(members: Members, target: set<ItemId>): set<nat> {
    set i | i in members && i !in target :: members[i].id
  }

  function Survivors(members: Members, target: set<ItemId>): Members {
    map i | i in members && i in target :: members[i]
  }

  class SystemLists {
    var lists: Lists
    var nextId: nat

    ghost predicate Valid()
      reads this
    {
      ValidLists(lists, nextId)
    }

    constructor ()
      ensures Valid() && lists == map[] && nextId == 0
    {
      lists, nextId := map[], 0;
    }

    method EnsureDynamicCollections()
      modifies this`lists
      ensures forall k: Key :: k in lists && lists[k] == Current(old(lists), k)
    {
      var i := 0;
      KeysAreComplete();
      while i < |KEYS|
        invariant 0 <= i <= |KEYS|
        invariant forall k :: k in old(lists) ==> k in lists
        invariant forall k :: k in KEYS[..i] ==> k in lists
        invariant forall k :: k in lists ==> lists[k] == Current(old(lists), k)
      {
        if KEYS[i] !in lists {
          lists := lists[KEYS[i] := map[]];
        }
        i := i + 1;
      }
      assert KEYS[..i] == KEYS;
    }

    /** expected_ids: which items each filter selects, found row by row and definition by definition. */
    method ExpectedIds(tracking: Tracking) returns (expected: map<Key, set<ItemId>>)
      ensures forall k: Key :: k in expected && expected[k] == Expected(k, tracking)
    {
      KeysAreComplete();
      expected := map k | k in KEYS :: {};
      var rest := tracking.Keys;
      while rest != {}
        invariant rest <= tracking.Keys
        invariant forall k: Key :: k in expected && expected[k] == ExpectedWithout(k, tracking, rest)
        decreases |rest|
      {
        var x :| x in rest;
        expected := AddRow(expected, x, tracking[x]);
        forall k: Key
          ensures ExpectedWithout(k, tracking, rest - {x})
               == ExpectedWithout(k, tracking, rest) + if Selects(k, tracking[x]) then {x} else {}
        {
        }
        rest := rest - {x};
      }
    }

    /** The inner loop: adds one tracked item to every definition that selects it. */
    method AddRow(before: map<Key, set<ItemId>>, x: ItemId, p: Progress) returns (expected: map<Key, set<ItemId>>)
      requires forall k: Key :: k in before
      ensures forall k: Key :: k in expected && expected[k] == before[k] + if Selects(k, p) then {x} else {}
    {
      KeysAreComplete();
      expected := before;
      for d := 0 to |KEYS|
        invariant forall k: Key :: k in expected
        invariant forall i :: 0 <= i < d ==> expected[KEYS[i]] == before[KEYS[i]] + if Selects(KEYS[i], p) then {x} else {}
        invariant forall i :: d <= i < |KEYS| ==> expected[KEYS[i]] == before[KEYS[i]]
      {
        if Selects(KEYS[d], p) {
          expected := expected[KEYS[d] := expected[KEYS[d]] + {x}];
        }
      }
      forall k: Key
        ensures expected[k] == before[k] + if Selects(k, p) then {x} else {}
      {
        assert k in KEYS;
        var i :| 0 <= i < |KEYS| && KEYS[i] == k;
      }
    }

    method PlanList(key: Key, target: set<ItemId>) returns (plan: seq<NewItem>)
      requires key in lists
      ensures forall j :: 0 <= j < |plan| ==>
        && plan[j].key == key && plan[j].item in Missing(lists[key], target)
        && plan[j].order == OrderFor(lists[key], target, plan[j].item)
      ensures DistinctItems(plan)
      ensures forall i :: i in Missing(lists[key], target) ==> Occurs(plan, key, i)
    {
      var missing := target - lists[key].Keys;
      var ids := SortedIds(missing);
      var nextOrder := Greatest(Orders(lists[key])) + 1;
      plan := [];
      for index := 0 to |ids|
        invariant |plan| == index
        invariant forall j :: 0 <= j < index ==> plan[j] == NewItem(key, ids[j], nextOrder + j)
      {
        plan := plan + [NewItem(key, ids[index], nextOrder + index)];
      }
      forall j | 0 <= j < |plan|
        ensures plan[j].item in missing && plan[j].order == OrderFor(lists[key], target, plan[j].item)
      {
        RankIsIndex(ids, missing, j);
      }
      forall i | i in missing
        ensures Occurs(plan, key, i)
      {
        var j :| 0 <= j < |ids| && ids[j] == i;
        assert plan[j].item == i;
      }
    }

    /** One list joins the plan: its stale rows are noted and its missing items appended. */
    method PlanAll(expected: map<Key, set<ItemId>>, tracking: Tracking) returns (stale: set<nat>, plan: seq<NewItem>)
      requires forall k: Key :: k in lists && k in expected && expected[k] == Expected(k, tracking)
      ensures forall x :: x in stale <==> exists k, i :: StaleEntry(lists, tracking, k, i) && lists[k][i].id == x
      ensures IsPlan(plan, lists, tracking, set k | k in KEYS)
    {
      stale, plan := {}, [];
      ghost var done: set<Key> := {};
      for d := 0 to |KEYS|
        invariant done == set i | 0 <= i < d :: KEYS[i]
        invariant forall x :: x in stale <==> exists k, i :: k in done && StaleEntry(lists, tracking, k, i) && lists[k][i].id == x
        invariant IsPlan(plan, lists, tracking, done)
      {
        var key := KEYS[d];
        KeysAreComplete();
        ghost var staleBefore := stale;
        stale := stale + StaleIds(lists[key], expected[key]);
        var more := PlanList(key, expected[key]);
        PlanGrows(plan, more, lists, tracking, done, key);
        StaleGrows(lists, tracking, done, key, staleBefore);
        plan := plan + more;
        done := done + {key};
      }
      assert done == set k | k in KEYS;
      KeysAreComplete();
    }

    /** bulk_create of the planned items, in order, after the stale rows are gone. */
    method CreateAll(plan: seq<NewItem>)
      requires forall k: Key :: k in lists
      modifies this
      ensures nextId == old(nextId) + |plan|
      ensures lists == Created(old(lists), plan, |plan|, old(nextId))
    {
      for j := 0 to |plan|
        invariant nextId == old(nextId) + j
        invariant lists == Created(old(lists), plan, j, old(nextId))
      {
        lists := WithEntry(lists, plan[j], nextId);
        nextId := nextId + 1;
      }
    }

    method SyncDynamicCollections(tracking: Tracking)
      requires Valid()
      modifies this
      ensures Valid()
      ensures Synced(old(lists), old(nextId), lists, tracking)
    {
      ghost var before, id := lists, nextId;
      EnsureDynamicCollections();
      EnsuringKeepsValid(before, lists, nextId);
      var expected := ExpectedIds(tracking);
      var stale, plan := PlanAll(expected, tracking);
      ghost var ensured := lists;
      lists := WithoutIds(lists, stale);
      DeletingLeavesSurvivors(ensured, nextId, tracking, stale);
      PlanReachesGoal(before, ensured, id, tracking, plan, lists);
      CreateAll(plan);
    }

    /** collection_counts: sums the groups of equal (status, type) over the definitions that select them. */
    method CollectionCounts(tracking: Tracking) returns (counts: map<Key, nat>)
      ensures forall k: Key :: k in counts && counts[k] == |Expected(k, tracking)|
    {
      KeysAreComplete();
      counts := map k | k in KEYS :: 0;
      var groups := set i | i in tracking :: tracking[i];
      ghost var done: set<Progress> := {};
      forall k: Key
        ensures ExpectedIn(k, tracking, {}) == {}
      {
      }
      while groups != {}
        invariant forall i :: i in tracking ==> (tracking[i] in groups <==> tracking[i] !in done)
        invariant groups !! done
        invariant forall k: Key :: k in counts && counts[k] == |ExpectedIn(k, tracking, done)|
        decreases |groups|
      {
        var p :| p in groups;
        var count := |Group(tracking, p)|;
        counts := AddGroup(counts, p, count);
        forall k: Key
          ensures |ExpectedIn(k, tracking, done + {p})| == |ExpectedIn(k, tracking, done)| + if Selects(k, p) then count else 0
        {
          GroupAddsUp(k, tracking, done, p);
        }
        groups := groups - {p};
        done := done + {p};
      }
      forall k: Key
        ensures ExpectedIn(k, tracking, done) == Expected(k, tracking)
      {
      }
    }

    method AddGroup(before: map<Key, nat>, p: Progress, count: nat) returns (counts: map<Key, nat>)
      requires forall k: Key :: k in before
      ensures forall k: Key :: k in counts && counts[k] == before[k] + if Selects(k, p) then count else 0
    {
      KeysAreComplete();
      counts := before;
      for d := 0 to |KEYS|
        invariant forall k: Key :: k in counts
        invariant forall i :: 0 <= i < d ==> counts[KEYS[i]] == before[KEYS[i]] + if Selects(KEYS[i], p) then count else 0
        invariant forall i :: d <= i < |KEYS| ==> counts[KEYS[i]] == before[KEYS[i]]
      {
        if Selects(KEYS[d], p) {
          counts := counts[KEYS[d] := counts[KEYS[d]] + count];
        }
      }
      forall k: Key
        ensures counts[k] == before[k] + if Selects(k, p) then count else 0
      {
        assert k in KEYS;
        var i :| 0 <= i < |KEYS| && KEYS[i] == k;
      }
    }
  }

  function Group(tracking: Tracking, p: Progress): set<ItemId> {
    set i | i in tracking && tracking[i] == p
  }

  function ExpectedIn(key: Key, tracking: Tracking, groups: set<Progress>): set<ItemId> {
    set i | i in tracking && tracking[i] in groups && Selects(key, tracking[i])
  }

  lemma GroupAddsUp(k: Key, tracking: Tracking, done: set<Progress>, p: Progress)
    requires p !in done
    ensures |ExpectedIn(k, tracking, done + {p})|
         == |ExpectedIn(k, tracking, done)| + if Selects(k, p) then |Group(tracking, p)| else 0
  {
    if Selects(k, p) {
      var known, more := ExpectedIn(k, tracking, done), Group(tracking, p);
      assert known !! more;
      assert ExpectedIn(k, tracking, done + {p}) == known + more;
    } else {
      assert ExpectedIn(k, tracking, done + {p}) == ExpectedIn(k, tracking, done);
    }
  }

  /** ListItem.objects.filter(id__in=ids).delete(). */
  function WithoutIds(lists: Lists, ids: set<nat>): Lists {
    map k | k in lists :: WithoutMembers(lists[k], ids)
  }

  function WithoutMembers(members: Members, ids: set<nat>): Members {
    map i | i in members && members[i].id !in ids :: members[i]
  }

  lemma EnsuringKeepsValid(before: Lists, after: Lists, nextId: nat)
    requires ValidLists(before, nextId) && forall k: Key :: k in after && after[k] == Current(before, k)
    ensures ValidLists(after, nextId)
  {
  }

  /** Because primary keys are unique across the lists, deleting by key removes exactly the stale members. */
  lemma DeletingLeavesSurvivors(lists: Lists, nextId: nat, tracking: Tracking, stale: set<nat>)
    requires ValidLists(lists, nextId)
    requires forall x :: x in stale <==> exists k, i :: StaleEntry(lists, tracking, k, i) && lists[k][i].id == x
    ensures forall k :: k in lists ==> WithoutIds(lists, stale)[k] == Survivors(lists[k], Expected(k, tracking))
  {
    forall k, i | k in lists && i in lists[k]
      ensures lists[k][i].id in stale <==> i !in Expected(k, tracking)
    {
      if i !in Expected(k, tracking) {
        assert StaleEntry(lists, tracking, k, i);
      }
    }
  }

  lemma RankIsStrict(s: set<ItemId>, i: ItemId, j: ItemId)
    requires i in s && i < j
    ensures |Below(s, i)| < |Below(s, j)|
  {
    assert i in Below(s, j);
    SubsetSize(Below(s, i), Below(s, j) - {i});
  }

  /** Where a member of a synchronised list comes from: it survived, or the plan put it there. */
  ghost predicate MemberExplained(current: Members, target: set<ItemId>, plan: seq<NewItem>, id: nat, k: Key, i: ItemId, e: Entry) {
    if i in current then e == current[i]
    else (exists j :: 0 <= j < |plan| && plan[j].key == k && plan[j].item == i && e == Entry(id + j, plan[j].order))
         && e.order == OrderFor(current, target, i)
  }

  ghost predicate ListExplained(current: Members, target: set<ItemId>, plan: seq<NewItem>, id: nat, k: Key, after: Members) {
    after.Keys == target && forall i :: i in after ==> MemberExplained(current, target, plan, id, k, i, after[i])
  }

  lemma PlanIsFresh(ensured: Lists, tracking: Tracking, plan: seq<NewItem>, lists: Lists)
    requires forall k: Key :: k in ensured && k in lists && lists[k] == Survivors(ensured[k], Expected(k, tracking))
    requires IsPlan(plan, ensured, tracking, set k | k in KEYS)
    ensures forall j :: 0 <= j < |plan| ==> plan[j].item !in lists[plan[j].key]
  {
    forall j | 0 <= j < |plan|
      ensures plan[j].item !in lists[plan[j].key]
    {
      assert Planned(plan, ensured, tracking, j);
    }
  }

  /** The created lists: everything in them survived or was planned, and everything planned is in them. */
  ghost predicate CreatedFrom(lists: Lists, plan: seq<NewItem>, id: nat, all: Lists) {
    && (forall k: Key :: k in lists && k in all)
    && (forall j :: 0 <= j < |plan| ==> CreatedAt(all, plan[j], id + j))
    && (forall k: Key, i :: i in lists[k] ==> i in all[k] && all[k][i] == lists[k][i])
    && (forall k: Key, i :: i in all[k] && i !in lists[k] ==> Occurs(plan, k, i))
  }

  lemma ExpectedAreCreated(ensured: Lists, tracking: Tracking, plan: seq<NewItem>, id: nat, lists: Lists, all: Lists, k: Key, i: ItemId)
    requires CreatedFrom(lists, plan, id, all) && k in ensured && lists[k] == Survivors(ensured[k], Expected(k, tracking))
    requires IsPlan(plan, ensured, tracking, set k | k in KEYS) && i in Expected(k, tracking)
    ensures i in all[k]
  {
    if i !in ensured[k] {
      KeysAreComplete();
      assert Occurs(plan, k, i);
      var j :| 0 <= j < |plan| && plan[j].key == k && plan[j].item == i;
      assert CreatedAt(all, plan[j], id + j);
    }
  }

  lemma CreatedAreExplained(ensured: Lists, tracking: Tracking, plan: seq<NewItem>, id: nat, lists: Lists, all: Lists, k: Key, i: ItemId)
    requires CreatedFrom(lists, plan, id, all) && k in ensured && lists[k] == Survivors(ensured[k], Expected(k, tracking))
    requires IsPlan(plan, ensured, tracking, set k | k in KEYS) && i in all[k]
    ensures i in Expected(k, tracking) && MemberExplained(ensured[k], Expected(k, tracking), plan, id, k, i, all[k][i])
  {
    if i !in lists[k] {
      var j :| 0 <= j < |plan| && plan[j].key == k && plan[j].item == i;
      assert Planned(plan, ensured, tracking, j) && CreatedAt(all, plan[j], id + j);
    }
  }

  lemma MembersExplained(ensured: Lists, tracking: Tracking, plan: seq<NewItem>, id: nat, lists: Lists, all: Lists, k: Key)
    requires CreatedFrom(lists, plan, id, all) && k in ensured && lists[k] == Survivors(ensured[k], Expected(k, tracking))
    requires IsPlan(plan, ensured, tracking, set k | k in KEYS)
    ensures ListExplained(ensured[k], Expected(k, tracking), plan, id, k, all[k])
  {
    forall i | i in Expected(k, tracking)
      ensures i in all[k]
    {
      ExpectedAreCreated(ensured, tracking, plan, id, lists, all, k, i);
    }
    forall i | i in all[k]
      ensures i in Expected(k, tracking) && MemberExplained(ensured[k], Expected(k, tracking), plan, id, k, i, all[k][i])
    {
      CreatedAreExplained(ensured, tracking, plan, id, lists, all, k, i);
    }
  }

  lemma SyncedOrdersDistinct(current: Members, target: set<ItemId>, after: Members, nextId: nat, i: ItemId, j: ItemId)
    requires SyncedList(current, target, after, nextId) && i in target && j in target && i < j
    requires forall x :: x in current ==> current[x].order >= 1
    requires forall x, y :: x in current && y in current && x != y ==> current[x].order != current[y].order
    ensures after[i].order >= 1 && after[j].order >= 1 && after[i].order != after[j].order
  {
    assert forall x :: x in current ==> current[x].order in Orders(current);
    if i !in current && j !in current {
      RankIsStrict(Missing(current, target), i, j);
    }
  }

  lemma PlanReachesGoal(before: Lists, ensured: Lists, id: nat, tracking: Tracking, plan: seq<NewItem>, lists: Lists)
    requires ValidLists(before, id)
    requires forall k: Key :: k in ensured && ensured[k] == Current(before, k)
    requires forall k: Key :: k in lists && lists[k] == Survivors(ensured[k], Expected(k, tracking))
    requires IsPlan(plan, ensured, tracking, set k | k in KEYS)
    ensures Synced(before, id, Created(lists, plan, |plan|, id), tracking)
    ensures ValidLists(Created(lists, plan, |plan|, id), id + |plan|)
  {
    var after := Created(lists, plan, |plan|, id);
    PlanIsFresh(ensured, tracking, plan, lists);
    CreatedHolds(lists, plan, |plan|, id);
    assert CreatedFrom(lists, plan, id, after);
    forall k: Key
      ensures ListExplained(Current(before, k), Expected(k, tracking), plan, id, k, after[k])
    {
      MembersExplained(ensured, tracking, plan, id, lists, after, k);
    }
    ExplainedIsSynced(before, id, tracking, plan, after);
    ExplainedIsValid(before, id, tracking, plan, after);
  }

  lemma ExplainedIsSynced(before: Lists, id: nat, tracking: Tracking, plan: seq<NewItem>, after: Lists)
    requires forall k: Key :: k in after && ListExplained(Current(before, k), Expected(k, tracking), plan, id, k, after[k])
    ensures Synced(before, id, after, tracking)
  {
    forall k: Key
      ensures SyncedList(Current(before, k), Expected(k, tracking), after[k], id)
    {
      assert ListExplained(Current(before, k), Expected(k, tracking), plan, id, k, after[k]);
      assert forall i :: i in after[k] ==> MemberExplained(Current(before, k), Expected(k, tracking), plan, id, k, i, after[k][i]);
    }
  }

  lemma ExplainedIsValid(before: Lists, id: nat, tracking: Tracking, plan: seq<NewItem>, after: Lists)
    requires ValidLists(before, id) && Synced(before, id, after, tracking)
    requires forall k: Key :: k in after && ListExplained(Current(before, k), Expected(k, tracking), plan, id, k, after[k])
    ensures ValidLists(after, id + |plan|)
  {
    forall k: Key, i: ItemId | i in after[k]
      ensures after[k][i].id < id + |plan| && after[k][i].order >= 1
    {
      ExplainedMember(before, id, tracking, plan, after, k, i);
    }
    forall k: Key, i: ItemId, j: ItemId | i in after[k] && j in after[k] && i != j
      ensures after[k][i].order != after[k][j].order
    {
      ExplainedOrders(before, id, tracking, after, k, i, j);
    }
    forall k: Key, l: Key, i: ItemId, j: ItemId | i in after[k] && j in after[l] && after[k][i].id == after[l][j].id
      ensures k == l && i == j
    {
      ExplainedIds(before, id, tracking, plan, after, k, l, i, j);
    }
  }

  lemma ExplainedOrders(before: Lists, id: nat, tracking: Tracking, after: Lists, k: Key, i: ItemId, j: ItemId)
    requires ValidLists(before, id) && k in after && SyncedList(Current(before, k), Expected(k, tracking), after[k], id)
    requires i in after[k] && j in after[k] && i != j
    ensures after[k][i].order != after[k][j].order
  {
    SyncedOrdersDistinct(Current(before, k), Expected(k, tracking), after[k], id, Min(i, j), Max(i, j));
  }

  lemma ExplainedIds(before: Lists, id: nat, tracking: Tracking, plan: seq<NewItem>, after: Lists, k: Key, l: Key, i: ItemId, j: ItemId)
    requires ValidLists(before, id)
    requires k in after && ListExplained(Current(before, k), Expected(k, tracking), plan, id, k, after[k]) && i in after[k]
    requires l in after && ListExplained(Current(before, l), Expected(l, tracking), plan, id, l, after[l]) && j in after[l]
    requires after[k][i].id == after[l][j].id
    ensures k == l && i == j
  {
    ExplainedMember(before, id, tracking, plan, after, k, i);
    ExplainedMember(before, id, tracking, plan, after, l, j);
    SameIdSameRow(before, id, plan, after[k][i], after[l][j], k, l, i, j);
  }

  /** Where the row with this id came from: it was there before, or the plan made it. */
  ghost predicate Origin(before: Lists, id: nat, plan: seq<NewItem>, e: Entry, k: Key, i: ItemId) {
    if i in Current(before, k) then e == Current(before, k)[i]
    else id <= e.id < id + |plan| && plan[e.id - id].key == k && plan[e.id - id].item == i
  }

  lemma SameIdSameRow(before: Lists, id: nat, plan: seq<NewItem>, e: Entry, f: Entry, k: Key, l: Key, i: ItemId, j: ItemId)
    requires ValidLists(before, id) && e.id == f.id
    requires Origin(before, id, plan, e, k, i) && Origin(before, id, plan, f, l, j)
    ensures k == l && i == j
  {
    if i in Current(before, k) {
      assert before[k][i] == e && e.id < id;
      if j in Current(before, l) {
        assert before[l][j] == f;
      }
    }
  }

  lemma ExplainedMember(before: Lists, id: nat, tracking: Tracking, plan: seq<NewItem>, after: Lists, k: Key, i: ItemId)
    requires ValidLists(before, id)
    requires k in after && ListExplained(Current(before, k), Expected(k, tracking), plan, id, k, after[k]) && i in after[k]
    ensures after[k][i].id < id + |plan| && after[k][i].order >= 1
    ensures i in Current(before, k) ==> after[k][i] == Current(before, k)[i]
    ensures i !in Current(before, k) ==> after[k][i].id >= id && plan[after[k][i].id - id].key == k && plan[after[k][i].id - id].item == i
  {
    assert MemberExplained(Current(before, k), Expected(k, tracking), plan, id, k, i, after[k][i]);
    if i !in Current(before, k) {
      OrderIsPositive(Current(before, k), Expected(k, tracking), i);
    }
  }

  lemma OrderIsPositive(current: Members, target: set<ItemId>, i: ItemId)
    requires forall x :: x in current ==> current[x].order >= 1
    ensures OrderFor(current, target, i) >= 1
  {
    if Orders(current) != {} {
      assert Greatest(Orders(current)) in Orders(current);
    }
  }

  function WithEntry(lists: Lists, n: NewItem, id: nat): Lists
    requires n.key in lists
  {
    var members: Members := lists[n.key];
    lists[n.key := members[n.item := Entry(id, n.order)]]
  }

  function Created(lists: Lists, plan: seq<NewItem>, n: nat, id: nat): (after: Lists)
    requires n <= |plan| && forall k: Key :: k in lists
    ensures forall k: Key :: k in after
  {
    if n == 0 then lists else WithEntry(Created(lists, plan, n - 1, id), plan[n - 1], id + n - 1)
  }

  /** Creating distinct items that were absent adds exactly them and keeps every other row. */
  lemma {:induction false} CreatedHolds(lists: Lists, plan: seq<NewItem>, n: nat, id: nat)
    requires n <= |plan| && forall k: Key :: k in lists
    requires DistinctItems(plan)
    requires forall j :: 0 <= j < |plan| ==> plan[j].item !in lists[plan[j].key]
    ensures forall j :: 0 <= j < n ==> CreatedAt(Created(lists, plan, n, id), plan[j], id + j)
    ensures forall k: Key, i :: i in lists[k] ==>
      i in Created(lists, plan, n, id)[k] && Created(lists, plan, n, id)[k][i] == lists[k][i]
    ensures forall k: Key, i :: i in Created(lists, plan, n, id)[k] && i !in lists[k] ==>
      exists j :: 0 <= j < n && plan[j].key == k && plan[j].item == i
  {
    if n > 0 {
      CreatedHolds(lists, plan, n - 1, id);
      OneMoreCreated(lists, plan, n - 1, id, Created(lists, plan, n - 1, id));
    }
  }

  /** One more row of the plan, on lists that hold the first `n`. */
  lemma OneMoreCreated(lists: Lists, plan: seq<NewItem>, n: nat, id: nat, so: Lists)
    requires n < |plan| && DistinctItems(plan) && forall k: Key :: k in lists && k in so
    requires forall j :: 0 <= j < |plan| ==> plan[j].item !in lists[plan[j].key]
    requires forall j :: 0 <= j < n ==> CreatedAt(so, plan[j], id + j)
    requires forall k: Key, i :: i in lists[k] ==> i in so[k] && so[k][i] == lists[k][i]
    requires forall k: Key, i :: i in so[k] && i !in lists[k] ==> exists j :: 0 <= j < n && plan[j].key == k && plan[j].item == i
    ensures var after := WithEntry(so, plan[n], id + n);
      && (forall j :: 0 <= j < n + 1 ==> CreatedAt(after, plan[j], id + j))
      && (forall k: Key, i :: i in lists[k] ==> i in after[k] && after[k][i] == lists[k][i])
      && (forall k: Key, i :: i in after[k] && i !in lists[k] ==> exists j :: 0 <= j < n + 1 && plan[j].key == k && plan[j].item == i)
  {
  }

  predicate CreatedAt(lists: Lists, n: NewItem, id: nat) {
    n.key in lists && n.item in lists[n.key] && lists[n.key][n.item] == Entry(id, n.order)
  }

  predicate StaleEntry(lists: Lists, tracking: Tracking, k: Key, i: ItemId) {
    k in lists && i in lists[k] && i !in Expected(k, tracking)
  }

  lemma StaleGrows(lists: Lists, tracking: Tracking, done: set<Key>, key: Key, stale: set<nat>)
    requires key in lists
    requires forall x :: x in stale <==> exists k, i :: k in done && StaleEntry(lists, tracking, k, i) && lists[k][i].id == x
    ensures forall x :: x in stale + StaleIds(lists[key], Expected(key, tracking)) <==>
      exists k, i :: k in done + {key} && StaleEntry(lists, tracking, k, i) && lists[k][i].id == x
  {
    forall x | x in StaleIds(lists[key], Expected(key, tracking))
      ensures exists k, i :: k in done + {key} && StaleEntry(lists, tracking, k, i) && lists[k][i].id == x
    {
      var i :| i in lists[key] && i !in Expected(key, tracking) && lists[key][i].id == x;
      assert StaleEntry(lists, tracking, key, i);
    }
  }

  lemma PlanGrows(plan: seq<NewItem>, more: seq<NewItem>, lists: Lists, tracking: Tracking, done: set<Key>, key: Key)
    requires IsPlan(plan, lists, tracking, done) && key !in done && DistinctItems(more)
    requires forall j :: 0 <= j < |more| ==> more[j].key == key && Planned(more, lists, tracking, j)
    requires forall i :: i in Missing(Current(lists, key), Expected(key, tracking)) ==> Occurs(more, key, i)
    ensures IsPlan(plan + more, lists, tracking, done + {key})
  {
    var all := plan + more;
    forall j | 0 <= j < |all|
      ensures all[j].key in done + {key} && Planned(all, lists, tracking, j)
    {
      if j < |plan| {
        assert Planned(plan, lists, tracking, j);
      } else {
        assert Planned(more, lists, tracking, j - |plan|);
      }
    }
    forall k, i | k in done + {key} && i in Missing(Current(lists, k), Expected(k, tracking))
      ensures Occurs(all, k, i)
    {
      if k == key {
        var j :| 0 <= j < |more| && more[j].key == key && more[j].item == i;
        assert all[|plan| + j] == more[j];
      } else {
        var j :| 0 <= j < |plan| && plan[j].key == k && plan[j].item == i;
        assert all[j] == plan[j];
      }
    }
  }

  // ---------------------------------------------------------------- what a synchronisation guarantees

  /** Synchronising again changes nothing. */
  lemma SyncIsIdempotent(before: Lists, id: nat, once: Lists, idOnce: nat, twice: Lists, tracking: Tracking)
    requires Synced(before, id, once, tracking) && Synced(once, idOnce, twice, tracking)
    ensures twice == once
  {
    forall k: Key
      ensures twice[k] == once[k]
    {
      assert SyncedList(Current(once, k), Expected(k, tracking), twice[k], idOnce);
      assert SyncedList(Current(before, k), Expected(k, tracking), once[k], id);
    }
  }

  /** Survivors keep their row: its primary key and its position. */
  lemma SurvivorsStay(before: Lists, id: nat, after: Lists, tracking: Tracking, k: Key, i: ItemId)
    requires Synced(before, id, after, tracking) && i in after[k] && k in before && i in before[k]
    ensures after[k][i] == before[k][i]
  {
    assert SyncedList(Current(before, k), Expected(k, tracking), after[k], id);
  }

  /** New items are numbered on from the largest position the list held, in the order of their content ids. */
  lemma NewItemsAreNumbered(before: Lists, id: nat, after: Lists, tracking: Tracking, k: Key, top: int, i: ItemId)
    requires Synced(before, id, after, tracking) && k in before && ValidLists(before, id)
    requires if before[k] == map[] then top == 0 else (exists j :: j in before[k] && before[k][j].order == top)
    requires forall j :: j in before[k] ==> before[k][j].order <= top
    requires i in after[k] && i !in before[k]
    ensures after[k][i].order == top + 1 + |set x | x in after[k] && x !in before[k] && x < i| && after[k][i].id >= id
  {
    assert SyncedList(Current(before, k), Expected(k, tracking), after[k], id);
    var orders := Orders(before[k]);
    if before[k] != map[] {
      var j :| j in before[k] && before[k][j].order == top;
      assert top in orders && Greatest(orders) == top;
    } else {
      assert orders == {};
    }
    assert Below(Missing(before[k], Expected(k, tracking)), i) == set x | x in after[k] && x !in before[k] && x < i;
  }

  /** A new item is placed after everything the list held, even after rows deleted by the same call. */
  lemma NewItemsGoLast(before: Lists, id: nat, after: Lists, tracking: Tracking, k: Key, i: ItemId, j: ItemId)
    requires Synced(before, id, after, tracking) && i in after[k] && i !in Current(before, k) && j in Current(before, k)
    ensures after[k][i].order > Current(before, k)[j].order
  {
    assert SyncedList(Current(before, k), Expected(k, tracking), after[k], id);
    assert Current(before, k)[j].order in Orders(Current(before, k));
  }

  /** Survivors keep the order a user gave them. */
  lemma SurvivorsKeepOrder(before: Lists, id: nat, after: Lists, tracking: Tracking, k: Key, i: ItemId, j: ItemId)
    requires Synced(before, id, after, tracking) && i in after[k] && j in after[k]
    requires i in Current(before, k) && j in Current(before, k)
    ensures after[k][i].order < after[k][j].order <==> Current(before, k)[i].order < Current(before, k)[j].order
  {
    assert SyncedList(Current(before, k), Expected(k, tracking), after[k], id);
  }

  function StatusList(status: Status): Key {
    match status
    case Backlog => BacklogList
    case InProgress => InProgressList
    case OnHold => OnHoldList
    case Dropped => DroppedList
    case Completed => CompletedList
  }

  function TypeList(contentType: ContentType): Key {
    match contentType
    case Movie => MovieList
    case TvShow => SeriesList
    case Season => SeriesList
    case Game => GameList
    case Album => AlbumList
    case Book => BookList
  }

  lemma SelectedByTwo(p: Progress)
    ensures StatusList(p.status) != TypeList(p.contentType)
    ensures forall k: Key :: Selects(k, p) <==> k == StatusList(p.status) || k == TypeList(p.contentType)
  {
  }

  /** Every tracked item is in exactly one status list and exactly one type list. */
  lemma OneStatusListOneTypeList(before: Lists, id: nat, after: Lists, tracking: Tracking, i: ItemId, k: Key)
    requires Synced(before, id, after, tracking)
    ensures i in after[k] <==> i in tracking && (k == StatusList(tracking[i].status) || k == TypeList(tracking[i].contentType))
  {
    assert SyncedList(Current(before, k), Expected(k, tracking), after[k], id);
    if i in tracking {
      SelectedByTwo(tracking[i]);
    }
  }

  function Sizes(tracking: Tracking, from: nat): nat
    requires from <= |KEYS|
    decreases |KEYS| - from
  {
    if from == |KEYS| then 0 else |Expected(KEYS[from], tracking)| + Sizes(tracking, from + 1)
  }

  function Matches(p: Progress, from: nat): nat
    requires from <= |KEYS|
    decreases |KEYS| - from
  {
    if from == |KEYS| then 0 else (if Selects(KEYS[from], p) then 1 else 0) + Matches(p, from + 1)
  }

  lemma {:induction false} SizesOfOneMore(tracking: Tracking, i: ItemId, from: nat)
    requires i in tracking && from <= |KEYS|
    ensures Sizes(tracking, from) == Sizes(tracking - {i}, from) + Matches(tracking[i], from)
    decreases |KEYS| - from
  {
    if from == |KEYS| {
    } else {
      SizesOfOneMore(tracking, i, from + 1);
      var k := KEYS[from];
      if Selects(k, tracking[i]) {
        assert Expected(k, tracking) == Expected(k, tracking - {i}) + {i};
      } else {
        assert Expected(k, tracking) == Expected(k, tracking - {i});
      }
    }
  }

  lemma TwoMatches(p: Progress)
    ensures Matches(p, 0) == 2
  {
    SelectedByTwo(p);
    var s, t := StatusList(p.status), TypeList(p.contentType);
    assert Matches(p, 9) == if t == BookList then 1 else 0;
    assert Matches(p, 8) == if t in {AlbumList, BookList} then 1 else 0;
    assert Matches(p, 7) == if t in {GameList, AlbumList, BookList} then 1 else 0;
    assert Matches(p, 6) == if t in {SeriesList, GameList, AlbumList, BookList} then 1 else 0;
    assert Matches(p, 5) == 1;
    assert Matches(p, 4) == if s == CompletedList then 2 else 1;
    assert Matches(p, 3) == if s in {DroppedList, CompletedList} then 2 else 1;
    assert Matches(p, 2) == if s in {OnHoldList, DroppedList, CompletedList} then 2 else 1;
    assert Matches(p, 1) == if s != BacklogList then 2 else 1;
  }

  /** The ten lists together hold every tracked item twice. */
  lemma {:induction false} TotalIsTwiceTracking(tracking: Tracking)
    ensures Sizes(tracking, 0) == 2 * |tracking|
    decreases |tracking|
  {
    if tracking == map[] {
      forall k: Key
        ensures Expected(k, tracking) == {}
      {
      }
      EmptySizes(tracking, 0);
    } else {
      var i :| i in tracking;
      SizesOfOneMore(tracking, i, 0);
      TwoMatches(tracking[i]);
      assert (tracking - {i}).Keys == tracking.Keys - {i};
      TotalIsTwiceTracking(tracking - {i});
    }
  }

  lemma {:induction false} EmptySizes(tracking: Tracking, from: nat)
    requires from <= |KEYS| && forall k: Key :: Expected(k, tracking) == {}
    ensures Sizes(tracking, from) == 0
    decreases |KEYS| - from
  {
    if from == |KEYS| {
    } else {
      EmptySizes(tracking, from + 1);
    }
  }

  function ListSizes(lists: Lists, from: nat): nat
    requires from <= |KEYS| && forall k: Key :: k in lists
    decreases |KEYS| - from
  {
    if from == |KEYS| then 0 else |lists[KEYS[from]]| + ListSizes(lists, from + 1)
  }

  lemma {:induction false} SyncedSizes(before: Lists, id: nat, after: Lists, tracking: Tracking, from: nat)
    requires Synced(before, id, after, tracking) && from <= |KEYS|
    ensures ListSizes(after, from) == Sizes(tracking, from)
    decreases |KEYS| - from
  {
    if from == |KEYS| {
    } else {
      var k := KEYS[from];
      assert SyncedList(Current(before, k), Expected(k, tracking), after[k], id);
      assert |after[k]| == |after[k].Keys|;
      SyncedSizes(before, id, after, tracking, from + 1);
    }
  }

  /** After a synchronisation the ten lists hold twice as many items as there are tracking rows. */
  lemma ListsHoldEverythingTwice(before: Lists, id: nat, after: Lists, tracking: Tracking)
    requires Synced(before, id, after, tracking)
    ensures ListSizes(after, 0) == 2 * |tracking|
  {
    SyncedSizes(before, id, after, tracking, 0);
    TotalIsTwiceTracking(tracking);
  }

  /** The counts shown beside the lists are the sizes of the lists. */
  lemma CountsAgree(before: Lists, id: nat, after: Lists, tracking: Tracking, counts: map<Key, nat>, k: Key)
    requires Synced(before, id, after, tracking) && k in counts && counts[k] == |Expected(k, tracking)|
    ensures counts[k] == |after[k]|
  {
    assert SyncedList(Current(before, k), Expected(k, tracking), after[k], id);
    assert |after[k]| == |after[k].Keys|;
  }
}
