/** Positions of the items of one list: saving, moving, reordering, promoting a sort. */
module ListOrdering {
  import opened Prelude
  import opened Sorting

  /** Primary keys of list items; they are positive, so `-id` is a negative position no other row uses. */
  type Id = nat

  type Positions = map<Id, int>

  function Taken(p: Positions): set<int> {
    set i | i in p :: p[i]
  }

  /** The unique constraint on (list, position). */
  ghost predicate Unique(p: Positions) {
    forall i, j :: i in p && j in p && i != j ==> p[i] != p[j]
  }

  ghost predicate Valid(p: Positions) {
    Unique(p) && (forall i :: i in p ==> i >= 1 && p[i] >= 1)
  }

  /** ListItem.save: a position that is not positive is silently replaced by one past the largest. */
  function Save(p: Positions, id: Id, position: int): Positions {
    p[id := if position <= 0 then Greatest(Taken(p)) + 1 else position]
  }

  /** Saving changes one position only; one that is not positive becomes the largest position plus one, or 1. */
  lemma SaveMeans(p: Positions, id: Id, position: int, top: int)
    requires if p == map[] then top == 0 else (exists i :: i in p && p[i] == top)
    requires forall i :: i in p ==> p[i] <= top
    ensures Save(p, id, position) == p[id := if position >= 1 then position else top + 1]
  {
    if p != map[] {
      var i :| i in p && p[i] == top;
      assert top in Taken(p) && Greatest(Taken(p)) == top;
    } else {
      assert Taken(p) == {};
    }
  }

  /** The range UPDATEs of a move, each taken as simultaneous. */
  function ShiftUp(p: Positions, position: int, oldPosition: int): Positions {
    map i | i in p :: if position <= p[i] < oldPosition then p[i] + 1 else p[i]
  }

  function ShiftDown(p: Positions, oldPosition: int, position: int): Positions {
    map i | i in p :: if oldPosition < p[i] <= position then p[i] - 1 else p[i]
  }

  /** The temporary position both algorithms ask for. */
  function Negated(id: Id): int {
    -(id as int)
  }

  function Parked(p: Positions, id: Id): Positions {
    Save(p, id, Negated(id))
  }

  function Shifted(p: Positions, id: Id, position: int): Positions
    requires id in p
  {
    if position < p[id] then ShiftUp(Parked(p, id), position, p[id]) else ShiftDown(Parked(p, id), p[id], position)
  }

  function Moved(p: Positions, id: Id, position: int): Positions
    requires id in p
  {
    if p[id] == position then p else Save(Shifted(p, id, position), id, position)
  }

  // ---------------------------------------------------------------- counting positions

  function IdsUpTo(p: Positions, n: int): set<Id> {
    set i | i in p && p[i] <= n
  }

  function TakenUpTo(p: Positions, n: int): set<int> {
    set i | i in p && p[i] <= n :: p[i]
  }

  lemma {:induction false} ImageSize(p: Positions, ids: set<Id>)
    requires Unique(p) && ids <= p.Keys
    ensures |set i | i in ids :: p[i]| == |ids|
  {
    if ids == {} {
    } else {
      var i :| i in ids;
      var rest := set j | j in ids - {i} :: p[j];
      ImageSize(p, ids - {i});
      assert p[i] !in rest;
      assert (set j | j in ids :: p[j]) == rest + {p[i]};
    }
  }

  /** How many items sit at or below position n, and when that is all of 1..n. */
  lemma CountUpTo(p: Positions, n: nat)
    requires Valid(p)
    ensures |IdsUpTo(p, n)| <= n
    ensures |IdsUpTo(p, n)| == n <==> Filled(p, n)
  {
    ImageSize(p, IdsUpTo(p, n));
    assert TakenUpTo(p, n) == set i | i in IdsUpTo(p, n) :: p[i];
    Pigeonhole(TakenUpTo(p, n), n);
    assert forall x :: 1 <= x <= n ==> (x in TakenUpTo(p, n) <==> x in Taken(p));
  }

  /** Every position from 1 to n is in use. */
  ghost predicate Filled(p: Positions, n: int) {
    forall x :: 1 <= x <= n ==> x in Taken(p)
  }

  /** n distinct positive positions reach at least n, so one past the largest lies beyond every requested position. */
  lemma LargestReachesCount(p: Positions)
    requires Valid(p)
    ensures Greatest(Taken(p)) >= |p|
  {
    var top := Greatest(Taken(p));
    if top >= 0 {
      CountUpTo(p, top);
      assert IdsUpTo(p, top) == p.Keys by {
        assert forall i :: i in p ==> p[i] in Taken(p);
      }
    }
  }

  /** Parking an item puts it one past every other item, outside any window a move shifts. */
  lemma ParkedIsOutside(p: Positions, id: Id, position: int)
    requires Valid(p) && id in p && 1 <= position <= |p|
    ensures Parked(p, id)[id] > position && Parked(p, id)[id] > p[id]
    ensures forall i :: i in p && i != id ==> Parked(p, id)[i] == p[i] && p[i] < Parked(p, id)[id]
  {
    LargestReachesCount(p);
    assert forall i :: i in p ==> p[i] in Taken(p);
  }

  function StepAside(x: int, oldPosition: int, position: int): int {
    if position <= x < oldPosition then x + 1 else if oldPosition < x <= position then x - 1 else x
  }

  /** What a move does to each item: the moved one takes the position, those in between step aside by one. */
  ghost predicate IsMoved(p: Positions, id: Id, position: int, r: Positions) {
    && id in p && r.Keys == p.Keys && r[id] == position
    && forall i :: i in p && i != id ==> r[i] == StepAside(p[i], p[id], position)
  }

  lemma MoveEffect(p: Positions, id: Id, position: int)
    requires Valid(p) && id in p && 1 <= position <= |p|
    ensures IsMoved(p, id, position, Moved(p, id, position))
  {
    ParkedIsOutside(p, id, position);
  }

  lemma MovedKeepsOrder(p: Positions, id: Id, position: int, r: Positions)
    requires Valid(p) && 1 <= position && IsMoved(p, id, position, r)
    ensures Valid(r)
    ensures forall i, j :: i in p && j in p && i != id && j != id ==> (p[i] < p[j] <==> r[i] < r[j])
  {
  }

  /** The unique constraint holds after the parking write and after the range shift too. */
  lemma IntermediateWritesAreUnique(p: Positions, id: Id, position: int)
    requires Valid(p) && id in p && 1 <= position <= |p|
    ensures Unique(Parked(p, id)) && Unique(Shifted(p, id, position))
  {
    ParkedIsOutside(p, id, position);
    var parked := Parked(p, id);
    assert forall i :: i in p ==> parked[i] != p[id];
    ShiftsKeepUnique(parked, p[id], position);
  }

  /** Shifting a window towards a position that nobody holds keeps positions distinct. */
  lemma ShiftsKeepUnique(q: Positions, hole: int, position: int)
    requires Unique(q) && forall i :: i in q ==> q[i] != hole
    ensures Unique(ShiftUp(q, position, hole)) && Unique(ShiftDown(q, hole, position))
  {
  }

  /** A move keeps positions positive and unique, at each of its three writes, and keeps everyone else's relative order. */
  lemma MoveKeepsOrder(p: Positions, id: Id, position: int)
    requires Valid(p) && id in p && 1 <= position <= |p|
    ensures Valid(Moved(p, id, position)) && Unique(Parked(p, id)) && Unique(Shifted(p, id, position))
    ensures Moved(p, id, position).Keys == p.Keys && Moved(p, id, position)[id] == position
    ensures forall i, j :: i in p && j in p && i != id && j != id ==>
      (p[i] < p[j] <==> Moved(p, id, position)[i] < Moved(p, id, position)[j])
  {
    MoveEffect(p, id, position);
    MovedKeepsOrder(p, id, position, Moved(p, id, position));
    IntermediateWritesAreUnique(p, id, position);
  }

  function Rank(p: Positions, id: Id): nat
    requires id in p
  {
    1 + |set i | i in p && p[i] < p[id]|
  }

  /** The endpoint promises a 1-based place. The item really becomes the position-th one exactly when there is no gap
      among the slots before it: 1..position-1 when it moves up or stays, 1..position when it moves down. */
  lemma MoveLandsAtPlaceIff(p: Positions, id: Id, position: int)
    requires Valid(p) && id in p && 1 <= position <= |p|
    ensures id in Moved(p, id, position)
    ensures Rank(Moved(p, id, position), id) == position
       <==> Filled(p, if position <= p[id] then position - 1 else position)
  {
    MoveEffect(p, id, position);
    MovedRank(p, id, position, Moved(p, id, position));
  }

  lemma MovedRank(p: Positions, id: Id, position: int, r: Positions)
    requires Valid(p) && 1 <= position && IsMoved(p, id, position, r)
    ensures Rank(r, id) == position <==> Filled(p, if position <= p[id] then position - 1 else position)
  {
    var before := set i | i in r && r[i] < r[id];
    if position <= p[id] {
      assert before == IdsUpTo(p, position - 1);
      CountUpTo(p, position - 1);
    } else {
      assert before == IdsUpTo(p, position) - {id};
      assert id in IdsUpTo(p, position);
      CountUpTo(p, position);
    }
  }

  /** A gap really breaks the promise: with positions 1, 5 and 9, moving the first item to place 3 leaves it first. */
  lemma MoveMissesPlace() returns (p: Positions)
    ensures Valid(p) && |p| == 3 && 1 in p && 1 in Moved(p, 1, 3) && Rank(Moved(p, 1, 3), 1) == 1
  {
    p := map[1 := 1, 2 := 5, 3 := 9];
    assert Valid(p) && |p| == 3;
    MoveEffect(p, 1, 3);
    FirstStaysFirst(p, Moved(p, 1, 3));
  }

  lemma FirstStaysFirst(p: Positions, r: Positions)
    requires p == map[1 := 1, 2 := 5, 3 := 9] && IsMoved(p, 1, 3, r)
    ensures Rank(r, 1) == 1
  {
    assert (set i | i in r && r[i] < r[1]) == {};
  }

  /** The items in order, when the positions are exactly 1..n. */
  ghost predicate Arranges(s: seq<Id>, p: Positions) {
    |s| == |p| && forall k :: 0 <= k < |s| ==> s[k] in p && p[s[k]] == k + 1
  }

  function RemoveInsert(s: seq<Id>, from: nat, to: nat): seq<Id>
    requires from < |s| && to < |s|
  {
    var rest := s[..from] + s[from + 1..];
    rest[..to] + [s[from]] + rest[to..]
  }

  /** On a list without gaps a move is exactly: take the item out, put it back at the requested place. */
  lemma MoveIsRemoveThenInsert(p: Positions, s: seq<Id>, id: Id, position: int)
    requires Valid(p) && Arranges(s, p) && id in p && 1 <= position <= |p| && p[id] <= |s| && s[p[id] - 1] == id
    ensures Arranges(RemoveInsert(s, p[id] - 1, position - 1), Moved(p, id, position))
  {
    MoveEffect(p, id, position);
    MovedArranges(p, s, id, position, Moved(p, id, position));
  }

  lemma MovedArranges(p: Positions, s: seq<Id>, id: Id, position: int, r: Positions)
    requires Valid(p) && Arranges(s, p) && IsMoved(p, id, position, r)
    requires 1 <= position <= |p| && p[id] <= |s| && s[p[id] - 1] == id
    ensures Arranges(RemoveInsert(s, p[id] - 1, position - 1), r)
  {
    var from, to := p[id] - 1, position - 1;
    var t := RemoveInsert(s, from, to);
    assert |r| == |r.Keys| == |p.Keys| == |p| == |t|;
    forall k | 0 <= k < |t|
      ensures t[k] in r && r[t[k]] == k + 1
    {
      if k == to {
        assert t[k] == id;
      } else {
        var j := if k < to then (if k < from then k else k + 1) else (if k - 1 < from then k - 1 else k);
        assert t[k] == s[j] && j != from;
      }
    }
  }

  // ---------------------------------------------------------------- reorder and apply_sort

  /** `{id: index + 1 for index, id in enumerate(order)}`: the last occurrence of an id wins. */
  function LastPlace(order: seq<Id>, id: Id): (place: nat)
    ensures place <= |order|
    ensures place > 0 ==> order[place - 1] == id
    ensures forall k :: place <= k < |order| ==> order[k] != id
  {
    if order == [] then 0
    else if order[|order| - 1] == id then |order|
    else LastPlace(order[..|order| - 1], id)
  }

  function Elements(order: seq<Id>): set<Id> {
    set i | i in order
  }

  function Reordered(order: seq<Id>): Positions {
    map i | i in Elements(order) :: LastPlace(order, i)
  }

  lemma LastPlaceFound(order: seq<Id>, id: Id)
    requires id in order
    ensures LastPlace(order, id) >= 1
  {
  }

  lemma ReorderedIsValid(order: seq<Id>)
    requires forall i :: i in order ==> i >= 1
    ensures Valid(Reordered(order))
  {
    forall i | i in order
      ensures LastPlace(order, i) >= 1
    {
      LastPlaceFound(order, i);
    }
  }

  lemma DuplicatesOfOneMore(order: seq<Id>)
    requires order != []
    ensures var n := |order| - 1; NoDuplicates(order) <==> NoDuplicates(order[..n]) && order[n] !in order[..n]
  {
    var n := |order| - 1;
    assert forall i :: 0 <= i < n ==> order[..n][i] == order[i];
  }

  lemma {:induction false} ElementsSize(order: seq<Id>)
    ensures |Elements(order)| <= |order|
    ensures |Elements(order)| == |order| <==> NoDuplicates(order)
  {
    if order == [] {
    } else {
      var n := |order| - 1;
      ElementsSize(order[..n]);
      assert Elements(order) == Elements(order[..n]) + {order[n]};
      DuplicatesOfOneMore(order);
    }
  }

  /** Duplicate ids pass validation. The new positions are exactly 1..n if and only if there are none. */
  lemma ReorderIsExactIff(order: seq<Id>)
    requires forall i :: i in order ==> i >= 1
    ensures Filled(Reordered(order), |Reordered(order)|) <==> NoDuplicates(order)
  {
    var r := Reordered(order);
    ReorderedIsValid(order);
    ElementsSize(order);
    assert |r| == |r.Keys| && r.Keys == Elements(order);
    if NoDuplicates(order) {
      forall x | 1 <= x <= |r|
        ensures x in Taken(r)
      {
        LastPlaceFound(order, order[x - 1]);
        assert r[order[x - 1]] == x;
      }
    } else {
      var final := order[|order| - 1];
      assert r[final] == |order|;
      assert final !in IdsUpTo(r, |r|);
      CountUpTo(r, |r|);
      SubsetSize(IdsUpTo(r, |r|), r.Keys - {final});
    }
  }

  const TWICE: seq<Id> := [1, 1]

  /** A list of one item, reordered by naming it twice, leaves it at position 2. */
  lemma RepeatedIdLeavesAGap(p: Positions)
    requires p == map[1 := 1]
    ensures Valid(p) && Elements(TWICE) == p.Keys
    ensures Reordered(TWICE) == map[1 := 2] && !Filled(Reordered(TWICE), |p|)
  {
    assert Elements(TWICE) == {1};
    assert LastPlace(TWICE, 1) == 2;
    assert 1 !in Taken(Reordered(TWICE));
  }

  /** Halfway through the second phase: the rows in `rest` still hold their temporary position. */
  function Partly(target: Positions, rest: set<Id>): Positions {
    map i | i in target :: if i in rest then Negated(i) else target[i]
  }

  lemma PartlyNext(target: Positions, rest: set<Id>, i: Id)
    requires i in target
    ensures Partly(target, rest)[i := target[i]] == Partly(target, rest - {i})
  {
  }

  lemma PartlyUnique(target: Positions, rest: set<Id>)
    requires Valid(target)
    ensures Unique(Partly(target, rest))
  {
  }

  datatype Error = NotAllItems | PositionOutOfRange | UnknownItem | DuplicateItem

  lemma ReorderedOneMore(order: seq<Id>)
    requires order != []
    ensures var n := |order| - 1; Reordered(order) == Reordered(order[..n])[order[n] := n + 1]
  {
    var n := |order| - 1;
    assert Elements(order) == Elements(order[..n]) + {order[n]};
  }

  /** The dictionary from id to index + 1: a repeated id keeps its last index. */
  method LastPositions(ids: seq<Id>) returns (idToPosition: Positions)
    ensures idToPosition == Reordered(ids)
  {
    idToPosition := map[];
    for index := 0 to |ids|
      invariant idToPosition == Reordered(ids[..index])
    {
      ReorderedOneMore(ids[..index + 1]);
      assert ids[..index + 1][..index] == ids[..index];
      idToPosition := idToPosition[ids[index] := index + 1];
    }
    assert ids[..|ids|] == ids;
  }

  class ListTable {
    var order: Positions

    constructor ()
      ensures Valid(order) && order == map[]
    {
      order := map[];
    }

    /** A new item is saved with the default position 0. */
    method Create(id: Id)
      requires Valid(order) && id >= 1 && id !in order
      modifies this
      ensures Valid(order) && order == Save(old(order), id, 0)
      ensures forall i :: i in old(order) ==> order[i] == old(order)[i] && order[i] < order[id]
    {
      assert forall i :: i in order ==> order[i] in Taken(order);
      SaveItem(id, 0);
    }

    method SaveItem(id: Id, position: int)
      modifies this
      ensures order == Save(old(order), id, position)
    {
      var value := position;
      if value <= 0 {
        var maxPosition := Greatest(Taken(order));
        value := maxPosition + 1;
      }
      order := order[id := value];
    }

    method Delete(id: Id)
      requires Valid(order)
      modifies this
      ensures Valid(order) && order == old(order) - {id}
    {
      order := order - {id};
    }

    method Move(id: Id, position: int) returns (error: Option<Error>)
      requires Valid(order)
      modifies this
      ensures Valid(order)
      ensures id !in old(order) ==> error == Some(UnknownItem) && order == old(order)
      ensures id in old(order) && !(1 <= position <= |old(order)|) ==> error == Some(PositionOutOfRange) && order == old(order)
      ensures id in old(order) && 1 <= position <= |old(order)| ==> error == None && order == Moved(old(order), id, position)
    {
      if id !in order {
        return Some(UnknownItem);
      }
      var count := |order|;
      if position < 1 || position > count {
        return Some(PositionOutOfRange);
      }
      var oldPosition := order[id];
      if oldPosition == position {
        return None;
      }
      MoveKeepsOrder(order, id, position);
      Relocate(id, position);
      return None;
    }

    /** The three writes of the move transaction. */
    method Relocate(id: Id, position: int)
      requires id in order && position != order[id]
      modifies this
      ensures order == Moved(old(order), id, position)
    {
      var oldPosition := order[id];
      SaveItem(id, Negated(id));
      if position < oldPosition {
        order := ShiftUp(order, position, oldPosition);
      } else {
        order := ShiftDown(order, oldPosition, position);
      }
      SaveItem(id, position);
    }

    /** First phase of reorder and apply_sort: one row after another gets the negative of its key, and no two rows
        ever share a position on the way. */
    method Park()
      requires Valid(order)
      modifies this
      ensures order == map i | i in old(order) :: Negated(i)
      ensures Unique(order)
    {
      var rest := order.Keys;
      while rest != {}
        invariant rest <= old(order).Keys && order.Keys == old(order).Keys
        invariant forall i :: i in order ==> order[i] == if i in rest then old(order)[i] else Negated(i)
        invariant Unique(order)
        decreases |rest|
      {
        var i :| i in rest;
        order := order[i := Negated(i)];
        rest := rest - {i};
      }
    }

    /** Second phase: one row after another gets its final position. */
    method Place(target: Positions)
      requires Valid(target) && order == map i | i in target :: Negated(i)
      modifies this
      ensures order == target
    {
      var rest := order.Keys;
      while rest != {}
        invariant rest <= target.Keys && order == Partly(target, rest) && Unique(order)
        decreases |rest|
      {
        var i :| i in rest;
        PartlyUnique(target, rest - {i});
        PartlyNext(target, rest, i);
        order := order[i := target[i]];
        rest := rest - {i};
      }
    }

    method Reorder(ids: seq<Id>) returns (error: Option<Error>)
      requires Valid(order)
      modifies this
      ensures Valid(order)
      ensures ids == [] || Elements(ids) != old(order).Keys ==> error == Some(NotAllItems) && order == old(order)
      ensures ids != [] && Elements(ids) == old(order).Keys ==> error == None && order == Reordered(ids)
    {
      if ids == [] || Elements(ids) != order.Keys {
        return Some(NotAllItems);
      }
      var idToPosition := LastPositions(ids);
      assert forall i :: i in ids ==> i in Elements(ids);
      ReorderedIsValid(ids);
      Park();
      Place(idToPosition);
      return None;
    }

    /** `items` is the list in the order of the requested sort: every row once. */
    method ApplySort(items: seq<Id>) returns (updated: nat)
      requires Valid(order) && NoDuplicates(items) && Elements(items) == order.Keys
      modifies this
      ensures Valid(order) && updated == |items|
      ensures Arranges(items, order)
    {
      if items == [] {
        assert order.Keys == {};
        return 0;
      }
      assert forall i :: i in items ==> i in Elements(items);
      Park();
      var target := Numbered(items);
      Place(target);
      ArrangedSize(items, order);
      return |items|;
    }
  }

  /** `for idx, item in enumerate(items, start=1): item.list_order = idx`. */
  method Numbered(items: seq<Id>) returns (target: Positions)
    requires NoDuplicates(items) && forall i :: i in items ==> i >= 1
    ensures target.Keys == Elements(items) && Valid(target)
    ensures forall k :: 0 <= k < |items| ==> items[k] in target && target[items[k]] == k + 1
  {
    target := map[];
    for index := 0 to |items|
      invariant target.Keys == Elements(items[..index])
      invariant forall k :: 0 <= k < index ==> items[k] in target && target[items[k]] == k + 1
    {
      assert Elements(items[..index + 1]) == Elements(items[..index]) + {items[index]};
      target := target[items[index] := index + 1];
    }
    assert items[..|items|] == items;
    assert forall i :: i in target ==> i in items;
  }

  lemma ArrangedSize(items: seq<Id>, p: Positions)
    requires NoDuplicates(items) && p.Keys == Elements(items)
    ensures |p| == |items|
  {
    ElementsSize(items);
    assert |p| == |p.Keys|;
  }

  // ---------------------------------------------------------------- runs

  datatype Op =
    | DoCreate(id: Id)
    | DoDelete(id: Id)
    | DoMove(id: Id, position: int)
    | DoReorder(ids: seq<Id>)
    | DoApplySort(items: seq<Id>)

  function Apply(p: Positions, op: Op): Positions {
    match op
    case DoCreate(id) => if id >= 1 && id !in p then Save(p, id, 0) else p
    case DoDelete(id) => p - {id}
    case DoMove(id, position) => if id in p && 1 <= position <= |p| then Moved(p, id, position) else p
    case DoReorder(ids) => if ids != [] && Elements(ids) == p.Keys then Reordered(ids) else p
    case DoApplySort(items) => if Elements(items) == p.Keys then Reordered(items) else p
  }

  function Run(ops: seq<Op>): Positions {
    if ops == [] then map[] else Apply(Run(ops[..|ops| - 1]), ops[|ops| - 1])
  }

  /** Whatever is created, deleted, moved and reordered, positions stay positive and unique. */
  lemma {:induction false} EveryRunIsValid(ops: seq<Op>)
    ensures Valid(Run(ops))
  {
    if ops == [] {
    } else {
      EveryRunIsValid(ops[..|ops| - 1]);
      var p := Run(ops[..|ops| - 1]);
      var op := ops[|ops| - 1];
      match op
      case DoCreate(id) => assert forall i :: i in p ==> p[i] in Taken(p);
      case DoDelete(id) =>
      case DoMove(id, position) =>
        if id in p && 1 <= position <= |p| {
          MoveKeepsOrder(p, id, position);
        }
      case DoReorder(ids) => ReorderStep(p, ids);
      case DoApplySort(items) => ReorderStep(p, items);
    }
  }

  lemma ReorderStep(p: Positions, ids: seq<Id>)
    requires Valid(p)
    ensures Elements(ids) == p.Keys ==> Valid(Reordered(ids))
  {
    if Elements(ids) == p.Keys {
      assert forall i :: i in ids ==> i in Elements(ids);
      ReorderedIsValid(ids);
    }
  }
}
