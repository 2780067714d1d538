/** The notification feed of backend/app/services/notification_service.py: four truncated sources
    merged into one newest-first list, and the read marks kept beside it. */
module Feed {
  import opened Basics
  import opened Sorting

  datatype Kind = BookingItem | DocumentItem | RefundItem | SupportItem

  /** A row some user owns, and when it was created, uploaded or updated. Only documents are deleted. */
  datatype Row = Row(owner: Id, at: int, deleted: bool)

  datatype Tables = Tables(bookings: seq<Row>, documents: seq<Row>, refunds: seq<Row>, tickets: seq<Row>)

  datatype Item = Item(kind: Kind, id: nat, createdAt: int)

  function RowsOf(t: Tables, kind: Kind): seq<Row> {
    match kind
    case BookingItem => t.bookings
    case DocumentItem => t.documents
    case RefundItem => t.refunds
    case SupportItem => t.tickets
  }

  /** Sorting key of `order_by(….desc())` and of the reversed stable sort. */
  function NewestFirst(): Item -> int {
    (item: Item) => -item.createdAt
  }

  predicate Owns(t: Tables, user: Id, kind: Kind, id: nat) {
    && id < |RowsOf(t, kind)| && RowsOf(t, kind)[id].owner == user
    && (kind.DocumentItem? ==> !RowsOf(t, kind)[id].deleted)
  }

  /** The user's items among the first `n` rows of one table. */
  function ItemsUpTo(t: Tables, user: Id, kind: Kind, n: nat): seq<Item>
    requires n <= |RowsOf(t, kind)|
  {
    if n == 0 then []
    else
      ItemsUpTo(t, user, kind, n - 1)
      + (if Owns(t, user, kind, n - 1) then [Item(kind, n - 1, RowsOf(t, kind)[n - 1].at)] else [])
  }

  function Items(t: Tables, user: Id, kind: Kind): seq<Item> {
    ItemsUpTo(t, user, kind, |RowsOf(t, kind)|)
  }

  /** One query: newest first, at most `limit`. */
  function Source(t: Tables, user: Id, kind: Kind, limit: nat): seq<Item> {
    Take(limit, Sort(Items(t, user, kind), NewestFirst()))
  }

  /** `_build_user_notifications`. */
  function Build(t: Tables, user: Id, limit: nat): seq<Item> {
    var all := Source(t, user, BookingItem, limit) + Source(t, user, DocumentItem, limit)
      + Source(t, user, RefundItem, limit) + Source(t, user, SupportItem, limit);
    Take(limit, Sort(all, NewestFirst()))
  }

  /** Everything the user could ever be shown. */
  function Everything(t: Tables, user: Id): seq<Item> {
    Items(t, user, BookingItem) + Items(t, user, DocumentItem)
    + Items(t, user, RefundItem) + Items(t, user, SupportItem)
  }

  // ---- merging ----

  /** The merge of two lists; on equal keys the left one goes first. */
  function Merge<T>(xs: seq<T>, ys: seq<T>, key: T -> int): seq<T> {
    if xs == [] then ys
    else if ys == [] then xs
    else if key(xs[0]) <= key(ys[0]) then [xs[0]] + Merge(xs[1..], ys, key)
    else [ys[0]] + Merge(xs, ys[1..], key)
  }

  lemma {:induction false} InsertMerge<T>(a: T, xs: seq<T>, ys: seq<T>, key: T -> int)
    ensures InsertSorted(a, Merge(xs, ys, key), key) == Merge(InsertSorted(a, xs, key), ys, key)
    decreases |xs| + |ys|
  {
    if ys == [] {
      assert Merge(xs, ys, key) == xs;
    } else if xs == [] {
      if key(ys[0]) < key(a) {
        InsertMerge(a, xs, ys[1..], key);
        assert [a] == InsertSorted(a, xs, key);
      } else {
        assert [a][1..] == [];
      }
    } else if key(xs[0]) <= key(ys[0]) {
      var m := Merge(xs[1..], ys, key);
      assert Merge(xs, ys, key) == [xs[0]] + m && ([xs[0]] + m)[1..] == m;
      if key(a) <= key(xs[0]) {
        assert ([a] + xs)[1..] == xs;
      } else {
        InsertMerge(a, xs[1..], ys, key);
        var r := [xs[0]] + InsertSorted(a, xs[1..], key);
        assert r[1..] == InsertSorted(a, xs[1..], key);
      }
    } else {
      var m := Merge(xs, ys[1..], key);
      assert Merge(xs, ys, key) == [ys[0]] + m && ([ys[0]] + m)[1..] == m;
      if key(a) <= key(ys[0]) {
        assert ([a] + xs)[1..] == xs;
      } else {
        InsertMerge(a, xs, ys[1..], key);
      }
    }
  }

  /** Sorting a concatenation merges the sorted parts. */
  lemma {:induction false} SortConcat<T>(xs: seq<T>, ys: seq<T>, key: T -> int)
    ensures Sort(xs + ys, key) == Merge(Sort(xs, key), Sort(ys, key), key)
  {
    if xs == [] {
      assert xs + ys == ys;
    } else {
      SortConcat(xs[1..], ys, key);
      assert (xs + ys)[1..] == xs[1..] + ys;
      InsertMerge(xs[0], Sort(xs[1..], key), Sort(ys, key), key);
    }
  }

  /** A list in order is left alone. */
  lemma {:induction false} SortSorted<T>(xs: seq<T>, key: T -> int)
    requires Sorted(xs, key)
    ensures Sort(xs, key) == xs
  {
    if xs != [] {
      SortSorted(xs[1..], key);
    }
  }

  lemma SortTake<T>(xs: seq<T>, key: T -> int, limit: nat)
    ensures Sort(Take(limit, Sort(xs, key)), key) == Take(limit, Sort(xs, key))
  {
    SortFacts(xs, key);
    SortSorted(Take(limit, Sort(xs, key)), key);
  }

  /** The first elements of a merge depend only on the first elements of its parts. */
  lemma {:induction false} TakeMerge<T>(limit: nat, p: nat, q: nat, xs: seq<T>, ys: seq<T>, key: T -> int)
    requires limit <= p && limit <= q
    ensures Take(limit, Merge(Take(p, xs), Take(q, ys), key)) == Take(limit, Merge(xs, ys, key))
    decreases limit
  {
    if limit > 0 && xs != [] && ys != [] {
      var xs', ys' := Take(p, xs), Take(q, ys);
      if key(xs[0]) <= key(ys[0]) {
        TakeMerge(limit - 1, p - 1, q, xs[1..], ys, key);
        assert xs'[1..] == Take(p - 1, xs[1..]);
        TakeCons(limit, xs[0], Merge(xs[1..], ys, key));
        TakeCons(limit, xs[0], Merge(xs'[1..], ys', key));
      } else {
        TakeMerge(limit - 1, p, q - 1, xs, ys[1..], key);
        assert ys'[1..] == Take(q - 1, ys[1..]);
        TakeCons(limit, ys[0], Merge(xs, ys[1..], key));
        TakeCons(limit, ys[0], Merge(xs', ys'[1..], key));
      }
    }
  }

  lemma TakeCons<T>(limit: nat, x: T, xs: seq<T>)
    requires limit > 0
    ensures Take(limit, [x] + xs) == [x] + Take(limit - 1, xs)
  {
  }

  lemma TakeTake<T>(limit: nat, p: nat, xs: seq<T>)
    requires limit <= p
    ensures Take(limit, Take(p, xs)) == Take(limit, xs)
  {
  }

  /** Two lists that sort to the same first elements may replace each other behind a common front,
      and the front may itself be cut to its first elements. */
  lemma CutFront<T>(limit: nat, front: seq<T>, rest: seq<T>, cut: seq<T>, key: T -> int)
    requires Take(limit, Sort(cut, key)) == Take(limit, Sort(rest, key))
    ensures Take(limit, Sort(Take(limit, Sort(front, key)) + cut, key)) == Take(limit, Sort(front + rest, key))
  {
    var first := Take(limit, Sort(front, key));
    SortConcat(first, cut, key);
    SortTake(front, key, limit);
    SortConcat(front, rest, key);
    TakeMerge(limit, limit, limit, first, Sort(cut, key), key);
    TakeTake(limit, limit, Sort(front, key));
    TakeMerge(limit, limit, limit, Sort(front, key), Sort(rest, key), key);
  }

  // ---- the main results ----

  lemma FourSources<T>(limit: nat, b: seq<T>, d: seq<T>, r: seq<T>, s: seq<T>, key: T -> int)
    ensures var (b', d', r', s') :=
        (Take(limit, Sort(b, key)), Take(limit, Sort(d, key)), Take(limit, Sort(r, key)), Take(limit, Sort(s, key)));
      Take(limit, Sort(b' + (d' + (r' + s')), key)) == Take(limit, Sort(b + (d + (r + s)), key))
  {
    var d', r', s' := Take(limit, Sort(d, key)), Take(limit, Sort(r, key)), Take(limit, Sort(s, key));
    SortTake(s, key, limit);
    TakeTake(limit, limit, Sort(s, key));
    CutFront(limit, r, s, s', key);
    CutFront(limit, d, r + s, r' + s', key);
    CutFront(limit, b, d + (r + s), d' + (r' + s'), key);
  }

  lemma Regroup<T>(b: seq<T>, d: seq<T>, r: seq<T>, s: seq<T>)
    ensures b + (d + (r + s)) == b + d + r + s
  {
  }

  /** Cutting each source to the limit first loses nothing: the feed is the newest `limit` of
      everything, in the order of sorting everything. */
  lemma FeedIsTopOfAll(t: Tables, user: Id, limit: nat)
    ensures Build(t, user, limit) == Take(limit, Sort(Everything(t, user), NewestFirst()))
  {
    var b, d := Items(t, user, BookingItem), Items(t, user, DocumentItem);
    var r, s := Items(t, user, RefundItem), Items(t, user, SupportItem);
    FourSources(limit, b, d, r, s, NewestFirst());
    Regroup(b, d, r, s);
    var b', d' := Source(t, user, BookingItem, limit), Source(t, user, DocumentItem, limit);
    var r', s' := Source(t, user, RefundItem, limit), Source(t, user, SupportItem, limit);
    Regroup(b', d', r', s');
  }

  /** A shorter feed is the beginning of a longer one. */
  lemma ShorterIsPrefix(t: Tables, user: Id, limit: nat, longer: nat)
    requires limit <= longer
    ensures Build(t, user, limit) == Take(limit, Build(t, user, longer))
  {
    FeedIsTopOfAll(t, user, limit);
    FeedIsTopOfAll(t, user, longer);
    TakeTake(limit, longer, Sort(Everything(t, user), NewestFirst()));
  }

  lemma {:induction false} ItemsAreOwned(t: Tables, user: Id, kind: Kind, n: nat, item: Item)
    requires n <= |RowsOf(t, kind)|
    ensures item in ItemsUpTo(t, user, kind, n) <==>
            item.kind == kind && item.id < n && Owns(t, user, kind, item.id)
            && item.createdAt == RowsOf(t, kind)[item.id].at
  {
    if n > 0 {
      ItemsAreOwned(t, user, kind, n - 1, item);
    }
  }

  lemma EverythingIsOwned(t: Tables, user: Id, item: Item)
    ensures item in Everything(t, user) <==>
            Owns(t, user, item.kind, item.id) && item.createdAt == RowsOf(t, item.kind)[item.id].at
  {
    ItemsAreOwned(t, user, BookingItem, |t.bookings|, item);
    ItemsAreOwned(t, user, DocumentItem, |t.documents|, item);
    ItemsAreOwned(t, user, RefundItem, |t.refunds|, item);
    ItemsAreOwned(t, user, SupportItem, |t.tickets|, item);
  }

  /** The item stands for a row of the user's, at its time; a document must not have been deleted. */
  predicate Visible(t: Tables, user: Id, item: Item) {
    match item.kind
    case BookingItem => item.id < |t.bookings| && t.bookings[item.id].owner == user
                        && item.createdAt == t.bookings[item.id].at
    case DocumentItem => item.id < |t.documents| && t.documents[item.id].owner == user
                         && !t.documents[item.id].deleted && item.createdAt == t.documents[item.id].at
    case RefundItem => item.id < |t.refunds| && t.refunds[item.id].owner == user
                       && item.createdAt == t.refunds[item.id].at
    case SupportItem => item.id < |t.tickets| && t.tickets[item.id].owner == user
                        && item.createdAt == t.tickets[item.id].at
  }

  /** Every visible row of the user is shown unless the feed is full of items at least as new; nothing
      else is shown. */
  lemma FeedShowsTheNewest(t: Tables, user: Id, limit: nat, item: Item)
    ensures item in Build(t, user, limit) ==> Visible(t, user, item)
    ensures Visible(t, user, item) ==>
              item in Build(t, user, limit) ||
              (|Build(t, user, limit)| == limit &&
               forall x | x in Build(t, user, limit) :: x.createdAt >= item.createdAt)
  {
    var all := Everything(t, user);
    FeedIsTopOfAll(t, user, limit);
    EverythingIsOwned(t, user, item);
    if item in Build(t, user, limit) {
      SortFacts(all, NewestFirst());
      assert item in multiset(Sort(all, NewestFirst()));
    }
    if item in all {
      var i :| 0 <= i < |all| && all[i] == item;
      TopIsLeast(all, NewestFirst(), limit, i);
    }
  }

  /** A feed is within its limit and newest first. */
  lemma FeedInOrder(t: Tables, user: Id, limit: nat)
    ensures |Build(t, user, limit)| <= limit
    ensures forall i, j | 0 <= i < j < |Build(t, user, limit)| ::
              Build(t, user, limit)[i].createdAt >= Build(t, user, limit)[j].createdAt
  {
    FeedIsTopOfAll(t, user, limit);
    var all := Everything(t, user);
    SortFacts(all, NewestFirst());
    var sorted := Sort(all, NewestFirst());
    forall i, j | 0 <= i < j < |Build(t, user, limit)|
      ensures Build(t, user, limit)[i].createdAt >= Build(t, user, limit)[j].createdAt
    {
      assert Build(t, user, limit)[i] == sorted[i] && Build(t, user, limit)[j] == sorted[j];
      assert NewestFirst()(sorted[i]) <= NewestFirst()(sorted[j]);
    }
  }

  // ---- read marks ----

  class Notifications {
    var tables: Tables
    /** Read states: one per user and notification. */
    var marks: set<(Id, Kind, nat)>

    constructor (t: Tables)
      ensures tables == t && marks == {}
    {
      tables, marks := t, {};
    }

    predicate IsRead(user: Id, item: Item)
      reads this
    {
      (user, item.kind, item.id) in marks
    }

    /** `list_user_notifications`: each item of the feed with its mark. */
    method List(user: Id, limit: nat) returns (shown: seq<(Item, bool)>)
      ensures |shown| == |Build(tables, user, limit)|
      ensures forall i | 0 <= i < |shown| ::
                shown[i] == (Build(tables, user, limit)[i], IsRead(user, Build(tables, user, limit)[i]))
    {
      var items := Build(tables, user, limit);
      shown := seq(|items|, i requires 0 <= i < |items| reads this => (items[i], IsRead(user, items[i])));
    }

    /** `mark_notification_read`. The mark is committed before the item is looked up among the newest
        25, so an older one is marked and still answered with NotFound. */
    method MarkRead(user: Id, kind: Kind, id: nat) returns (result: Result<Item>)
      modifies this`marks
      ensures marks == old(marks) + (if Owns(tables, user, kind, id) then {(user, kind, id)} else {})
      ensures (user, kind, id) in marks - old(marks) ==>
                exists at :: Visible(tables, user, Item(kind, id, at))
      ensures forall at | Visible(tables, user, Item(kind, id, at)) :: (user, kind, id) in marks
      ensures result.Ok? <==> exists item :: item in Build(tables, user, 25) && item.kind == kind && item.id == id
      ensures result.Ok? ==> IsRead(user, result.value) && result.value in Build(tables, user, 25)
      ensures result.Err? ==> result == Err(NotFound)
    {
      if !Owns(tables, user, kind, id) {
        forall item | item in Build(tables, user, 25) ensures !(item.kind == kind && item.id == id) {
          FeedShowsTheNewest(tables, user, 25, item);
        }
        return Err(NotFound);
      }
      marks := marks + {(user, kind, id)};
      assert Visible(tables, user, Item(kind, id, RowsOf(tables, kind)[id].at));
      var items := Build(tables, user, 25);
      for i := 0 to |items|
        invariant forall j | 0 <= j < i :: !(items[j].kind == kind && items[j].id == id)
      {
        if items[i].kind == kind && items[i].id == id {
          return Ok(items[i]);
        }
      }
      return Err(NotFound);
    }

    /** `mark_all_notifications_read`: afterwards every feed of the user up to that length is read, and
        no mark of another user or item has changed. */
    method MarkAllRead(user: Id, limit: nat) returns (items: seq<Item>)
      modifies this`marks
      ensures items == Build(tables, user, limit)
      ensures marks == old(marks) + set item | item in items :: (user, item.kind, item.id)
      ensures forall shorter: nat, item | shorter <= limit && item in Build(tables, user, shorter) :: IsRead(user, item)
    {
      items := Build(tables, user, limit);
      var added: set<(Id, Kind, nat)> := {};
      for i := 0 to |items|
        invariant added == (set item | item in items[..i] :: (user, item.kind, item.id))
      {
        assert items[..i + 1] == items[..i] + [items[i]];
        added := added + {(user, items[i].kind, items[i].id)};
      }
      assert items[..|items|] == items;
      marks := marks + added;
      forall shorter: nat, item | shorter <= limit && item in Build(tables, user, shorter)
        ensures IsRead(user, item)
      {
        ShorterIsPrefix(tables, user, shorter, limit);
        assert item in items;
      }
    }
  }
}
