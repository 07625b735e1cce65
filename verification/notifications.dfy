/** The merge that the creator-notifications query applies to every fetch
    (its `select` callback): notifications not seen before are put in front
    of the cached list. The cache itself is a parameter: `cached` is what
    the query cache holds for this input, `None` when it holds nothing. */
module Notifications {
  import opened Wrappers

  datatype Follower = Follower(id: string, name: string, handle: Option<string>, avatarUrl: Option<string>)

  /** A follow notification; its `type` is always "follow" and is not stored. */
  datatype Notification = Notification(id: string, createdAt: string, follower: Follower)

  /** The query input; `None` in its place means the user is not signed in. */
  datatype QueryInput = QueryInput(userId: string, handle: Option<string>)

  /** `new Set(notifications.map(n => n.id))` */
  function Ids(notifications: seq<Notification>): set<string> {
    set n | n in notifications :: n.id
  }

  /** `incoming.filter(n => !ids.has(n.id))` */
  function WithoutIds(incoming: seq<Notification>, ids: set<string>): (r: seq<Notification>)
    ensures |r| <= |incoming|
    ensures forall n :: n in r <==> n in incoming && n.id !in ids
  {
    if incoming == [] then []
    else (if incoming[0].id !in ids then [incoming[0]] else []) + WithoutIds(incoming[1..], ids)
  }

  /** A single notification is kept exactly when its id is not excluded. */
  lemma WithoutIdsSingle(n: Notification, ids: set<string>)
    ensures WithoutIds([n], ids) == if n.id in ids then [] else [n]
  {
    assert [n][1..] == [];
  }

  /** Filtering a concatenation filters each part and keeps their order, so
      together with `WithoutIdsSingle` the kept notifications are the
      incoming ones in their incoming order, repetitions included. */
  lemma {:induction false} WithoutIdsAppend(xs: seq<Notification>, ys: seq<Notification>, ids: set<string>)
    ensures WithoutIds(xs + ys, ids) == WithoutIds(xs, ids) + WithoutIds(ys, ids)
  {
    if xs == [] {
      assert xs + ys == ys;
    } else {
      assert (xs + ys)[0] == xs[0];
      assert (xs + ys)[1..] == xs[1..] + ys;
      WithoutIdsAppend(xs[1..], ys, ids);
    }
  }

  /** The `select` callback. */
  function Select(input: Option<QueryInput>, cached: Option<seq<Notification>>, incoming: seq<Notification>): seq<Notification> {
    if input.None? then []
    else
      var existing := cached.GetOr([]);
      if |incoming| == 0 then existing
      else
        var unseen := WithoutIds(incoming, Ids(existing));
        if |unseen| == 0 then existing else unseen + existing
  }

  /** Filtering keeps every notification whose id is not excluded, in order
      and with repetitions: only the excluded ids are filtered, duplicates
      among the kept ones are not collapsed. */
  lemma {:induction false} WithoutIdsKeepsFresh(incoming: seq<Notification>, ids: set<string>)
    requires forall n :: n in incoming ==> n.id !in ids
    ensures WithoutIds(incoming, ids) == incoming
  {
    if incoming != [] {
      WithoutIdsKeepsFresh(incoming[1..], ids);
      assert [incoming[0]] + incoming[1..] == incoming;
    }
  }

  /** Filtering by ids that cover every incoming notification leaves nothing. */
  lemma {:induction false} WithoutIdsDropsSeen(incoming: seq<Notification>, ids: set<string>)
    requires forall n :: n in incoming ==> n.id in ids
    ensures WithoutIds(incoming, ids) == []
  {
    if incoming != [] {
      WithoutIdsDropsSeen(incoming[1..], ids);
    }
  }

  /** Signed out, the result is empty whatever arrives. */
  lemma SelectSignedOut(cached: Option<seq<Notification>>, incoming: seq<Notification>)
    ensures Select(None, cached, incoming) == []
  {
  }

  /** Signed in, the result is always the unseen incoming notifications
      followed by the whole cached list: the cached list is a suffix, the
      length is the sum, and an empty fetch returns the cache unchanged. */
  lemma SelectPrependsUnseen(input: QueryInput, cached: Option<seq<Notification>>, incoming: seq<Notification>)
    ensures var existing := cached.GetOr([]);
      var unseen := WithoutIds(incoming, Ids(existing));
      var r := Select(Some(input), cached, incoming);
      && r == unseen + existing
      && |r| == |unseen| + |existing|
      && r[|unseen|..] == existing
      && (incoming == [] ==> r == existing)
  {
    var existing := cached.GetOr([]);
    if incoming == [] {
      assert WithoutIds(incoming, Ids(existing)) == [];
    }
  }

  /** Nothing is invented and nothing cached is lost: every result element
      was fetched or cached, every cached element stays, and every element in
      front of the cached list has an id the cache did not hold. */
  lemma SelectKeepsCache(input: QueryInput, cached: Option<seq<Notification>>, incoming: seq<Notification>)
    ensures var existing := cached.GetOr([]);
      var r := Select(Some(input), cached, incoming);
      && (forall n :: n in r ==> n in incoming || n in existing)
      && (forall n :: n in existing ==> n in r)
      && (forall i :: 0 <= i < |r| - |existing| ==> r[i] in incoming && r[i].id !in Ids(existing))
  {
    SelectPrependsUnseen(input, cached, incoming);
  }

  /** Merging a list into a cache that holds that same list changes nothing. */
  lemma SelectSelf(input: QueryInput, notifications: seq<Notification>)
    ensures Select(Some(input), Some(notifications), notifications) == notifications
  {
    WithoutIdsDropsSeen(notifications, Ids(notifications));
  }

  /** Applying the same fetch to the merged cache a second time changes
      nothing: every fetched id is already cached. */
  lemma SelectIdempotent(input: QueryInput, cached: Option<seq<Notification>>, incoming: seq<Notification>)
    ensures var once := Select(Some(input), cached, incoming);
      Select(Some(input), Some(once), incoming) == once
  {
    var existing := cached.GetOr([]);
    var once := Select(Some(input), cached, incoming);
    SelectPrependsUnseen(input, cached, incoming);
    forall n | n in incoming ensures n.id in Ids(once) {
      if n.id !in Ids(existing) {
        assert n in WithoutIds(incoming, Ids(existing));
        assert n in once;
      } else {
        var m :| m in existing && m.id == n.id;
        assert m in once;
      }
    }
    WithoutIdsDropsSeen(incoming, Ids(once));
  }

  /** Into an empty cache the whole fetch is taken over as it arrived,
      repeated ids included. */
  lemma SelectIntoEmptyCache(input: QueryInput, incoming: seq<Notification>)
    ensures Select(Some(input), None, incoming) == incoming
    ensures Select(Some(input), Some([]), incoming) == incoming
  {
    assert Ids([]) == {};
    WithoutIdsKeepsFresh(incoming, {});
    assert incoming + [] == incoming;
  }
}
