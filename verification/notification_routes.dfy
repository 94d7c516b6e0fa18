/** The notification handlers (routes/notifications.js): the caller's
    notifications newest first, and marking one as read. */
module NotificationRoutes {
  import opened Common
  import opened NotificationModel
  import opened Database

  /** `Notification.find({ user })`: the owner's notifications, in store order. */
  function OwnedBy(ns: seq<Notification>, u: UserId): (r: seq<Notification>)
    ensures forall n :: n in r <==> n in ns && n.user == u
    ensures forall n :: multiset(r)[n] == if n.user == u then multiset(ns)[n] else 0
    ensures |r| <= |ns|
  {
    if ns == [] then []
    else
      assert ns == [ns[0]] + ns[1..];
      (if ns[0].user == u then [ns[0]] else []) + OwnedBy(ns[1..], u)
  }

  /** A notification no later than every one of an ordered list can be put
      in front of it. */
  lemma ChronologicalCons(n: Notification, rest: seq<Notification>)
    requires Chronological(rest)
    requires forall m :: m in rest ==> n.createdAt <= m.createdAt
    ensures Chronological([n] + rest)
  {
    var s := [n] + rest;
    forall i, j | 0 <= i < j < |s| ensures s[i].createdAt <= s[j].createdAt {
      if i == 0 {
        assert s[j] == rest[j - 1];
      } else {
        assert s[i] == rest[i - 1] && s[j] == rest[j - 1];
      }
    }
  }

  /** Keeping a subsequence keeps timestamp order. */
  lemma {:induction false} OwnedByChronological(ns: seq<Notification>, u: UserId)
    requires Chronological(ns)
    ensures Chronological(OwnedBy(ns, u))
  {
    if ns != [] {
      var tail := ns[1..];
      assert Chronological(tail) by {
        forall i, j | 0 <= i < j < |tail| ensures tail[i].createdAt <= tail[j].createdAt {
          assert tail[i] == ns[i + 1] && tail[j] == ns[j + 1];
        }
      }
      OwnedByChronological(tail, u);
      var rest := OwnedBy(tail, u);
      if ns[0].user == u {
        forall m | m in rest ensures ns[0].createdAt <= m.createdAt {
          var k :| 0 <= k < |tail| && tail[k] == m;
          assert ns[k + 1] == m;
        }
        ChronologicalCons(ns[0], rest);
      }
    }
  }

  function Reverse(s: seq<Notification>): (r: seq<Notification>)
    ensures |r| == |s|
    ensures forall i :: 0 <= i < |s| ==> r[i] == s[|s| - 1 - i]
    ensures multiset(r) == multiset(s)
  {
    if s == [] then []
    else
      assert s == [s[0]] + s[1..];
      Reverse(s[1..]) + [s[0]]
  }

  /** Timestamps never increase along the list. */
  predicate NewestFirst(ns: seq<Notification>) {
    forall i, j :: 0 <= i < j < |ns| ==> ns[i].createdAt >= ns[j].createdAt
  }

  /** `GET /`: exactly the caller's notifications, sorted by `createdAt`
      descending. Notifications with equal timestamps come latest-stored
      first. */
  function ListNotifications(db: Store, caller: UserId): (r: seq<Notification>)
    reads db
    ensures forall n :: n in r <==> n in db.notifications && n.user == caller
    ensures forall n :: multiset(r)[n] == if n.user == caller then multiset(db.notifications)[n] else 0
    ensures Chronological(db.notifications) ==> NewestFirst(r)
  {
    var owned := OwnedBy(db.notifications, caller);
    var r := Reverse(owned);
    assert forall n :: n in r <==> n in owned by {
      forall n ensures n in r <==> n in owned {
        assert n in r <==> multiset(r)[n] > 0;
        assert n in owned <==> multiset(owned)[n] > 0;
      }
    }
    if Chronological(db.notifications) then OwnedByChronological(db.notifications, caller); r else r
  }

  /** `Notification.findById(id)`: the position of the notification with
      this id, searching from `from`. */
  function FindFrom(ns: seq<Notification>, id: NotificationId, from: nat): (r: Option<nat>)
    requires from <= |ns|
    ensures r.Some? ==> from <= r.value < |ns| && ns[r.value].id == id
    ensures r.None? ==> forall i :: from <= i < |ns| ==> ns[i].id != id
    decreases |ns| - from
  {
    if from == |ns| then None
    else if ns[from].id == id then Some(from)
    else FindFrom(ns, id, from + 1)
  }

  function Find(ns: seq<Notification>, id: NotificationId): (r: Option<nat>)
    ensures r.Some? ==> r.value < |ns| && ns[r.value].id == id
    ensures r.None? <==> forall i :: 0 <= i < |ns| ==> ns[i].id != id
  {
    FindFrom(ns, id, 0)
  }

  /** `PUT /:id/read`: a missing notification gives 404, someone else's
      gives 401, and the owner's is marked read with nothing else changed. */
  function MarkReadRule(ns: seq<Notification>, caller: UserId, id: NotificationId): (r: Result<seq<Notification>>)
    ensures r == Err(NotFound) <==> forall i :: 0 <= i < |ns| ==> ns[i].id != id
    ensures r == Err(NotAuthorized) <==> Find(ns, id).Some? && ns[Find(ns, id).value].user != caller
    ensures r.Ok? ==> var i := Find(ns, id).value;
                      && ns[i].user == caller
                      && |r.value| == |ns| && r.value[i] == ns[i].(isRead := true)
                      && forall j :: 0 <= j < |ns| && j != i ==> r.value[j] == ns[j]
  {
    match Find(ns, id)
    case None => Err(NotFound)
    case Some(i) => if ns[i].user != caller then Err(NotAuthorized) else Ok(ns[i := ns[i].(isRead := true)])
  }

  /** Finding ignores the read flag. */
  lemma {:induction false} FindFromIgnoresRead(ns: seq<Notification>, ms: seq<Notification>, id: NotificationId, from: nat)
    requires from <= |ns| == |ms|
    requires forall j :: 0 <= j < |ns| ==> ms[j].id == ns[j].id
    ensures FindFrom(ms, id, from) == FindFrom(ns, id, from)
    decreases |ns| - from
  {
    if from < |ns| && ns[from].id != id {
      FindFromIgnoresRead(ns, ms, id, from + 1);
    }
  }

  /** Marking read twice is marking read once. */
  lemma MarkReadIdempotent(ns: seq<Notification>, caller: UserId, id: NotificationId)
    requires MarkReadRule(ns, caller, id).Ok?
    ensures MarkReadRule(MarkReadRule(ns, caller, id).value, caller, id) == MarkReadRule(ns, caller, id)
  {
    var ms := MarkReadRule(ns, caller, id).value;
    FindFromIgnoresRead(ns, ms, id, 0);
    var i := Find(ns, id).value;
    assert ms[i := ms[i].(isRead := true)] == ms;
  }

  /** Marking read keeps the store's timestamp order and distinct ids. */
  lemma MarkReadKeepsOrder(ns: seq<Notification>, caller: UserId, id: NotificationId)
    requires Chronological(ns) && DistinctIds(ns)
    requires MarkReadRule(ns, caller, id).Ok?
    ensures Chronological(MarkReadRule(ns, caller, id).value)
    ensures DistinctIds(MarkReadRule(ns, caller, id).value)
  {
    var ms := MarkReadRule(ns, caller, id).value;
    assert forall j :: 0 <= j < |ms| ==> ms[j].createdAt == ns[j].createdAt && ms[j].id == ns[j].id;
  }

  /** `PUT /:id/read` on the store. */
  method MarkRead(db: Store, caller: UserId, id: NotificationId) returns (r: Result<()>)
    requires db.Valid()
    modifies db
    ensures db.Valid()
    ensures db.users == old(db.users) && db.cars == old(db.cars) && db.bookings == old(db.bookings)
    ensures r.Err? ==> db.notifications == old(db.notifications)
                       && Err(r.error) == MarkReadRule(old(db.notifications), caller, id)
    ensures r.Ok? ==> MarkReadRule(old(db.notifications), caller, id) == Ok(db.notifications)
  {
    var outcome := MarkReadRule(db.notifications, caller, id);
    if outcome.Err? {
      return Err(outcome.error);
    }
    MarkReadKeepsOrder(db.notifications, caller, id);
    db.notifications := outcome.value;
    r := Ok(());
  }
}
