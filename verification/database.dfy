/** The document store the route handlers read and write: one collection per
    model, each a map from document id to record, and the notifications in
    the order the store received them. Each handler's saves are modelled as
    assignments to these fields. */
module Database {
  import opened Common
  import opened CarModel
  import opened BookingModel
  import opened UserModel
  import opened NotificationModel

  /** The unique index on `email`. */
  predicate UniqueEmails(users: map<UserId, User>) {
    forall a, b :: a in users && b in users && a != b ==> users[a].email != users[b].email
  }

  /** Insertion order is timestamp order: the store stamps `createdAt` from a clock. */
  predicate Chronological(ns: seq<Notification>) {
    forall i, j :: 0 <= i < j < |ns| ==> ns[i].createdAt <= ns[j].createdAt
  }

  predicate DistinctIds(ns: seq<Notification>) {
    forall i, j :: 0 <= i < j < |ns| ==> ns[i].id != ns[j].id
  }

  class Store {
    var users: map<UserId, User>
    var cars: map<CarId, Car>
    var bookings: map<BookingId, Booking>
    var notifications: seq<Notification>
    var nextId: nat

    /** Ids already handed out are below `nextId`; every stored user and car
        passed its schema; emails are unique; notifications are in
        timestamp order with distinct ids. */
    ghost predicate Valid()
      reads this
    {
      && (forall id :: id in users ==> id < nextId)
      && (forall id :: id in cars ==> id < nextId)
      && (forall id :: id in bookings ==> id < nextId)
      && UniqueEmails(users)
      && (forall id :: id in users ==> RequiredPresent(users[id]))
      && (forall id :: id in cars ==> SchemaValid(cars[id]))
      && Chronological(notifications)
      && DistinctIds(notifications)
    }

    /** `req.user.role === 'admin'` for the authenticated caller. */
    predicate IsAdmin(caller: UserId)
      reads this
    {
      caller in users && users[caller].role == AdminRole
    }

    constructor ()
      ensures Valid()
      ensures users == map[] && cars == map[] && bookings == map[] && notifications == []
    {
      users, cars, bookings, notifications, nextId := map[], map[], map[], [], 0;
    }

    /** A new document id, distinct from every id in use. */
    method FreshId() returns (id: nat)
      requires Valid()
      modifies `nextId
      ensures Valid()
      ensures id == old(nextId) && nextId == id + 1
      ensures id !in users && id !in cars && id !in bookings
    {
      id := nextId;
      nextId := nextId + 1;
    }

    /** Saves a new user document under a fresh id. The unique index refuses
        an email some user already has, so the caller checks it first. */
    method AddUser(u: User) returns (id: UserId)
      requires Valid() && RequiredPresent(u)
      requires forall i :: i in users ==> users[i].email != u.email
      modifies this
      ensures Valid()
      ensures id !in old(users) && users == old(users)[id := u]
      ensures cars == old(cars) && bookings == old(bookings) && notifications == old(notifications)
    {
      id := FreshId();
      users := users[id := u];
    }

    /** Saves a new car document, already validated, under a fresh id. */
    method AddCar(c: Car) returns (id: CarId)
      requires Valid() && SchemaValid(c)
      modifies this
      ensures Valid()
      ensures id !in old(cars) && cars == old(cars)[id := c]
      ensures users == old(users) && bookings == old(bookings) && notifications == old(notifications)
    {
      id := FreshId();
      cars := cars[id := c];
    }
  }
}
