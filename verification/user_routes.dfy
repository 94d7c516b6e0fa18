/** The wishlist handlers (routes/users.js): the toggle that removes every
    occurrence of a car or appends it, and the populated listing. The same
    list rule is reused by the car list page. */
module UserRoutes {
  import opened Common
  import opened CarModel
  import opened UserModel
  import opened Database

  /** `filter(item => item.toString() !== carId)`: the entries other than `x`, in order. */
  function Remove(w: seq<CarId>, x: CarId): (r: seq<CarId>)
    ensures x !in r
    ensures forall y :: y != x ==> (y in r <==> y in w)
  {
    if w == [] then []
    else if w[0] == x then Remove(w[1..], x)
    else [w[0]] + Remove(w[1..], x)
  }

  /** Removing distributes over concatenation, so every other entry keeps its
      relative order. */
  lemma {:induction false} RemoveConcat(a: seq<CarId>, b: seq<CarId>, x: CarId)
    ensures Remove(a + b, x) == Remove(a, x) + Remove(b, x)
  {
    if a == [] {
      assert a + b == b;
    } else {
      assert (a + b)[1..] == a[1..] + b;
      RemoveConcat(a[1..], b, x);
    }
  }

  /** A list without `x` is left as it is. */
  lemma {:induction false} RemoveAbsent(w: seq<CarId>, x: CarId)
    requires x !in w
    ensures Remove(w, x) == w
  {
    if w != [] {
      assert w == [w[0]] + w[1..];
      RemoveAbsent(w[1..], x);
    }
  }

  /** The toggle: drop every occurrence when present, otherwise append. */
  function Toggle(w: seq<CarId>, x: CarId): (r: seq<CarId>)
    ensures x in r <==> x !in w
    ensures forall y :: y != x ==> (y in r <==> y in w)
  {
    if x in w then Remove(w, x) else w + [x]
  }

  /** A toggle keeps the other entries and their order: removing the toggled
      car afterwards gives the same list as removing it before. */
  lemma TogglePreservesOthers(w: seq<CarId>, x: CarId)
    ensures Remove(Toggle(w, x), x) == Remove(w, x)
  {
    if x !in w {
      RemoveConcat(w, [x], x);
      assert Remove([x], x) == [];
    } else {
      RemoveAbsent(Remove(w, x), x);
    }
  }

  /** An absent car is appended at the end. */
  lemma ToggleAppendsAbsent(w: seq<CarId>, x: CarId)
    requires x !in w
    ensures Toggle(w, x) == w + [x] && Toggle(w, x)[|w|] == x
  {
  }

  /** Toggling twice restores membership; for a car not in the list it
      restores the list itself. */
  lemma ToggleTwice(w: seq<CarId>, x: CarId)
    ensures x in Toggle(Toggle(w, x), x) <==> x in w
    ensures x !in w ==> Toggle(Toggle(w, x), x) == w
  {
    if x !in w {
      RemoveConcat(w, [x], x);
      RemoveAbsent(w, x);
      assert Remove([x], x) == [];
    }
  }

  /** `PUT /wishlist/:carId`: the caller's wishlist is toggled and saved.
      The result says whether the car was added. A caller whose document is
      gone makes the handler throw. The car id is not checked against the
      catalogue. */
  method ToggleWishlist(db: Store, caller: UserId, car: CarId) returns (r: Result<bool>)
    requires db.Valid()
    modifies db
    ensures db.Valid()
    ensures db.cars == old(db.cars) && db.bookings == old(db.bookings)
    ensures db.notifications == old(db.notifications)
    ensures r == Err(ServerError) <==> caller !in old(db.users)
    ensures r.Err? ==> db.users == old(db.users)
    ensures r.Ok? ==> var u := old(db.users)[caller];
                      && r.value == (car !in u.wishlist)
                      && db.users == old(db.users)[caller := u.(wishlist := Toggle(u.wishlist, car))]
  {
    if caller !in db.users {
      return Err(ServerError);
    }
    var u := db.users[caller];
    var added := car !in u.wishlist;
    db.users := db.users[caller := u.(wishlist := Toggle(u.wishlist, car))];
    assert UniqueEmails(db.users) by {
      forall a, b | a in db.users && b in db.users && a != b
        ensures db.users[a].email != db.users[b].email
      {
        assert db.users[a].email == old(db.users)[a].email;
        assert db.users[b].email == old(db.users)[b].email;
      }
    }
    r := Ok(added);
  }

  /** `populate('wishlist')`: each stored id replaced by its car; ids whose
      car no longer exists are dropped. */
  function Populate(ids: seq<CarId>, cars: map<CarId, Car>): (r: seq<Car>)
    ensures |r| <= |ids|
    ensures forall c :: c in r ==> exists i :: 0 <= i < |ids| && ids[i] in cars && cars[ids[i]] == c
    ensures forall i :: 0 <= i < |ids| && ids[i] in cars ==> cars[ids[i]] in r
  {
    if ids == [] then []
    else if ids[0] in cars then [cars[ids[0]]] + Populate(ids[1..], cars)
    else Populate(ids[1..], cars)
  }

  /** One entry populates to its car when the car exists, to nothing
      otherwise. */
  lemma PopulateSingle(x: CarId, cars: map<CarId, Car>)
    ensures Populate([x], cars) == if x in cars then [cars[x]] else []
  {
    assert [x][1..] == [];
  }

  /** Populating keeps the entries' order: a list populates piecewise. */
  lemma {:induction false} PopulateConcat(a: seq<CarId>, b: seq<CarId>, cars: map<CarId, Car>)
    ensures Populate(a + b, cars) == Populate(a, cars) + Populate(b, cars)
  {
    if a == [] {
      assert a + b == b;
    } else {
      assert (a + b)[1..] == a[1..] + b;
      PopulateConcat(a[1..], b, cars);
    }
  }

  /** After a car is deleted, a wishlist that still holds its id populates
      as if the id had been removed from the wishlist. */
  lemma {:induction false} PopulateAfterDelete(ids: seq<CarId>, cars: map<CarId, Car>, x: CarId)
    ensures Populate(ids, cars - {x}) == Populate(Remove(ids, x), cars)
  {
    if ids != [] {
      PopulateAfterDelete(ids[1..], cars, x);
      if ids[0] != x {
        assert ([ids[0]] + Remove(ids[1..], x))[1..] == Remove(ids[1..], x);
      }
    }
  }

  /** When every listed car exists, the listing is the stored entries in
      stored order. */
  lemma {:induction false} PopulateAllPresent(ids: seq<CarId>, cars: map<CarId, Car>)
    requires forall i :: 0 <= i < |ids| ==> ids[i] in cars
    ensures |Populate(ids, cars)| == |ids|
    ensures forall i :: 0 <= i < |ids| ==> Populate(ids, cars)[i] == cars[ids[i]]
  {
    if ids != [] {
      PopulateAllPresent(ids[1..], cars);
    }
  }

  /** `GET /wishlist`. */
  function GetWishlist(db: Store, caller: UserId): (r: Result<seq<Car>>)
    reads db
    ensures r.Ok? <==> caller in db.users
    ensures r.Err? ==> r.error == ServerError
    ensures r.Ok? ==> |r.value| <= |db.users[caller].wishlist|
    ensures r.Ok? ==> forall c :: c in r.value <==>
              exists i :: 0 <= i < |db.users[caller].wishlist| && db.users[caller].wishlist[i] in db.cars
                          && db.cars[db.users[caller].wishlist[i]] == c
  {
    if caller in db.users then Ok(Populate(db.users[caller].wishlist, db.cars)) else Err(ServerError)
  }
}
