/** The restaurant endpoints. Writes require a role equal to "admin"
    ignoring case; reads are public. */
module Restaurants {
  import opened Common
  import opened Store

  datatype RestaurantCreate = RestaurantCreate(
    name: string,
    description: Option<string>,
    address: string,
    isOpen: bool)

  /** `description` is nullable, so it may be explicitly set to null. */
  datatype RestaurantUpdate = RestaurantUpdate(
    name: Patch<string>,
    description: Patch<Option<string>>,
    address: Patch<string>,
    isOpen: Patch<bool>)

  function CreateRestaurant(s: Store, caller: User, payload: RestaurantCreate): (r: Reply<Restaurant>)
    ensures !IsAdminIgnoringCase(caller.role) ==> r == Fail(s, Forbidden, "Admin access required")
    ensures r.result.Ok? <==> IsAdminIgnoringCase(caller.role)
    ensures r.result.Ok? ==>
      var rest := r.result.value;
      && rest == Restaurant(rest.id, payload.name, payload.description, payload.address, payload.isOpen)
      && r.store == s.(restaurants := s.restaurants[rest.id := rest], nextId := s.nextId + 1)
    ensures r.result.Ok? && s.Valid() ==>
      r.result.value.id !in s.restaurants && |r.store.restaurants| == |s.restaurants| + 1 && r.store.Valid()
  {
    if !IsAdminIgnoringCase(caller.role) then Fail(s, Forbidden, "Admin access required")
    else
      var rest := Restaurant(s.nextId, payload.name, payload.description, payload.address, payload.isOpen);
      Reply(Ok(rest), s.(restaurants := s.restaurants[rest.id := rest], nextId := s.nextId + 1))
  }

  function ListRestaurants(s: Store): (r: set<Restaurant>)
    ensures forall k :: k in s.restaurants ==> s.restaurants[k] in r
    ensures forall x :: x in r ==> exists k :: k in s.restaurants && s.restaurants[k] == x
  {
    s.restaurants.Values
  }

  function GetRestaurant(s: Store, id: Id): (r: Result<Restaurant>)
    ensures r.Ok? <==> id in s.restaurants
    ensures r.Ok? ==> r.value == s.restaurants[id]
    ensures r.Err? ==> r.error.code == NotFound
  {
    if id !in s.restaurants then Err(HttpError(NotFound, "Restaurant not found"))
    else Ok(s.restaurants[id])
  }

  /** The restaurant with only the supplied fields overwritten. */
  function Patched(rest: Restaurant, p: RestaurantUpdate): (r: Restaurant)
    ensures r.id == rest.id
    ensures p.name.Unset? ==> r.name == rest.name
    ensures p.description.Unset? ==> r.description == rest.description
    ensures p.address.Unset? ==> r.address == rest.address
    ensures p.isOpen.Unset? ==> r.isOpen == rest.isOpen
    ensures p.name.Given? ==> r.name == p.name.value
    ensures p.description.Given? ==> r.description == p.description.value
    ensures p.address.Given? ==> r.address == p.address.value
    ensures p.isOpen.Given? ==> r.isOpen == p.isOpen.value
  {
    rest.(name := Apply(p.name, rest.name),
          description := Apply(p.description, rest.description),
          address := Apply(p.address, rest.address),
          isOpen := Apply(p.isOpen, rest.isOpen))
  }

  function UpdateRestaurant(s: Store, caller: User, id: Id, payload: RestaurantUpdate): (r: Reply<Restaurant>)
    ensures !IsAdminIgnoringCase(caller.role) ==> r == Fail(s, Forbidden, "Admin access required")
    ensures IsAdminIgnoringCase(caller.role) && id !in s.restaurants ==> r == Fail(s, NotFound, "Restaurant not found")
    ensures r.result.Ok? <==> IsAdminIgnoringCase(caller.role) && id in s.restaurants
    ensures r.result.Ok? ==>
      && r.result.value == Patched(s.restaurants[id], payload)
      && r.store == s.(restaurants := s.restaurants[id := r.result.value])
  {
    if !IsAdminIgnoringCase(caller.role) then Fail(s, Forbidden, "Admin access required")
    else if id !in s.restaurants then Fail(s, NotFound, "Restaurant not found")
    else
      var rest := Patched(s.restaurants[id], payload);
      Reply(Ok(rest), s.(restaurants := s.restaurants[id := rest]))
  }

  /** Deletes a restaurant. One that an order or a menu still refers to
      cannot be deleted: the failed commit is answered 500 with nothing
      changed. */
  function DeleteRestaurant(s: Store, caller: User, id: Id): (r: Reply<string>)
    ensures !IsAdminIgnoringCase(caller.role) ==> r == Fail(s, Forbidden, "Admin access required")
    ensures IsAdminIgnoringCase(caller.role) && id !in s.restaurants ==> r == Fail(s, NotFound, "Restaurant not found")
    ensures IsAdminIgnoringCase(caller.role) && id in s.restaurants && RestaurantReferenced(s, id) ==>
      r == Fail(s, ServerError, InternalError)
    ensures r.result.Ok? <==> IsAdminIgnoringCase(caller.role) && id in s.restaurants && !RestaurantReferenced(s, id)
    ensures r.result.Ok? ==> r.store == s.(restaurants := s.restaurants - {id})
  {
    if !IsAdminIgnoringCase(caller.role) then Fail(s, Forbidden, "Admin access required")
    else if id !in s.restaurants then Fail(s, NotFound, "Restaurant not found")
    else if RestaurantReferenced(s, id) then Fail(s, ServerError, InternalError)
    else Reply(Ok("Restaurant deleted successfully"), s.(restaurants := s.restaurants - {id}))
  }

  /** An update that supplies nothing leaves the store as it was. */
  lemma EmptyUpdateKeepsStore(s: Store, caller: User, id: Id)
    requires IsAdminIgnoringCase(caller.role) && id in s.restaurants
    ensures UpdateRestaurant(s, caller, id, RestaurantUpdate(Unset, Unset, Unset, Unset)).store == s
  {
    var rest := s.restaurants[id];
    assert Patched(rest, RestaurantUpdate(Unset, Unset, Unset, Unset)) == rest;
    assert s.restaurants[id := rest] == s.restaurants;
  }

  /** A created restaurant is found by its id and listed. */
  lemma CreatedRestaurantFound(s: Store, caller: User, payload: RestaurantCreate)
    requires CreateRestaurant(s, caller, payload).result.Ok?
    ensures var r := CreateRestaurant(s, caller, payload);
      GetRestaurant(r.store, r.result.value.id) == Ok(r.result.value)
    ensures var r := CreateRestaurant(s, caller, payload);
      r.result.value in ListRestaurants(r.store)
  {
  }

  /** A successful update is what the next read returns. */
  lemma UpdatedRestaurantRead(s: Store, caller: User, id: Id, payload: RestaurantUpdate)
    requires UpdateRestaurant(s, caller, id, payload).result.Ok?
    ensures GetRestaurant(UpdateRestaurant(s, caller, id, payload).store, id)
            == Ok(Patched(s.restaurants[id], payload))
  {
  }

  /** A deleted restaurant is not found afterwards; every other one is found
      as before. */
  lemma DeletedRestaurantNotFound(s: Store, caller: User, id: Id)
    requires DeleteRestaurant(s, caller, id).result.Ok?
    ensures GetRestaurant(DeleteRestaurant(s, caller, id).store, id).Err?
    ensures GetRestaurant(DeleteRestaurant(s, caller, id).store, id).error.code == NotFound
    ensures forall k :: k != id ==> GetRestaurant(DeleteRestaurant(s, caller, id).store, k) == GetRestaurant(s, k)
  {
  }

  /** A new restaurant keeps every reference resolved. */
  lemma CreateRestaurantKeepsLinked(s: Store, caller: User, payload: RestaurantCreate)
    requires s.Linked()
    ensures CreateRestaurant(s, caller, payload).store.Linked()
  {
  }

  /** An update rewrites one restaurant in place: validity and references
      are kept. */
  lemma UpdateRestaurantKeepsInvariants(s: Store, caller: User, id: Id, payload: RestaurantUpdate)
    ensures s.Valid() ==> UpdateRestaurant(s, caller, id, payload).store.Valid()
    ensures s.Linked() ==> UpdateRestaurant(s, caller, id, payload).store.Linked()
  {
    if UpdateRestaurant(s, caller, id, payload).result.Ok? {
      RestaurantReplaced(s, id, Patched(s.restaurants[id], payload));
    }
  }

  /** A delete keeps the store valid, and since a restaurant that an order
      or a menu refers to is refused, no reference is left dangling. */
  lemma DeleteRestaurantKeepsInvariants(s: Store, caller: User, id: Id)
    ensures s.Valid() ==> DeleteRestaurant(s, caller, id).store.Valid()
    ensures s.Linked() ==> DeleteRestaurant(s, caller, id).store.Linked()
  {
    RestaurantRemoved(s, id);
  }
}
