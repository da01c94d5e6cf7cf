/**
 * The JSON document store the API handlers talk to (json-server on port
 * 3001), reduced to its three collections held in memory, in insertion
 * order, with the REST operations the handlers use: GET by id, POST
 * (append), PATCH (update one record) and DELETE by id.
 *
 * A GET, PATCH or DELETE of an id that is not stored is a 404, which axios
 * turns into an exception; every handler turns that into a 500.
 *
 * Ids are looked up as exact text. The handlers write an id into the URL
 * path unencoded, so this is what the store does only for ids without `?`,
 * `#`, `/` or `%`.
 */
module DocumentStore {
  import opened Types
  import opened Seqs

  /** Position of the record `GET /users/{id}` answers with. */
  function UserIndex(users: seq<User>, id: Id): (r: Option<nat>)
    ensures r.Some? ==> r.value < |users| && users[r.value].id == id
    ensures r.Some? ==> forall j :: 0 <= j < r.value ==> users[j].id != id
    ensures r.None? <==> forall j :: 0 <= j < |users| ==> users[j].id != id
  {
    FirstIndex(users, (u: User) => u.id == id)
  }

  /** Position of the record `GET /orders/{id}` answers with. */
  function OrderIndex(orders: seq<Order>, id: Id): (r: Option<nat>)
    ensures r.Some? ==> r.value < |orders| && orders[r.value].id == id
    ensures r.Some? ==> forall j :: 0 <= j < r.value ==> orders[j].id != id
    ensures r.None? <==> forall j :: 0 <= j < |orders| ==> orders[j].id != id
  {
    FirstIndex(orders, (o: Order) => o.id == id)
  }

  /** `GET /orders/{id}`. */
  function OrderById(orders: seq<Order>, id: Id): (r: Option<Order>)
    ensures r.Some? <==> exists j :: 0 <= j < |orders| && orders[j].id == id
    ensures r.Some? ==> r.value in orders && r.value.id == id
  {
    var i := OrderIndex(orders, id);
    if i.None? then None else Some(orders[i.value])
  }

  /** Replacing a record by one with the same id leaves every lookup by id where it was. */
  lemma {:induction false} OrderIndexAfterPatch(orders: seq<Order>, i: nat, o: Order, id: Id)
    requires i < |orders| && o.id == orders[i].id
    ensures OrderIndex(orders[i := o], id) == OrderIndex(orders, id)
  {
    var after := orders[i := o];
    assert forall j :: 0 <= j < |orders| ==> (after[j].id == id <==> orders[j].id == id);
    var r, s := OrderIndex(after, id), OrderIndex(orders, id);
    if r.Some? && s.Some? {
      assert !(r.value < s.value) && !(s.value < r.value);
    }
  }

  /**
   * `DELETE /users/{id}`: what is left of the collection. The record
   * `GET /users/{id}` would answer with is removed, and only that one; the
   * others keep their order.
   */
  function WithoutUser(users: seq<User>, id: Id): (r: seq<User>)
    requires UserIndex(users, id).Some?
    ensures var i := UserIndex(users, id).value;
      && |r| == |users| - 1
      && (forall j :: 0 <= j < i ==> r[j] == users[j])
      && (forall j :: i <= j < |r| ==> r[j] == users[j + 1])
  {
    var i := UserIndex(users, id).value;
    users[..i] + users[i + 1..]
  }

  /** Deleting one user leaves every other id answered by the same record as before. */
  lemma {:induction false} DeleteKeepsOtherLookups(users: seq<User>, id: Id, other: Id)
    requires UserIndex(users, id).Some? && other != id
    ensures var r := WithoutUser(users, id);
      && (UserIndex(r, other).Some? <==> UserIndex(users, other).Some?)
      && (UserIndex(r, other).Some? ==> r[UserIndex(r, other).value] == users[UserIndex(users, other).value])
  {
    var r := WithoutUser(users, id);
    var i := UserIndex(users, id).value;
    var k := UserIndex(users, other);
    if k.None? {
      forall j | 0 <= j < |r|
        ensures r[j].id != other
      {
        if j >= i {
          assert r[j] == users[j + 1];
        }
      }
    } else {
      assert k.value != i;
      var km := if k.value < i then k.value else k.value - 1;
      assert r[km] == users[k.value];
      forall j | 0 <= j < km
        ensures r[j].id != other
      {
        if j >= i {
          assert r[j] == users[j + 1];
        }
      }
      var m := UserIndex(r, other);
      assert m.Some? && m.value <= km;
      assert m.value == km;
    }
  }

  /** No two users share an id. */
  predicate UniqueIds(users: seq<User>)
  {
    forall i, j :: 0 <= i < j < |users| ==> users[i].id != users[j].id
  }

  /** When ids are unique, deleting an id removes every user with it, and ids stay unique. */
  lemma {:induction false} DeleteUniqueId(users: seq<User>, id: Id)
    requires UniqueIds(users) && UserIndex(users, id).Some?
    ensures forall j :: 0 <= j < |WithoutUser(users, id)| ==> WithoutUser(users, id)[j].id != id
    ensures UniqueIds(WithoutUser(users, id))
  {
    var r := WithoutUser(users, id);
    var i := UserIndex(users, id).value;
    forall j | 0 <= j < |r|
      ensures r[j].id != id
    {
      if j >= i {
        assert r[j] == users[j + 1];
      }
    }
    forall a, b | 0 <= a < b < |r|
      ensures r[a].id != r[b].id
    {
      var a', b' := if a < i then a else a + 1, if b < i then b else b + 1;
      assert r[a] == users[a'] && r[b] == users[b'] && a' < b';
    }
  }

  class Store {
    var users: seq<User>
    var orders: seq<Order>
    var deliveries: seq<Delivery>

    constructor (users: seq<User>, orders: seq<Order>, deliveries: seq<Delivery>)
      ensures this.users == users && this.orders == orders && this.deliveries == deliveries
    {
      this.users := users;
      this.orders := orders;
      this.deliveries := deliveries;
    }

    /** `PATCH /orders/{id}` of the record at position `i`. */
    method PatchOrder(i: nat, patched: Order)
      requires i < |orders|
      modifies this
      ensures orders == old(orders)[i := patched]
      ensures users == old(users) && deliveries == old(deliveries)
    {
      orders := orders[i := patched];
    }

    /** `POST /orders`. */
    method PostOrder(o: Order)
      modifies this
      ensures orders == old(orders) + [o]
      ensures users == old(users) && deliveries == old(deliveries)
    {
      orders := orders + [o];
    }

    /** `POST /deliveries`. */
    method PostDelivery(d: Delivery)
      modifies this
      ensures deliveries == old(deliveries) + [d]
      ensures users == old(users) && orders == old(orders)
    {
      deliveries := deliveries + [d];
    }

    /** `POST /users`. */
    method PostUser(u: User)
      modifies this
      ensures users == old(users) + [u]
      ensures orders == old(orders) && deliveries == old(deliveries)
    {
      users := users + [u];
    }

    /** `DELETE /users/{id}`; `found` is false for the 404 of an unknown id. */
    method DeleteUser(id: Id) returns (found: bool)
      modifies this
      ensures found <==> UserIndex(old(users), id).Some?
      ensures users == if found then WithoutUser(old(users), id) else old(users)
      ensures orders == old(orders) && deliveries == old(deliveries)
    {
      found := UserIndex(users, id).Some?;
      if found {
        users := WithoutUser(users, id);
      }
    }
  }
}
