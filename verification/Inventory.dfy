/**
 The reservation store of app/platform/inventory.py: stock per SKU, and reservations keyed by the
 caller's idempotency key.
 */
module Inventory {
  import opened Wrappers

  datatype Stock = Stock(available: int, version: nat)

  datatype ReservationStatus = Reserved | Released

  datatype Reservation = Reservation(user: string, sku: string, quantity: int, status: ReservationStatus, version: nat)

  datatype Store = Store(stock: map<string, Stock>, reservations: map<string, Reservation>)

  datatype InventoryError =
    | ReservationInvalid | KeyConflict | StockInsufficient | InventoryBusy | ReservationNotFound

  predicate Acceptable(quantity: int, key: string)
  {
    1 <= quantity <= 100 && key != "" && |key| <= 255
  }

  function ReserveTx(s: Store, sku: string, quantity: int, key: string, user: string): (Store, Result<Reservation, InventoryError>)
  {
    if key in s.reservations then
      var old_ := s.reservations[key];
      (s, if old_.sku != sku || old_.quantity != quantity || old_.user != user then Err(KeyConflict) else Ok(old_))
    else if sku !in s.stock || s.stock[sku].available < quantity then (s, Err(StockInsufficient))
    else
      var row := s.stock[sku];
      var r := Reservation(user, sku, quantity, Reserved, 1);
      (Store(s.stock[sku := Stock(row.available - quantity, row.version + 1)], s.reservations[key := r]), Ok(r))
  }

  function ReleaseTx(s: Store, key: string, user: string): (Store, Result<Reservation, InventoryError>)
  {
    if key !in s.reservations || s.reservations[key].user != user then (s, Err(ReservationNotFound))
    else
      var row := s.reservations[key];
      if row.status == Released then (s, Ok(row))
      else
        var r := row.(status := Released, version := row.version + 1);
        var stock := if row.sku in s.stock
          then s.stock[row.sku := Stock(s.stock[row.sku].available + row.quantity, s.stock[row.sku].version + 1)] else s.stock;
        (Store(stock, s.reservations[key := r]), Ok(r))
  }

  /** Other users' reservations read as not found. */
  function StatusOf(s: Store, key: string, user: string): Option<Reservation>
  {
    if key in s.reservations && s.reservations[key].user == user then Some(s.reservations[key]) else None
  }

  class InventorySandbox {
    var stock: map<string, Stock>
    var reservations: map<string, Reservation>

    ghost function Contents(): Store
      reads this
    {
      Store(stock, reservations)
    }

    constructor ()
      ensures Contents() == Store(map["DEMO-SKU" := Stock(100, 1)], map[])
    {
      stock, reservations := map["DEMO-SKU" := Stock(100, 1)], map[];
    }

    /** Twelve attempts; the first `lost` are rolled back by a concurrent insertion. */
    method Reserve(sku: string, quantity: int, key: string, user: string, lost: nat) returns (r: Result<Reservation, InventoryError>)
      modifies this
      ensures !Acceptable(quantity, key) ==> r == Err(ReservationInvalid) && Contents() == old(Contents())
      ensures Acceptable(quantity, key) && lost >= 12 ==> r == Err(InventoryBusy) && Contents() == old(Contents())
      ensures Acceptable(quantity, key) && lost < 12 ==> (Contents(), r) == ReserveTx(old(Contents()), sku, quantity, key, user)
    {
      if quantity < 1 || quantity > 100 || key == "" || |key| > 255 {
        return Err(ReservationInvalid);
      }
      for attempt := 0 to 12
        invariant Contents() == old(Contents()) && attempt <= lost
      {
        if attempt >= lost {
          if key in reservations {
            var old_ := reservations[key];
            if old_.sku != sku || old_.quantity != quantity || old_.user != user {
              return Err(KeyConflict);
            }
            return Ok(old_);
          }
          if sku !in stock || stock[sku].available < quantity {
            return Err(StockInsufficient);
          }
          stock := stock[sku := Stock(stock[sku].available - quantity, stock[sku].version + 1)];
          var value := Reservation(user, sku, quantity, Reserved, 1);
          reservations := reservations[key := value];
          return Ok(value);
        }
      }
      return Err(InventoryBusy);
    }

    method Release(key: string, user: string) returns (r: Result<Reservation, InventoryError>)
      modifies this
      ensures (Contents(), r) == ReleaseTx(old(Contents()), key, user)
    {
      if key !in reservations || reservations[key].user != user {
        return Err(ReservationNotFound);
      }
      var row := reservations[key];
      if row.status == Released {
        return Ok(row);
      }
      var value := row.(status := Released, version := row.version + 1);
      reservations := reservations[key := value];
      if row.sku in stock {
        stock := stock[row.sku := Stock(stock[row.sku].available + row.quantity, stock[row.sku].version + 1)];
      }
      return Ok(value);
    }
  }

  // ----- conservation -----

  function HeldBy(r: Reservation, sku: string): int
  {
    if r.sku == sku && r.status == Reserved then r.quantity else 0
  }

  /** The quantity of a SKU that the given reservations still hold. */
  ghost function Held(rs: map<string, Reservation>, keys: set<string>, sku: string): int
    requires keys <= rs.Keys
  {
    if keys == {} then 0
    else
      var k :| k in keys;
      HeldBy(rs[k], sku) + Held(rs, keys - {k}, sku)
  }

  lemma {:induction false} HeldSplits(rs: map<string, Reservation>, keys: set<string>, sku: string, k: string)
    requires k in keys && keys <= rs.Keys
    ensures Held(rs, keys, sku) == HeldBy(rs[k], sku) + Held(rs, keys - {k}, sku)
    decreases |keys|
  {
    var first :| first in keys && Held(rs, keys, sku) == HeldBy(rs[first], sku) + Held(rs, keys - {first}, sku);
    if first != k {
      HeldSplits(rs, keys - {first}, sku, k);
      HeldSplits(rs, keys - {k}, sku, first);
      assert keys - {first} - {k} == keys - {k} - {first};
    }
  }

  lemma {:induction false} HeldFrame(rs: map<string, Reservation>, rs': map<string, Reservation>, keys: set<string>, sku: string)
    requires keys <= rs.Keys && keys <= rs'.Keys
    requires forall k :: k in keys ==> HeldBy(rs[k], sku) == HeldBy(rs'[k], sku)
    ensures Held(rs, keys, sku) == Held(rs', keys, sku)
    decreases |keys|
  {
    if keys != {} {
      var k :| k in keys && Held(rs, keys, sku) == HeldBy(rs[k], sku) + Held(rs, keys - {k}, sku);
      HeldFrame(rs, rs', keys - {k}, sku);
      HeldSplits(rs', keys, sku, k);
    }
  }

  /** Adding or replacing one reservation changes the held quantity by its own difference. */
  lemma HeldUpdate(rs: map<string, Reservation>, key: string, r: Reservation, sku: string)
    ensures var rs' := rs[key := r];
      Held(rs', rs'.Keys, sku) ==
      Held(rs, rs.Keys, sku) + HeldBy(r, sku) - if key in rs then HeldBy(rs[key], sku) else 0
  {
    var rs' := rs[key := r];
    HeldSplits(rs', rs'.Keys, sku, key);
    assert rs'.Keys - {key} == rs.Keys - {key};
    HeldFrame(rs, rs', rs.Keys - {key}, sku);
    if key in rs {
      HeldSplits(rs, rs.Keys, sku, key);
    } else {
      assert rs.Keys - {key} == rs.Keys;
    }
  }

  function AvailableOf(s: Store, sku: string): int
  {
    if sku in s.stock then s.stock[sku].available else 0
  }

  /** On the shelf plus still reserved. */
  ghost function Total(s: Store, sku: string): int
  {
    AvailableOf(s, sku) + Held(s.reservations, s.reservations.Keys, sku)
  }

  predicate StoreOk(s: Store)
  {
    && (forall sku :: sku in s.stock ==> 0 <= s.stock[sku].available)
    && (forall k :: k in s.reservations ==> s.reservations[k].sku in s.stock && 1 <= s.reservations[k].quantity <= 100)
  }

  /** Reservations stay, keep their content, and a released one stays released. */
  predicate ReservationEvolves(a: Reservation, b: Reservation)
  {
    && a.user == b.user && a.sku == b.sku && a.quantity == b.quantity && a.version <= b.version
    && (a.status == Released ==> b.status == Released)
  }

  ghost predicate StoreEvolves(a: Store, b: Store)
  {
    forall k :: k in a.reservations ==> k in b.reservations && ReservationEvolves(a.reservations[k], b.reservations[k])
  }

  /** Reserving conserves every SKU and touches stock exactly when it creates the key. */
  lemma ReserveConserves(s: Store, sku: string, quantity: int, key: string, user: string, other: string)
    requires StoreOk(s) && Acceptable(quantity, key)
    ensures var (s', r) := ReserveTx(s, sku, quantity, key, user);
      && StoreOk(s') && StoreEvolves(s, s') && Total(s', other) == Total(s, other)
      && (s'.stock != s.stock <==> key !in s.reservations && r.Ok?)
      && (r.Ok? ==>
            && key in s'.reservations && r.value == s'.reservations[key]
            && r.value.user == user && r.value.sku == sku && r.value.quantity == quantity)
  {
    HeldUpdate(s.reservations, key, Reservation(user, sku, quantity, Reserved, 1), other);
  }

  /** Releasing conserves every SKU and touches stock exactly when the key was still reserved. */
  lemma ReleaseConserves(s: Store, key: string, user: string, other: string)
    requires StoreOk(s)
    ensures var (s', r) := ReleaseTx(s, key, user);
      && StoreOk(s') && StoreEvolves(s, s') && Total(s', other) == Total(s, other)
      && (s'.stock != s.stock <==> key in s.reservations && s.reservations[key].status == Reserved && s.reservations[key].user == user)
      && (r.Ok? ==> key in s'.reservations && r.value == s'.reservations[key] && r.value.user == user && r.value.status == Released)
  {
    if key in s.reservations {
      var row := s.reservations[key];
      HeldUpdate(s.reservations, key, row.(status := Released, version := row.version + 1), other);
    }
  }
}
