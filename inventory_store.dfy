/** The in-memory inventory store (src/hooks/useInventory.ts): a product list, the
    alert list derived from it, and the operations that replace either list.

    The clock is a parameter: `now` is the instant `new Date()` would return and
    `stamp` the ISO string `new Date().toISOString()` would format from it. */
module InventoryStore {
  import opened Types

  /** One day in milliseconds. */
  const Day: int := 86_400_000

  /** `addDays(today, 3)` moves the clock by three days. */
  const WarningWindow: int := 3 * Day

  // ---------------------------------------------------------------------------
  // Alert derivation
  // ---------------------------------------------------------------------------

  function LowStockId(productId: string): string
  {
    "low-stock-" + productId
  }

  function ExpiryId(productId: string): string
  {
    "expiry-" + productId
  }

  /** Alert ids determine the rule and the product they were made for. */
  lemma AlertIdsDistinct(x: string, y: string)
    ensures LowStockId(x) == LowStockId(y) ==> x == y
    ensures ExpiryId(x) == ExpiryId(y) ==> x == y
    ensures LowStockId(x) != ExpiryId(y)
  {
    assert LowStockId(x)[0] != ExpiryId(y)[0];
    if LowStockId(x) == LowStockId(y) {
      assert x == LowStockId(x)[10..];
    }
    if ExpiryId(x) == ExpiryId(y) {
      assert x == ExpiryId(x)[7..];
    }
  }

  /** The low-stock rule: fewer units than the reorder point. */
  predicate IsLowStock(p: Product)
  {
    p.count < p.threshold
  }

  /** The source compares `count < threshold * 0.5` on numbers; on integers that is
      exactly "twice the count is below the threshold". */
  function LowStockSeverity(p: Product): (s: Severity)
    ensures s == High <==> 2 * p.count < p.threshold
    ensures s == Medium <==> 2 * p.count >= p.threshold
  {
    if (p.count as real) < (p.threshold as real) * 0.5 then High else Medium
  }

  /** The expiry rule: strictly after now and strictly before now plus three days. */
  predicate ExpiresSoon(p: Product, now: Instant)
  {
    now < p.expiryDate && p.expiryDate < now + WarningWindow
  }

  function LowStockAlertOf(p: Product, stamp: string): Alert
  {
    Alert(LowStockId(p.id), LowStockAlert, p.id, LowStockSeverity(p), stamp, false)
  }

  function ExpiryAlertOf(p: Product, stamp: string): Alert
  {
    Alert(ExpiryId(p.id), ExpiryWarning, p.id, High, stamp, false)
  }

  /** The alerts one product contributes, in the order the rules are checked. */
  function AlertsFor(p: Product, now: Instant, stamp: string): seq<Alert>
  {
    (if IsLowStock(p) then [LowStockAlertOf(p, stamp)] else [])
    + (if ExpiresSoon(p, now) then [ExpiryAlertOf(p, stamp)] else [])
  }

  /** A product contributes its low-stock alert exactly when it is low on stock and its
      expiry warning exactly when it expires soon, nothing else, the low-stock alert first. */
  lemma AlertsForSpec(p: Product, now: Instant, stamp: string)
    ensures var r := AlertsFor(p, now, stamp);
      && (LowStockAlertOf(p, stamp) in r <==> IsLowStock(p))
      && (ExpiryAlertOf(p, stamp) in r <==> ExpiresSoon(p, now))
      && (forall a :: a in r ==> a == LowStockAlertOf(p, stamp) || a == ExpiryAlertOf(p, stamp))
      && |r| <= 2 && (|r| == 2 ==> r[0].kind == LowStockAlert && r[1].kind == ExpiryWarning)
  {
  }

  /** The ids of the products in a list. */
  function Ids(ps: seq<Product>): set<string>
  {
    set p | p in ps :: p.id
  }

  /** The alert list `generateAlerts` builds: the alerts of each product, in product
      order. */
  function DerivedAlerts(ps: seq<Product>, now: Instant, stamp: string): seq<Alert>
  {
    if ps == [] then []
    else
      var n := |ps| - 1;
      DerivedAlerts(ps[..n], now, stamp) + AlertsFor(ps[n], now, stamp)
  }

  /** At most two alerts per product, and fresh alerts are unacknowledged. */
  lemma {:induction false} DerivedAlertsShape(ps: seq<Product>, now: Instant, stamp: string)
    ensures |DerivedAlerts(ps, now, stamp)| <= 2 * |ps|
    ensures forall a :: a in DerivedAlerts(ps, now, stamp) ==> !a.acknowledged
  {
    if ps != [] {
      DerivedAlertsShape(ps[..|ps| - 1], now, stamp);
    }
  }

  /** Every derived alert comes from some product of the list. */
  lemma {:induction false} DerivedAlertsSound(ps: seq<Product>, now: Instant, stamp: string, a: Alert)
    requires a in DerivedAlerts(ps, now, stamp)
    ensures exists i :: 0 <= i < |ps| && a in AlertsFor(ps[i], now, stamp)
  {
    assert ps != [];
    var n := |ps| - 1;
    if a in DerivedAlerts(ps[..n], now, stamp) {
      DerivedAlertsSound(ps[..n], now, stamp, a);
      var i :| 0 <= i < n && a in AlertsFor(ps[..n][i], now, stamp);
      assert ps[..n][i] == ps[i];
    } else {
      assert a in AlertsFor(ps[n], now, stamp);
    }
  }

  /** Every alert of every product of the list is derived. */
  lemma DerivedAlertsComplete(ps: seq<Product>, i: nat, now: Instant, stamp: string, a: Alert)
    requires i < |ps| && a in AlertsFor(ps[i], now, stamp)
    ensures a in DerivedAlerts(ps, now, stamp)
  {
    DerivedAlertsAround(ps, i, now, stamp);
  }

  /** An alert is derived from a list exactly when some product of the list yields it. */
  lemma DerivedAlertsMembership(ps: seq<Product>, now: Instant, stamp: string, a: Alert)
    ensures a in DerivedAlerts(ps, now, stamp) <==> exists i :: 0 <= i < |ps| && a in AlertsFor(ps[i], now, stamp)
  {
    if a in DerivedAlerts(ps, now, stamp) {
      DerivedAlertsSound(ps, now, stamp, a);
    }
    if exists i :: 0 <= i < |ps| && a in AlertsFor(ps[i], now, stamp) {
      var i :| 0 <= i < |ps| && a in AlertsFor(ps[i], now, stamp);
      DerivedAlertsComplete(ps, i, now, stamp, a);
    }
  }

  /** Every derived alert refers to a product of the list. */
  lemma DerivedAlertsReferToProducts(ps: seq<Product>, now: Instant, stamp: string)
    ensures forall a :: a in DerivedAlerts(ps, now, stamp) ==> a.productId in Ids(ps)
  {
    forall a | a in DerivedAlerts(ps, now, stamp)
      ensures a.productId in Ids(ps)
    {
      DerivedAlertsMembership(ps, now, stamp, a);
      var i :| 0 <= i < |ps| && a in AlertsFor(ps[i], now, stamp);
      assert ps[i] in ps;
    }
  }

  /** Appending one product appends its alerts. */
  lemma DerivedAlertsSnoc(ps: seq<Product>, p: Product, now: Instant, stamp: string)
    ensures DerivedAlerts(ps + [p], now, stamp) == DerivedAlerts(ps, now, stamp) + AlertsFor(p, now, stamp)
  {
    assert (ps + [p])[..|ps|] == ps;
  }

  /** Deriving the alerts of two lists laid end to end lays their alerts end to end:
      alerts follow the order of the products. */
  lemma {:induction false} DerivedAlertsAppend(ps: seq<Product>, qs: seq<Product>, now: Instant, stamp: string)
    ensures DerivedAlerts(ps + qs, now, stamp) == DerivedAlerts(ps, now, stamp) + DerivedAlerts(qs, now, stamp)
  {
    if qs == [] {
      assert ps + qs == ps;
    } else {
      var n := |qs| - 1;
      var front, last := qs[..n], qs[n];
      assert qs == front + [last];
      assert ps + qs == (ps + front) + [last];
      DerivedAlertsAppend(ps, front, now, stamp);
      DerivedAlertsSnoc(ps + front, last, now, stamp);
      DerivedAlertsSnoc(front, last, now, stamp);
    }
  }

  /** The alerts of product `i` sit after those of every earlier product and before
      those of every later one. */
  lemma DerivedAlertsAround(ps: seq<Product>, i: nat, now: Instant, stamp: string)
    requires i < |ps|
    ensures DerivedAlerts(ps, now, stamp)
         == DerivedAlerts(ps[..i], now, stamp) + AlertsFor(ps[i], now, stamp) + DerivedAlerts(ps[i + 1..], now, stamp)
  {
    var front := ps[..i] + [ps[i]];
    assert ps == front + ps[i + 1..];
    assert front[..|front| - 1] == ps[..i];
    DerivedAlertsAppend(front, ps[i + 1..], now, stamp);
  }

  /** A `low-stock-{id}` alert is derived exactly when a product with that id is below
      its threshold. */
  lemma {:induction false} LowStockAlertIff(ps: seq<Product>, now: Instant, stamp: string, id: string)
    ensures (exists a :: a in DerivedAlerts(ps, now, stamp) && a.id == LowStockId(id))
        <==> (exists p :: p in ps && p.id == id && IsLowStock(p))
  {
    if ps != [] {
      var n := |ps| - 1;
      var last := ps[n];
      LowStockAlertIff(ps[..n], now, stamp, id);
      AlertIdsDistinct(last.id, id);
      AlertIdsDistinct(id, last.id);
      assert ps == ps[..n] + [last];
      if exists p :: p in ps && p.id == id && IsLowStock(p) {
        var p :| p in ps && p.id == id && IsLowStock(p);
        if p !in ps[..n] {
          assert LowStockAlertOf(last, stamp) in DerivedAlerts(ps, now, stamp);
        }
      }
    }
  }

  /** An `expiry-{id}` alert is derived exactly when a product with that id expires
      strictly inside the three-day window. */
  lemma {:induction false} ExpiryAlertIff(ps: seq<Product>, now: Instant, stamp: string, id: string)
    ensures (exists a :: a in DerivedAlerts(ps, now, stamp) && a.id == ExpiryId(id))
        <==> (exists p :: p in ps && p.id == id && ExpiresSoon(p, now))
  {
    if ps != [] {
      var n := |ps| - 1;
      var last := ps[n];
      ExpiryAlertIff(ps[..n], now, stamp, id);
      AlertIdsDistinct(last.id, id);
      AlertIdsDistinct(id, last.id);
      assert ps == ps[..n] + [last];
      if exists p :: p in ps && p.id == id && ExpiresSoon(p, now) {
        var p :| p in ps && p.id == id && ExpiresSoon(p, now);
        if p !in ps[..n] {
          assert ExpiryAlertOf(last, stamp) in DerivedAlerts(ps, now, stamp);
        }
      }
    }
  }

  /** The low-stock boundary: at the threshold no alert; just below it a medium one;
      below half of it a high one. */
  lemma LowStockBoundary(p: Product)
    requires p.threshold == 20
    ensures !IsLowStock(p.(count := 20))
    ensures IsLowStock(p.(count := 19)) && LowStockSeverity(p.(count := 19)) == Medium
    ensures IsLowStock(p.(count := 9)) && LowStockSeverity(p.(count := 9)) == High
  {
  }

  /** The expiry boundary: expiring exactly at now plus three days, or already expired,
      gives no warning; expiring two days ahead does. */
  lemma ExpiryBoundary(p: Product, now: Instant)
    ensures !ExpiresSoon(p.(expiryDate := now + 3 * Day), now)
    ensures !ExpiresSoon(p.(expiryDate := now), now)
    ensures !ExpiresSoon(p.(expiryDate := now - Day), now)
    ensures ExpiresSoon(p.(expiryDate := now + 2 * Day), now)
  {
  }

  /** `generateAlerts`: walks the products in order and pushes each rule's alert. */
  method GenerateAlerts(products: seq<Product>, now: Instant, stamp: string) returns (newAlerts: seq<Alert>)
    ensures newAlerts == DerivedAlerts(products, now, stamp)
  {
    newAlerts := [];
    var warningDate := now + WarningWindow;
    for i := 0 to |products|
      invariant newAlerts == DerivedAlerts(products[..i], now, stamp)
    {
      var product := products[i];
      ghost var before := newAlerts;
      ghost var low: seq<Alert> := if IsLowStock(product) then [LowStockAlertOf(product, stamp)] else [];
      ghost var soon: seq<Alert> := if ExpiresSoon(product, now) then [ExpiryAlertOf(product, stamp)] else [];
      if product.count < product.threshold {
        newAlerts := newAlerts + [LowStockAlertOf(product, stamp)];
      }
      assert newAlerts == before + low;
      if now < product.expiryDate && product.expiryDate < warningDate {
        newAlerts := newAlerts + [ExpiryAlertOf(product, stamp)];
      }
      assert newAlerts == before + low + soon;
      assert before + low + soon == before + AlertsFor(product, now, stamp);
      assert products[..i + 1] == products[..i] + [product];
      DerivedAlertsSnoc(products[..i], product, now, stamp);
    }
    assert products[..|products|] == products;
  }

  // ---------------------------------------------------------------------------
  // Record updates
  // ---------------------------------------------------------------------------

  /** `Partial<Product>`: each field is absent (None) or a new value. For the optional
      fields `barcode` and `approvedBy` the new value may itself be `undefined`. */
  datatype ProductUpdate = ProductUpdate(
    id: Option<string>,
    vendorCode: Option<string>,
    category: Option<string>,
    description: Option<string>,
    count: Option<int>,
    cost: Option<real>,
    currency: Option<string>,
    expiryDate: Option<Instant>,
    warehouseStock: Option<int>,
    shelfStock: Option<int>,
    threshold: Option<int>,
    barcode: Option<Option<string>>,
    status: Option<Status>,
    createdAt: Option<string>,
    updatedAt: Option<string>,
    createdBy: Option<string>,
    approvedBy: Option<Option<string>>,
    approved: Option<bool>)

  /** The empty update `{}`. */
  const NoChanges: ProductUpdate :=
    ProductUpdate(None, None, None, None, None, None, None, None, None,
                  None, None, None, None, None, None, None, None, None)

  /** `{ approved: true, approvedBy }` */
  function ApprovalUpdate(approvedBy: string): ProductUpdate
  {
    NoChanges.(approved := Some(true), approvedBy := Some(Some(approvedBy)))
  }

  /** The value a spread leaves in a field: the update's when present. */
  function Pick<T>(field: Option<T>, current: T): T
  {
    match field
    case Some(v) => v
    case None => current
  }

  /** `{ ...product, ...updates, updatedAt: stamp }`: the stamp is spread last, so it
      wins over an `updatedAt` carried by the update. */
  function Merge(p: Product, u: ProductUpdate, stamp: string): (r: Product)
    ensures r.updatedAt == stamp
  {
    Product(
      Pick(u.id, p.id),
      Pick(u.vendorCode, p.vendorCode),
      Pick(u.category, p.category),
      Pick(u.description, p.description),
      Pick(u.count, p.count),
      Pick(u.cost, p.cost),
      Pick(u.currency, p.currency),
      Pick(u.expiryDate, p.expiryDate),
      Pick(u.warehouseStock, p.warehouseStock),
      Pick(u.shelfStock, p.shelfStock),
      Pick(u.threshold, p.threshold),
      Pick(u.barcode, p.barcode),
      Pick(u.status, p.status),
      Pick(u.createdAt, p.createdAt),
      stamp,
      Pick(u.createdBy, p.createdBy),
      Pick(u.approvedBy, p.approvedBy),
      Pick(u.approved, p.approved))
  }

  /** One update after another, as a single update: the later one's fields win. */
  function Then(u: ProductUpdate, v: ProductUpdate): ProductUpdate
  {
    ProductUpdate(
      if v.id.Some? then v.id else u.id,
      if v.vendorCode.Some? then v.vendorCode else u.vendorCode,
      if v.category.Some? then v.category else u.category,
      if v.description.Some? then v.description else u.description,
      if v.count.Some? then v.count else u.count,
      if v.cost.Some? then v.cost else u.cost,
      if v.currency.Some? then v.currency else u.currency,
      if v.expiryDate.Some? then v.expiryDate else u.expiryDate,
      if v.warehouseStock.Some? then v.warehouseStock else u.warehouseStock,
      if v.shelfStock.Some? then v.shelfStock else u.shelfStock,
      if v.threshold.Some? then v.threshold else u.threshold,
      if v.barcode.Some? then v.barcode else u.barcode,
      if v.status.Some? then v.status else u.status,
      if v.createdAt.Some? then v.createdAt else u.createdAt,
      if v.updatedAt.Some? then v.updatedAt else u.updatedAt,
      if v.createdBy.Some? then v.createdBy else u.createdBy,
      if v.approvedBy.Some? then v.approvedBy else u.approvedBy,
      if v.approved.Some? then v.approved else u.approved)
  }

  /** Merging two updates in turn is merging their combination once; only the last
      stamp survives. */
  lemma MergeThen(p: Product, u: ProductUpdate, v: ProductUpdate, s1: string, s2: string)
    ensures Merge(Merge(p, u, s1), v, s2) == Merge(p, Then(u, v), s2)
  {
  }

  /** Re-applying an update with the same stamp changes nothing. */
  lemma MergeIdempotent(p: Product, u: ProductUpdate, stamp: string)
    ensures Merge(Merge(p, u, stamp), u, stamp) == Merge(p, u, stamp)
  {
  }

  /** The empty update only stamps `updatedAt`; so does `{ updatedAt: x }`. */
  lemma MergeNoChanges(p: Product, x: string, stamp: string)
    ensures Merge(p, NoChanges, stamp) == p.(updatedAt := stamp)
    ensures Merge(p, NoChanges.(updatedAt := Some(x)), stamp) == p.(updatedAt := stamp)
  {
  }

  /** `{ count: 5 }` changes the count and the stamp and nothing else. */
  lemma MergeCountOnly(p: Product, stamp: string)
    ensures Merge(p, NoChanges.(count := Some(5)), stamp) == p.(count := 5, updatedAt := stamp)
  {
  }

  /** Approval sets `approved` and `approvedBy`, stamps the product, and leaves every
      other field as it was. */
  lemma MergeApproval(p: Product, approvedBy: string, stamp: string)
    ensures Merge(p, ApprovalUpdate(approvedBy), stamp)
         == p.(approved := true, approvedBy := Some(approvedBy), updatedAt := stamp)
  {
  }

  /** `prev.map(product => product.id === productId ? merged : product)` */
  function UpdateProducts(ps: seq<Product>, productId: string, u: ProductUpdate, stamp: string): (r: seq<Product>)
    ensures |r| == |ps|
    ensures forall i :: 0 <= i < |ps| && ps[i].id != productId ==> r[i] == ps[i]
    ensures forall i :: 0 <= i < |ps| && ps[i].id == productId ==> r[i] == Merge(ps[i], u, stamp)
  {
    seq(|ps|, i requires 0 <= i < |ps| => if ps[i].id == productId then Merge(ps[i], u, stamp) else ps[i])
  }

  /** An id that no product has makes the update a silent no-op. */
  lemma UpdateMissingIsNoOp(ps: seq<Product>, productId: string, u: ProductUpdate, stamp: string)
    requires productId !in Ids(ps)
    ensures UpdateProducts(ps, productId, u, stamp) == ps
  {
    var r := UpdateProducts(ps, productId, u, stamp);
    forall i | 0 <= i < |ps|
      ensures r[i] == ps[i]
    {
      assert ps[i].id in Ids(ps);
    }
  }

  /** Repeating an update with the same stamp gives the same list, whether or not the
      update renames the products it matches. */
  lemma UpdateProductsIdempotent(ps: seq<Product>, productId: string, u: ProductUpdate, stamp: string)
    ensures UpdateProducts(UpdateProducts(ps, productId, u, stamp), productId, u, stamp)
         == UpdateProducts(ps, productId, u, stamp)
  {
    var r := UpdateProducts(ps, productId, u, stamp);
    var rr := UpdateProducts(r, productId, u, stamp);
    forall i | 0 <= i < |ps|
      ensures rr[i] == r[i]
    {
      if r[i].id == productId {
        MergeIdempotent(ps[i], u, stamp);
      }
    }
  }

  /** `approveProduct`: every product with the id becomes approved by `approvedBy`
      and is stamped; every other product and every other field is unchanged. */
  lemma ApproveProducts(ps: seq<Product>, productId: string, approvedBy: string, stamp: string)
    ensures var r := UpdateProducts(ps, productId, ApprovalUpdate(approvedBy), stamp);
      && |r| == |ps|
      && forall i :: 0 <= i < |ps| ==>
           r[i] == if ps[i].id == productId
                   then ps[i].(approved := true, approvedBy := Some(approvedBy), updatedAt := stamp)
                   else ps[i]
  {
    forall i | 0 <= i < |ps| && ps[i].id == productId {
      MergeApproval(ps[i], approvedBy, stamp);
    }
  }

  /** One product's share of `moveStock`: the warehouse gives `fromWarehouse`, the
      shelf receives `toShelf`, nothing checks either stays non-negative, and no other
      field (the total `count` included) changes. */
  function MoveStockOn(p: Product, fromWarehouse: int, toShelf: int, stamp: string): (r: Product)
    ensures r.warehouseStock + r.shelfStock == p.warehouseStock + p.shelfStock + (toShelf - fromWarehouse)
    ensures r.shelfStock - p.shelfStock == toShelf && p.warehouseStock - r.warehouseStock == fromWarehouse
    ensures r.(warehouseStock := p.warehouseStock, shelfStock := p.shelfStock, updatedAt := p.updatedAt) == p
    ensures r.updatedAt == stamp && r.count == p.count
  {
    p.(warehouseStock := p.warehouseStock - fromWarehouse,
       shelfStock := p.shelfStock + toShelf,
       updatedAt := stamp)
  }

  /** `moveStock` keeps a product's warehouse-plus-shelf stock exactly when both deltas agree. */
  lemma MoveStockKeepsStockIff(p: Product, fromWarehouse: int, toShelf: int, stamp: string)
    ensures var r := MoveStockOn(p, fromWarehouse, toShelf, stamp);
      r.warehouseStock + r.shelfStock == p.warehouseStock + p.shelfStock <==> fromWarehouse == toShelf
  {
  }

  /** `prev.map(...)` applying `MoveStockOn` to the products with the id. */
  function MoveStockProducts(ps: seq<Product>, productId: string, fromWarehouse: int, toShelf: int, stamp: string): (r: seq<Product>)
    ensures |r| == |ps|
    ensures forall i :: 0 <= i < |ps| && ps[i].id != productId ==> r[i] == ps[i]
    ensures forall i :: 0 <= i < |ps| && ps[i].id == productId ==> r[i] == MoveStockOn(ps[i], fromWarehouse, toShelf, stamp)
  {
    seq(|ps|, i requires 0 <= i < |ps| =>
      if ps[i].id == productId then MoveStockOn(ps[i], fromWarehouse, toShelf, stamp) else ps[i])
  }

  /** Warehouse plus shelf stock summed over a list. */
  function TotalStock(ps: seq<Product>): int
  {
    if ps == [] then 0
    else TotalStock(ps[..|ps| - 1]) + ps[|ps| - 1].warehouseStock + ps[|ps| - 1].shelfStock
  }

  /** How many products of the list carry the id. */
  function CountWithId(ps: seq<Product>, productId: string): nat
  {
    if ps == [] then 0
    else CountWithId(ps[..|ps| - 1], productId) + (if ps[|ps| - 1].id == productId then 1 else 0)
  }

  /** Across the list, `moveStock` shifts the total stock by `toShelf - fromWarehouse`
      once per matching product. */
  lemma {:induction false} MoveStockShiftsTotal(ps: seq<Product>, productId: string, fromWarehouse: int, toShelf: int, stamp: string)
    ensures TotalStock(MoveStockProducts(ps, productId, fromWarehouse, toShelf, stamp))
         == TotalStock(ps) + CountWithId(ps, productId) * (toShelf - fromWarehouse)
  {
    if ps != [] {
      var n, d := |ps| - 1, toShelf - fromWarehouse;
      var r := MoveStockProducts(ps, productId, fromWarehouse, toShelf, stamp);
      MoveStockProductsPrefix(ps, productId, fromWarehouse, toShelf, stamp, n);
      MoveStockShiftsTotal(ps[..n], productId, fromWarehouse, toShelf, stamp);
      var k := CountWithId(ps[..n], productId);
      if ps[n].id == productId {
        assert r[n].warehouseStock + r[n].shelfStock == ps[n].warehouseStock + ps[n].shelfStock + d;
        assert CountWithId(ps, productId) == k + 1;
        MulSucc(k, d);
      } else {
        assert r[n] == ps[n];
      }
    }
  }

  lemma MulSucc(k: int, d: int)
    ensures (k + 1) * d == k * d + d
  {
  }

  /** Moving stock in a list and taking a prefix commute. */
  lemma MoveStockProductsPrefix(ps: seq<Product>, productId: string, fromWarehouse: int, toShelf: int, stamp: string, n: nat)
    requires n <= |ps|
    ensures MoveStockProducts(ps, productId, fromWarehouse, toShelf, stamp)[..n]
         == MoveStockProducts(ps[..n], productId, fromWarehouse, toShelf, stamp)
  {
  }

  /** `Omit<Product, 'id' | 'createdAt' | 'updatedAt'>`: what a caller of `addProduct` supplies. */
  datatype ProductDraft = ProductDraft(
    vendorCode: string,
    category: string,
    description: string,
    count: int,
    cost: real,
    currency: string,
    expiryDate: Instant,
    warehouseStock: int,
    shelfStock: int,
    threshold: int,
    barcode: Option<string>,
    status: Status,
    createdBy: string,
    approvedBy: Option<string>,
    approved: bool)

  /** The caller-supplied part of a product. */
  function DraftOf(p: Product): ProductDraft
  {
    ProductDraft(p.vendorCode, p.category, p.description, p.count, p.cost, p.currency,
                 p.expiryDate, p.warehouseStock, p.shelfStock, p.threshold, p.barcode,
                 p.status, p.createdBy, p.approvedBy, p.approved)
  }

  /** `{ ...product, id, createdAt: stamp, updatedAt: stamp }`: the draft's fields, a
      fresh id and equal creation and update stamps. */
  function NewProduct(d: ProductDraft, id: string, stamp: string): (p: Product)
    ensures DraftOf(p) == d
    ensures p.id == id && p.createdAt == stamp && p.updatedAt == stamp
  {
    Product(id, d.vendorCode, d.category, d.description, d.count, d.cost, d.currency,
            d.expiryDate, d.warehouseStock, d.shelfStock, d.threshold, d.barcode, d.status,
            stamp, stamp, d.createdBy, d.approvedBy, d.approved)
  }

  /** A product whose two stamps agree is rebuilt exactly from its draft, id and stamp. */
  lemma NewProductOfDraft(p: Product)
    requires p.createdAt == p.updatedAt
    ensures NewProduct(DraftOf(p), p.id, p.createdAt) == p
  {
  }

  /** `[...prev, newProduct]` */
  function AppendProduct(ps: seq<Product>, d: ProductDraft, id: string, stamp: string): (r: seq<Product>)
    ensures |r| == |ps| + 1 && r[..|ps|] == ps
    ensures DraftOf(r[|ps|]) == d && r[|ps|].id == id
    ensures r[|ps|].createdAt == stamp && r[|ps|].updatedAt == stamp
  {
    ps + [NewProduct(d, id, stamp)]
  }

  /** Adding a product adds its alerts at the end of the alert list. */
  lemma AppendProductAlerts(ps: seq<Product>, d: ProductDraft, id: string, stamp: string, now: Instant, alertStamp: string)
    ensures DerivedAlerts(AppendProduct(ps, d, id, stamp), now, alertStamp)
         == DerivedAlerts(ps, now, alertStamp) + AlertsFor(NewProduct(d, id, stamp), now, alertStamp)
  {
    assert AppendProduct(ps, d, id, stamp)[..|ps|] == ps;
  }

  // ---------------------------------------------------------------------------
  // Acknowledgement
  // ---------------------------------------------------------------------------

  /** `prev.map(alert => alert.id === alertId ? { ...alert, acknowledged: true } : alert)` */
  function AcknowledgeAlerts(alerts: seq<Alert>, alertId: string): (r: seq<Alert>)
    ensures |r| == |alerts|
    ensures forall i :: 0 <= i < |alerts| ==> r[i].acknowledged == (alerts[i].acknowledged || alerts[i].id == alertId)
    ensures forall i :: 0 <= i < |alerts| ==> r[i].(acknowledged := alerts[i].acknowledged) == alerts[i]
  {
    seq(|alerts|, i requires 0 <= i < |alerts| =>
      if alerts[i].id == alertId then alerts[i].(acknowledged := true) else alerts[i])
  }

  /** Acknowledging the same alert twice is acknowledging it once. */
  lemma AcknowledgeIdempotent(alerts: seq<Alert>, alertId: string)
    ensures AcknowledgeAlerts(AcknowledgeAlerts(alerts, alertId), alertId) == AcknowledgeAlerts(alerts, alertId)
  {
    var r := AcknowledgeAlerts(alerts, alertId);
    var rr := AcknowledgeAlerts(r, alertId);
    forall i | 0 <= i < |alerts|
      ensures rr[i] == r[i]
    {
      assert rr[i].(acknowledged := r[i].acknowledged) == r[i];
    }
  }

  /** The alert list agrees with a generated one in everything but the flags. */
  predicate SameUpToAcknowledged(current: seq<Alert>, generated: seq<Alert>)
  {
    && |current| == |generated|
    && forall i :: 0 <= i < |current| ==> current[i] == generated[i].(acknowledged := current[i].acknowledged)
  }

  /** Acknowledging keeps the alert list in step with the generation it came from. */
  lemma AcknowledgeKeepsAgreement(alerts: seq<Alert>, generated: seq<Alert>, alertId: string)
    requires SameUpToAcknowledged(alerts, generated)
    ensures SameUpToAcknowledged(AcknowledgeAlerts(alerts, alertId), generated)
  {
    var r := AcknowledgeAlerts(alerts, alertId);
    forall i | 0 <= i < |r|
      ensures r[i] == generated[i].(acknowledged := r[i].acknowledged)
    {
      assert r[i].(acknowledged := alerts[i].acknowledged) == alerts[i];
    }
  }

  /** Every alert of a list in step with a generation refers to a listed product. */
  lemma AlertsReferToProducts(alerts: seq<Alert>, ps: seq<Product>, now: Instant, stamp: string)
    requires SameUpToAcknowledged(alerts, DerivedAlerts(ps, now, stamp))
    ensures forall a :: a in alerts ==> a.productId in Ids(ps)
  {
    var g := DerivedAlerts(ps, now, stamp);
    DerivedAlertsReferToProducts(ps, now, stamp);
    forall a | a in alerts
      ensures a.productId in Ids(ps)
    {
      var i :| 0 <= i < |alerts| && alerts[i] == a;
      assert g[i] in g;
    }
  }

  // ---------------------------------------------------------------------------
  // The store
  // ---------------------------------------------------------------------------

  /** The three products the store starts with. */
  const MockProducts: seq<Product> := [
    Product("1", "VND001", "Dairy", "Fresh Milk 1L", 120, 3.99, "USD",
            1705276800000 /* 2024-01-15 */, 80, 40, 20, None, Active,
            "2024-01-01T00:00:00Z", "2024-01-01T00:00:00Z", "maker", Some("checker"), true),
    Product("2", "VND002", "Fruits", "Organic Apples 2lb", 45, 5.99, "USD",
            1705017600000 /* 2024-01-12 */, 25, 20, 50, None, LowStock,
            "2024-01-01T00:00:00Z", "2024-01-01T00:00:00Z", "maker", Some("checker"), true),
    Product("3", "VND003", "Vegetables", "Fresh Spinach 1lb", 30, 2.99, "USD",
            1704844800000 /* 2024-01-10 */, 15, 15, 25, None, Active,
            "2024-01-01T00:00:00Z", "2024-01-01T00:00:00Z", "maker", None, false)
  ]

  /** On 2024-01-11 the mock data yields a medium low-stock alert for the apples and a
      warning that they expire the next day, and nothing for milk or spinach. */
  lemma MockAlertsOnJanuaryEleventh(stamp: string)
    ensures DerivedAlerts(MockProducts, 1704931200000, stamp)
         == [LowStockAlertOf(MockProducts[1], stamp), ExpiryAlertOf(MockProducts[1], stamp)]
    ensures LowStockAlertOf(MockProducts[1], stamp).severity == Medium
  {
    var now := 1704931200000;
    var milk, apples, spinach := MockProducts[0], MockProducts[1], MockProducts[2];
    assert MockProducts == [milk] + [apples] + [spinach];
    assert [milk] == [] + [milk];
    DerivedAlertsSnoc([], milk, now, stamp);
    DerivedAlertsSnoc([milk], apples, now, stamp);
    DerivedAlertsSnoc([milk] + [apples], spinach, now, stamp);
    assert AlertsFor(milk, now, stamp) == [];
    assert AlertsFor(apples, now, stamp) == [LowStockAlertOf(apples, stamp), ExpiryAlertOf(apples, stamp)];
    assert AlertsFor(spinach, now, stamp) == [];
  }

  /** One mounted `useInventory()` instance: the products, the alerts last derived from
      them, and (as ghost state) the clock reading of that derivation. */
  class Inventory {
    var products: seq<Product>
    var alerts: seq<Alert>
    ghost var generatedAt: Instant
    ghost var generationStamp: string

    /** The alerts are the latest generation from the current products, except that
        some may have been acknowledged since. */
    ghost predicate Valid()
      reads this
    {
      SameUpToAcknowledged(alerts, DerivedAlerts(products, generatedAt, generationStamp))
    }

    /** Mounting: the mock products, an empty alert list, then the products effect. */
    constructor (now: Instant, stamp: string)
      ensures Valid()
      ensures products == MockProducts
      ensures alerts == DerivedAlerts(MockProducts, now, stamp)
    {
      products := MockProducts;
      alerts := [];
      new;
      Regenerate(now, stamp);
    }

    /** The effect on `[products]`: replace the alert list with a fresh generation,
        which drops every acknowledgement. */
    method Regenerate(now: Instant, stamp: string)
      modifies this`alerts, this`generatedAt, this`generationStamp
      ensures Valid()
      ensures alerts == DerivedAlerts(products, now, stamp)
      ensures forall a :: a in alerts ==> !a.acknowledged && a.productId in Ids(products)
    {
      alerts := GenerateAlerts(products, now, stamp);
      DerivedAlertsShape(products, now, stamp);
      DerivedAlertsReferToProducts(products, now, stamp);
      generatedAt, generationStamp := now, stamp;
    }

    method UpdateProduct(productId: string, updates: ProductUpdate, now: Instant, stamp: string)
      modifies this
      ensures Valid()
      ensures products == UpdateProducts(old(products), productId, updates, stamp)
      ensures alerts == DerivedAlerts(products, now, stamp)
    {
      products := UpdateProducts(products, productId, updates, stamp);
      Regenerate(now, stamp);
    }

    method ApproveProduct(productId: string, approvedBy: string, now: Instant, stamp: string)
      modifies this
      ensures Valid()
      ensures products == UpdateProducts(old(products), productId, ApprovalUpdate(approvedBy), stamp)
      ensures forall i :: 0 <= i < |products| ==>
        products[i] == if old(products)[i].id == productId
                       then old(products)[i].(approved := true, approvedBy := Some(approvedBy), updatedAt := stamp)
                       else old(products)[i]
      ensures alerts == DerivedAlerts(products, now, stamp)
    {
      ApproveProducts(products, productId, approvedBy, stamp);
      UpdateProduct(productId, ApprovalUpdate(approvedBy), now, stamp);
    }

    method AddProduct(product: ProductDraft, newId: string, now: Instant, stamp: string)
      modifies this
      ensures Valid()
      ensures products == AppendProduct(old(products), product, newId, stamp)
      ensures alerts == DerivedAlerts(products, now, stamp)
    {
      products := AppendProduct(products, product, newId, stamp);
      Regenerate(now, stamp);
    }

    method MoveStock(productId: string, fromWarehouse: int, toShelf: int, now: Instant, stamp: string)
      modifies this
      ensures Valid()
      ensures products == MoveStockProducts(old(products), productId, fromWarehouse, toShelf, stamp)
      ensures alerts == DerivedAlerts(products, now, stamp)
    {
      products := MoveStockProducts(products, productId, fromWarehouse, toShelf, stamp);
      Regenerate(now, stamp);
    }

    /** Touches the alert list only; the next product change discards the flag. */
    method AcknowledgeAlert(alertId: string)
      requires Valid()
      modifies this`alerts
      ensures Valid()
      ensures alerts == AcknowledgeAlerts(old(alerts), alertId)
    {
      AcknowledgeKeepsAgreement(alerts, DerivedAlerts(products, generatedAt, generationStamp), alertId);
      alerts := AcknowledgeAlerts(alerts, alertId);
    }
  }
}
