/** The inventory push of shopify/inventory.py: the gate of
    `update_inventory_on_shopify`, the batched per-row push of
    `upload_inventory_data_to_shopify` with its outcome and sync-stamp rules,
    and the batch status of `_log_inventory_update_status`. Remote calls are
    an outcome oracle. */
module ShopifyInventory {
  import opened Common
  import opened InventoryLevels

  /** The size of `create_batch`'s batches. */
  const BatchSize: nat := 50

  // ---------------------------------------------------------------------
  // Batches

  /** `create_batch(s, n)`: consecutive slices of `n`, the last one shorter. */
  function Batches<T>(s: seq<T>, n: nat): seq<seq<T>>
    requires n > 0
    decreases |s|
  {
    if s == [] then []
    else if |s| <= n then [s]
    else [s[..n]] + Batches(s[n..], n)
  }

  function Flatten<T>(ss: seq<seq<T>>): seq<T>
    decreases |ss|
  {
    if ss == [] then [] else ss[0] + Flatten(ss[1..])
  }

  /** The batches cover the input in order, none is empty and none holds
      more than `n` elements. */
  lemma {:induction false} BatchesPartition<T>(s: seq<T>, n: nat)
    requires n > 0
    ensures Flatten(Batches(s, n)) == s
    ensures forall k :: 0 <= k < |Batches(s, n)| ==> 0 < |Batches(s, n)[k]| <= n
    decreases |s|
  {
    if |s| > n {
      BatchesPartition(s[n..], n);
      var bs := Batches(s, n);
      assert bs[1..] == Batches(s[n..], n);
      assert s == s[..n] + s[n..];
    }
  }

  lemma BatchesFront<T>(s: seq<T>, n: nat)
    requires n > 0 && |s| > n
    ensures Batches(s, n) == [s[..n]] + Batches(s[n..], n)
  {
  }

  /** Where a batch boundary falls, the batches of a longer prefix are the
      batches of the shorter one followed by one more batch. */
  lemma {:induction false} BatchesSnoc<T>(s: seq<T>, start: nat, end: nat)
    requires start % BatchSize == 0 && start < end <= |s| && end - start <= BatchSize
    ensures Batches(s[..end], BatchSize) == Batches(s[..start], BatchSize) + [s[start..end]]
    decreases start
  {
    var n := BatchSize;
    if start == 0 {
      assert s[..start] == [];
      assert s[start..end] == s[..end];
    } else {
      var t := s[n..];
      BatchesSnoc(t, start - n, end - n);
      BatchesFront(s[..end], n);
      assert s[..end][n..] == t[..end - n];
      assert s[..end][..n] == s[..n];
      assert t[start - n..end - n] == s[start..end];
      BatchesPrefix(s, start);
    }
  }

  lemma BatchesPrefix<T>(s: seq<T>, start: nat)
    requires BatchSize <= start <= |s|
    ensures Batches(s[..start], BatchSize) == [s[..BatchSize]] + Batches(s[BatchSize..][..start - BatchSize], BatchSize)
  {
    var n := BatchSize;
    if start == n {
      assert s[..start] == s[..n];
      assert s[n..][..start - n] == [];
    } else {
      BatchesFront(s[..start], n);
      assert s[..start][n..] == s[n..][..start - n];
      assert s[..start][..n] == s[..n];
    }
  }

  // ---------------------------------------------------------------------
  // One row

  /** `d.status`; Pending before the push. */
  datatype Status = Pending | Success | NotFound | Failed

  /** A row being pushed: the inventory level and the fields the push sets
      on it. */
  datatype PushRow = PushRow(level: InventoryLevel, locationId: string, status: Status, failureReason: string)

  /** What the remote side did with one row: the level was set, the variant
      or location was not found, or another error with its message. */
  datatype PushOutcome = Pushed | ResourceNotFound | Error(reason: string)

  /** An `InventoryLevel.set` call. */
  datatype Push = Push(locationId: string, variantId: string, available: int, cost: real)

  /** An `update_shopify_product_cost` call. */
  datatype CostUpdate = CostUpdate(variantId: string, cost: real)

  /** The quantity pushed: quantities truncated toward zero, reserved
      subtracted from actual (the store takes no fractions). */
  function Available(d: InventoryLevel): int
  {
    Trunc(d.actualQty) - Trunc(d.reservedQty)
  }

  lemma AvailableExample()
    ensures Available(InventoryLevel("EI-1", "ITEM-1", "P1", "V1", 7.9, 2.5, "Stores", 0.0)) == 5
    ensures Available(InventoryLevel("EI-1", "ITEM-1", "P1", "V1", -1.5, 0.0, "Stores", 0.0)) == -1
  {
  }

  function LocationOf(whMap: map<string, string>, warehouse: string): string
  {
    if warehouse in whMap then whMap[warehouse] else ""
  }

  /** The row after its push: the mapped location in every case, then the
      status (and the failure reason on an error). */
  function AfterPush(r: PushRow, whMap: map<string, string>, o: PushOutcome): PushRow
  {
    var located := r.(locationId := LocationOf(whMap, r.level.warehouse));
    match o
    case Pushed => located.(status := Success)
    case ResourceNotFound => located.(status := NotFound)
    case Error(reason) => located.(status := Failed, failureReason := reason)
  }

  /** A row's sync time changes unless the push failed with another error. */
  predicate Stamps(o: PushOutcome)
  {
    !o.Error?
  }

  /** The outcome rules: the status says what happened; the failure reason
      is set exactly on "Failed"; the location is the warehouse's mapping in
      every case. */
  lemma AfterPushRules(r: PushRow, whMap: map<string, string>, o: PushOutcome)
    requires r.level.warehouse in whMap
    ensures var a := AfterPush(r, whMap, o);
            && a.level == r.level && a.locationId == whMap[r.level.warehouse]
            && (a.status == Success <==> o.Pushed?)
            && (a.status == NotFound <==> o.ResourceNotFound?)
            && (a.status == Failed <==> !Stamps(o))
            && (o.Error? ==> a.failureReason == o.reason)
            && (!o.Error? ==> a.failureReason == r.failureReason)
  {
  }

  /** The row's push, made when the outcome is Pushed. */
  function PushOf(d: InventoryLevel, whMap: map<string, string>): Push
  {
    Push(LocationOf(whMap, d.warehouse), d.variantId, Available(d), d.cost)
  }

  /** `upload_inventory_data_to_shopify` for one row. */
  method PushOne(a: array<PushRow>, i: nat, whMap: map<string, string>, table: EcommerceItems, syncedOn: Date,
                 o: PushOutcome)
    returns (push: Option<Push>, costUpdate: Option<CostUpdate>)
    requires i < a.Length && a[i].level.warehouse in whMap
    modifies a, table
    ensures a[..] == old(a[..])[i := AfterPush(old(a[i]), whMap, o)]
    ensures table.rows == (if Stamps(o) then Stamped(old(table.rows), old(a[i]).level.ecomItem, syncedOn)
                           else old(table.rows))
    ensures push == (if o.Pushed? then Some(PushOf(old(a[i]).level, whMap)) else None)
    ensures costUpdate == (if o.Pushed? && old(a[i]).level.cost > 0.0
                           then Some(CostUpdate(old(a[i]).level.variantId, old(a[i]).level.cost)) else None)
  {
    var d := a[i];
    d := d.(locationId := whMap[d.level.warehouse]);
    push, costUpdate := None, None;
    match o {
      case Pushed =>
        push := Some(Push(d.locationId, d.level.variantId, Trunc(d.level.actualQty) - Trunc(d.level.reservedQty),
                          d.level.cost));
        table.UpdateInventorySyncStatus(d.level.ecomItem, Some(syncedOn), syncedOn);
        d := d.(status := Success);
        if d.level.cost > 0.0 {
          costUpdate := Some(CostUpdate(d.level.variantId, d.level.cost));
        }
      case ResourceNotFound =>
        table.UpdateInventorySyncStatus(d.level.ecomItem, Some(syncedOn), syncedOn);
        d := d.(status := NotFound);
      case Error(reason) =>
        d := d.(status := Failed, failureReason := reason);
    }
    a[i] := d;
  }

  // ---------------------------------------------------------------------
  // The whole run, as functions of the rows before it

  /** The table after the pushes of rows 0..i. */
  function SyncedUpTo(db: seq<EcomItem>, rows: seq<PushRow>, o: nat -> PushOutcome, syncedOn: Date, i: nat)
    : seq<EcomItem>
    requires i <= |rows|
  {
    if i == 0 then db
    else
      var before := SyncedUpTo(db, rows, o, syncedOn, i - 1);
      if Stamps(o(i - 1)) then Stamped(before, rows[i - 1].level.ecomItem, syncedOn) else before
  }

  /** The pushes of rows 0..i. */
  function PushesUpTo(rows: seq<PushRow>, whMap: map<string, string>, o: nat -> PushOutcome, i: nat): seq<Push>
    requires i <= |rows|
  {
    if i == 0 then []
    else PushesUpTo(rows, whMap, o, i - 1) + (if o(i - 1).Pushed? then [PushOf(rows[i - 1].level, whMap)] else [])
  }

  /** The cost updates of rows 0..i. */
  function CostUpdatesUpTo(rows: seq<PushRow>, o: nat -> PushOutcome, i: nat): seq<CostUpdate>
    requires i <= |rows|
  {
    if i == 0 then []
    else
      var d := rows[i - 1].level;
      CostUpdatesUpTo(rows, o, i - 1) + (if o(i - 1).Pushed? && d.cost > 0.0 then [CostUpdate(d.variantId, d.cost)] else [])
  }

  /** A row's sync time changes only through its own push, and only to the
      run's single `synced_on`: after the run, every record is either as it
      was or stamped with `syncedOn`, and a record whose rows all failed is
      as it was. */
  lemma {:induction false} SyncedUpToRules(db: seq<EcomItem>, rows: seq<PushRow>, o: nat -> PushOutcome,
                                           syncedOn: Date, i: nat)
    requires i <= |rows|
    ensures var after := SyncedUpTo(db, rows, o, syncedOn, i);
            && |after| == |db|
            && (forall k :: 0 <= k < |db| ==> after[k].(inventorySyncedOn := db[k].inventorySyncedOn) == db[k])
            && (forall k :: 0 <= k < |db| ==>
                  after[k].inventorySyncedOn == db[k].inventorySyncedOn || after[k].inventorySyncedOn == Some(syncedOn))
            && (forall k :: 0 <= k < |db| &&
                  (forall j :: 0 <= j < i && rows[j].level.ecomItem == db[k].name ==> !Stamps(o(j)))
                  ==> after[k] == db[k])
    decreases i
  {
    if i > 0 {
      SyncedUpToRules(db, rows, o, syncedOn, i - 1);
    }
  }

  /** Every Pushed row, and only those, pushes its available quantity. */
  lemma {:induction false} PushesUpToRules(rows: seq<PushRow>, whMap: map<string, string>, o: nat -> PushOutcome,
                                           i: nat)
    requires i <= |rows|
    ensures forall p :: p in PushesUpTo(rows, whMap, o, i) <==>
              exists j :: 0 <= j < i && o(j).Pushed? && p == PushOf(rows[j].level, whMap)
    decreases i
  {
    if i > 0 {
      PushesUpToRules(rows, whMap, o, i - 1);
    }
  }

  /** A cost update is made for a row if and only if its push succeeded and
      its cost is positive. */
  lemma {:induction false} CostUpdatesUpToRules(rows: seq<PushRow>, o: nat -> PushOutcome, i: nat)
    requires i <= |rows|
    ensures forall c :: c in CostUpdatesUpTo(rows, o, i) <==>
              exists j :: 0 <= j < i && o(j).Pushed? && rows[j].level.cost > 0.0
                          && c == CostUpdate(rows[j].level.variantId, rows[j].level.cost)
    decreases i
  {
    if i > 0 {
      CostUpdatesUpToRules(rows, o, i - 1);
    }
  }

  // ---------------------------------------------------------------------
  // Batch status

  function SuccessCount(rows: seq<PushRow>): nat
    decreases |rows|
  {
    if rows == [] then 0
    else SuccessCount(rows[..|rows| - 1]) + (if rows[|rows| - 1].status == Success then 1 else 0)
  }

  /** `_log_inventory_update_status`'s status: from the share of rows whose
      status is "Success". */
  function BatchStatus(rows: seq<PushRow>): string
    requires rows != []
  {
    var percent := SuccessCount(rows) as real / |rows| as real;
    if percent == 0.0 then "Failed" else if percent < 1.0 then "Partial Success" else "Success"
  }

  lemma {:induction false} SuccessCountBound(rows: seq<PushRow>)
    ensures SuccessCount(rows) <= |rows|
    ensures SuccessCount(rows) == |rows| <==> forall k :: 0 <= k < |rows| ==> rows[k].status == Success
    ensures SuccessCount(rows) == 0 <==> forall k :: 0 <= k < |rows| ==> rows[k].status != Success
    decreases |rows|
  {
    if rows != [] {
      var n := |rows| - 1;
      SuccessCountBound(rows[..n]);
      assert forall k :: 0 <= k < n ==> rows[..n][k] == rows[k];
    }
  }

  /** "Failed" exactly when no row succeeded, "Success" exactly when all
      did, "Partial Success" otherwise; "Not Found" counts as not
      successful. */
  lemma BatchStatusRules(rows: seq<PushRow>)
    requires rows != []
    ensures BatchStatus(rows) == "Failed" <==> forall k :: 0 <= k < |rows| ==> rows[k].status != Success
    ensures BatchStatus(rows) == "Success" <==> forall k :: 0 <= k < |rows| ==> rows[k].status == Success
    ensures BatchStatus(rows) == "Partial Success" <==> 0 < SuccessCount(rows) < |rows|
  {
    SuccessCountBound(rows);
    ShareFacts(SuccessCount(rows) as real, |rows| as real);
  }

  lemma MulNonneg(x: real, y: real)
    requires 0.0 <= x && 0.0 <= y
    ensures 0.0 <= x * y
  {
  }

  lemma MulPos(x: real, y: real)
    requires 0.0 < x && 0.0 < y
    ensures 0.0 < x * y
  {
  }

  /** The share `c / l` of a non-negative count in a positive length is 0
      exactly when the count is, and below 1 exactly when the count is below
      the length. */
  lemma ShareFacts(c: real, l: real)
    requires 0.0 <= c && 0.0 < l
    ensures c / l == 0.0 <==> c == 0.0
    ensures c / l < 1.0 <==> c < l
  {
    var p := c / l;
    assert p * l == c;
    if p < 1.0 {
      MulPos(1.0 - p, l);
      assert (1.0 - p) * l == l - c;
    } else {
      MulNonneg(p - 1.0, l);
      assert (p - 1.0) * l == c - l;
    }
  }

  /** The batch statuses logged for the rows. */
  function BatchLogs(rows: seq<PushRow>): seq<string>
  {
    var bs := Batches(rows, BatchSize);
    BatchesPartition(rows, BatchSize);
    seq(|bs|, k requires 0 <= k < |bs| => BatchStatus(bs[k]))
  }

  lemma BatchLogsSnoc(rows: seq<PushRow>, start: nat, end: nat)
    requires start % BatchSize == 0 && start < end <= |rows| && end - start <= BatchSize
    ensures BatchLogs(rows[..end]) == BatchLogs(rows[..start]) + [BatchStatus(rows[start..end])]
  {
    BatchesSnoc(rows, start, end);
  }

  // ---------------------------------------------------------------------
  // The run

  /** The rows after the pushes of rows 0..i, the others not yet touched. */
  function PushedUpTo(rows: seq<PushRow>, whMap: map<string, string>, o: nat -> PushOutcome, i: nat)
    : (r: seq<PushRow>)
    ensures |r| == |rows|
  {
    seq(|rows|, k requires 0 <= k < |rows| => if k < i then AfterPush(rows[k], whMap, o(k)) else rows[k])
  }

  lemma PushedUpToStep(rows: seq<PushRow>, whMap: map<string, string>, o: nat -> PushOutcome, i: nat)
    requires i < |rows|
    ensures PushedUpTo(rows, whMap, o, i)[i] == rows[i]
    ensures PushedUpTo(rows, whMap, o, i + 1) == PushedUpTo(rows, whMap, o, i)[i := AfterPush(rows[i], whMap, o(i))]
  {
  }

  /** One more row pushed: its stamp, push and cost update follow the
      earlier rows'. */
  lemma UpToStep(db: seq<EcomItem>, rows: seq<PushRow>, whMap: map<string, string>, o: nat -> PushOutcome,
                 syncedOn: Date, i: nat)
    requires i < |rows|
    ensures SyncedUpTo(db, rows, o, syncedOn, i + 1)
            == if Stamps(o(i)) then Stamped(SyncedUpTo(db, rows, o, syncedOn, i), rows[i].level.ecomItem, syncedOn)
               else SyncedUpTo(db, rows, o, syncedOn, i)
    ensures PushesUpTo(rows, whMap, o, i + 1)
            == PushesUpTo(rows, whMap, o, i) + (if o(i).Pushed? then [PushOf(rows[i].level, whMap)] else [])
    ensures CostUpdatesUpTo(rows, o, i + 1)
            == CostUpdatesUpTo(rows, o, i)
               + (if o(i).Pushed? && rows[i].level.cost > 0.0
                  then [CostUpdate(rows[i].level.variantId, rows[i].level.cost)] else [])
  {
  }

  /** Row i of the run, stated against the rows and the table before the
      run: the pushes and cost updates sent so far grow by row i's. */
  method PushNext(a: array<PushRow>, i: nat, whMap: map<string, string>, table: EcommerceItems,
                  syncedOn: Date, o: nat -> PushOutcome, ghost rows0: seq<PushRow>, ghost db0: seq<EcomItem>,
                  pushes: seq<Push>, costUpdates: seq<CostUpdate>)
    returns (pushes': seq<Push>, costUpdates': seq<CostUpdate>)
    requires i < a.Length == |rows0| && rows0[i].level.warehouse in whMap
    requires a[..] == PushedUpTo(rows0, whMap, o, i)
    requires table.rows == SyncedUpTo(db0, rows0, o, syncedOn, i)
    requires pushes == PushesUpTo(rows0, whMap, o, i) && costUpdates == CostUpdatesUpTo(rows0, o, i)
    modifies a, table
    ensures a[..] == PushedUpTo(rows0, whMap, o, i + 1)
    ensures table.rows == SyncedUpTo(db0, rows0, o, syncedOn, i + 1)
    ensures pushes' == PushesUpTo(rows0, whMap, o, i + 1)
    ensures costUpdates' == CostUpdatesUpTo(rows0, o, i + 1)
  {
    PushedUpToStep(rows0, whMap, o, i);
    UpToStep(db0, rows0, whMap, o, syncedOn, i);
    assert a[i] == rows0[i];
    var push, costUpdate := PushOne(a, i, whMap, table, syncedOn, o(i));
    pushes' := pushes + if push.Some? then [push.value] else [];
    costUpdates' := costUpdates + if costUpdate.Some? then [costUpdate.value] else [];
  }

  /** The inner loop: the rows of one batch, in order. */
  method PushBatch(a: array<PushRow>, start: nat, end: nat, whMap: map<string, string>, table: EcommerceItems,
                   syncedOn: Date, o: nat -> PushOutcome, ghost rows0: seq<PushRow>, ghost db0: seq<EcomItem>,
                   pushes0: seq<Push>, costUpdates0: seq<CostUpdate>)
    returns (pushes: seq<Push>, costUpdates: seq<CostUpdate>)
    requires start <= end <= a.Length == |rows0|
    requires forall k :: 0 <= k < a.Length ==> rows0[k].level.warehouse in whMap
    requires a[..] == PushedUpTo(rows0, whMap, o, start)
    requires table.rows == SyncedUpTo(db0, rows0, o, syncedOn, start)
    requires pushes0 == PushesUpTo(rows0, whMap, o, start) && costUpdates0 == CostUpdatesUpTo(rows0, o, start)
    modifies a, table
    ensures a[..] == PushedUpTo(rows0, whMap, o, end)
    ensures table.rows == SyncedUpTo(db0, rows0, o, syncedOn, end)
    ensures pushes == PushesUpTo(rows0, whMap, o, end)
    ensures costUpdates == CostUpdatesUpTo(rows0, o, end)
  {
    pushes, costUpdates := pushes0, costUpdates0;
    var i := start;
    while i < end
      invariant start <= i <= end
      invariant a[..] == PushedUpTo(rows0, whMap, o, i)
      invariant table.rows == SyncedUpTo(db0, rows0, o, syncedOn, i)
      invariant pushes == PushesUpTo(rows0, whMap, o, i)
      invariant costUpdates == CostUpdatesUpTo(rows0, o, i)
    {
      pushes, costUpdates := PushNext(a, i, whMap, table, syncedOn, o, rows0, db0, pushes, costUpdates);
      i := i + 1;
    }
  }

  /** `upload_inventory_data_to_shopify`: every row in batches of 50, each
      batch logged once it is done. Row i's remote outcome is `o(i)`; every
      stamp uses the single `syncedOn` taken before the first batch. */
  method UploadInventory(a: array<PushRow>, whMap: map<string, string>, table: EcommerceItems, syncedOn: Date,
                         o: nat -> PushOutcome)
    returns (pushes: seq<Push>, costUpdates: seq<CostUpdate>, logs: seq<string>)
    requires forall k :: 0 <= k < a.Length ==> a[k].level.warehouse in whMap
    modifies a, table
    ensures a[..] == PushedUpTo(old(a[..]), whMap, o, a.Length)
    ensures table.rows == SyncedUpTo(old(table.rows), old(a[..]), o, syncedOn, a.Length)
    ensures pushes == PushesUpTo(old(a[..]), whMap, o, a.Length)
    ensures costUpdates == CostUpdatesUpTo(old(a[..]), o, a.Length)
    ensures logs == BatchLogs(a[..])
  {
    ghost var rows0 := a[..];
    ghost var db0 := table.rows;
    pushes, costUpdates, logs := [], [], [];
    var start := 0;
    while start < a.Length
      invariant start <= a.Length && (start % BatchSize == 0 || start == a.Length)
      invariant a[..] == PushedUpTo(rows0, whMap, o, start)
      invariant table.rows == SyncedUpTo(db0, rows0, o, syncedOn, start)
      invariant pushes == PushesUpTo(rows0, whMap, o, start)
      invariant costUpdates == CostUpdatesUpTo(rows0, o, start)
      invariant logs == BatchLogs(a[..start])
    {
      var end := if a.Length - start <= BatchSize then a.Length else start + BatchSize;
      ghost var before := a[..start];
      pushes, costUpdates := PushBatch(a, start, end, whMap, table, syncedOn, o, rows0, db0, pushes, costUpdates);
      FinishedRowsKept(rows0, whMap, o, start, end);
      assert a[..start] == before;
      BatchLogsSnoc(a[..], start, end);
      assert a[..][..end] == a[..end] && a[..][..start] == a[..start] && a[..][start..end] == a[start..end];
      logs := logs + [BatchStatus(a[start..end])];
      start := end;
    }
    assert a[..start] == a[..];
  }

  /** Pushing later rows leaves the finished rows as they were. */
  lemma FinishedRowsKept(rows: seq<PushRow>, whMap: map<string, string>, o: nat -> PushOutcome, start: nat, end: nat)
    requires start <= end <= |rows|
    ensures PushedUpTo(rows, whMap, o, end)[..start] == PushedUpTo(rows, whMap, o, start)[..start]
  {
  }

  /** The gate of `update_inventory_on_shopify`. */
  predicate ShouldRun(enabled: bool, updateStockLevels: bool, needToRun: bool)
  {
    enabled && updateStockLevels && needToRun
  }

  /** The rows a run uploads, before any push: the selected levels of the
      mapped warehouses, costed, each pending. */
  function PendingRows(items: seq<EcomItem>, bins: seq<Bin>, whMap: map<string, string>, integration: string,
                       valuation: (string, string) -> real, incoming: (string, string, real) -> real)
    : seq<PushRow>
  {
    var joined := Join(items, bins, whMap.Keys, integration);
    seq(|joined|, k requires 0 <= k < |joined| => PushRow(Costed(joined[k], valuation, incoming), "", Pending, ""))
  }

  /** `update_inventory_on_shopify`: nothing unless the gate holds; then the
      unsynced levels of the mapped warehouses are selected and, if there are
      any, uploaded. */
  method UpdateInventoryOnShopify(enabled: bool, updateStockLevels: bool, needToRun: bool,
                                  whMap: map<string, string>, integration: string, table: EcommerceItems,
                                  bins: seq<Bin>, valuation: (string, string) -> real,
                                  incoming: (string, string, real) -> real, syncedOn: Date, o: nat -> PushOutcome)
    returns (uploaded: seq<PushRow>, pushes: seq<Push>, costUpdates: seq<CostUpdate>, logs: seq<string>)
    modifies table
    ensures !ShouldRun(enabled, updateStockLevels, needToRun) ==>
              uploaded == [] && pushes == [] && costUpdates == [] && logs == [] && table.rows == old(table.rows)
    ensures ShouldRun(enabled, updateStockLevels, needToRun) ==>
              var joined := Join(old(table.rows), bins, whMap.Keys, integration);
              var rows0 := PendingRows(old(table.rows), bins, whMap, integration, valuation, incoming);
              && |uploaded| == |joined|
              && (forall k :: 0 <= k < |joined| ==>
                    uploaded[k] == AfterPush(PushRow(Costed(joined[k], valuation, incoming), "", Pending, ""),
                                             whMap, o(k)))
              && pushes == PushesUpTo(rows0, whMap, o, |rows0|)
              && costUpdates == CostUpdatesUpTo(rows0, o, |rows0|)
              && table.rows == SyncedUpTo(old(table.rows), rows0, o, syncedOn, |rows0|)
              && logs == BatchLogs(uploaded)
  {
    uploaded, pushes, costUpdates, logs := [], [], [], [];
    if !enabled || !updateStockLevels {
      return;
    }
    if !needToRun {
      return;
    }
    var levels := GetInventoryLevels(table.rows, bins, whMap.Keys, integration, valuation, incoming);
    ghost var rows0 := PendingRows(old(table.rows), bins, whMap, integration, valuation, incoming);
    if levels != [] {
      var a := new PushRow[|levels|](k requires 0 <= k < |levels| => PushRow(levels[k], "", Pending, ""));
      assert a[..] == rows0;
      JoinWarehouses(old(table.rows), bins, whMap.Keys, integration);
      assert forall k :: 0 <= k < a.Length ==> a[k].level.warehouse == Join(old(table.rows), bins, whMap.Keys, integration)[k].warehouse;
      pushes, costUpdates, logs := UploadInventory(a, whMap, table, syncedOn, o);
      uploaded := a[..];
    } else {
      assert rows0 == [];
    }
  }

  /** Every joined row is in one of the listed warehouses. */
  lemma JoinWarehouses(items: seq<EcomItem>, bins: seq<Bin>, warehouses: set<string>, integration: string)
    ensures forall r :: r in Join(items, bins, warehouses, integration) ==> r.warehouse in warehouses
  {
    JoinSpec(items, bins, warehouses, integration);
  }
}
