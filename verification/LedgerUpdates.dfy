/** Writing a plan's updates to the sheet, and planning again. */
module LedgerUpdates {
  import opened Options
  import opened LedgerPlan

  // ---- Writing cells ----

  function Widened(row: Row, width: nat): (r: Row)
    ensures |r| == if |row| < width then width else |row|
    ensures forall i :: 0 <= i < |r| ==> r[i] == if i < |row| then row[i] else ""
  {
    if |row| < width then row + seq(width - |row|, _ => "") else row
  }

  /** The row after its status and date cells were written. */
  function Written(row: Row, shown: Shown): Row {
    Widened(row, DATE_COLUMN + 1)[STATUS_COLUMN := shown.status][DATE_COLUMN := shown.updatedAt]
  }

  lemma WritingShows(row: Row, shown: Shown)
    ensures Shows(Written(row, shown), shown)
    ensures forall id :: HasId(Written(row, shown), id) <==> HasId(row, id)
    ensures forall year :: RowNumber(Written(row, shown), year) == RowNumber(row, year)
  {
    forall year ensures RowNumber(Written(row, shown), year) == RowNumber(row, year) {
      assert Or(Cell(Written(row, shown), 0), Some("")) == Or(Cell(row, 0), Some(""));
    }
  }

  function Write(sheet: seq<Row>, update: Update): seq<Row> {
    var r := update.rowNumber - 1;
    if 0 <= r < |sheet| then sheet[r := Written(sheet[r], Shown(update.status, update.updatedAt))] else sheet
  }

  function WriteAll(sheet: seq<Row>, updates: seq<Update>): seq<Row> {
    if updates == [] then sheet else Write(WriteAll(sheet, updates[..|updates| - 1]), updates[|updates| - 1])
  }

  // ---- The sheet after an update run ----

  /** The sheet after the updates that the plan for `envelopes` lists. */
  function Refreshed(sheet: seq<Row>, envelopes: seq<Envelope>, ports: Ports): seq<Row> {
    if envelopes == [] then sheet
    else
      var before, e := Refreshed(sheet, envelopes[..|envelopes| - 1], ports), envelopes[|envelopes| - 1];
      if KindOf(sheet, e, ports) == Updated then Write(before, UpdateFor(sheet, e, ports)) else before
  }

  ghost function UpdatesFor(sheet: seq<Row>, envelopes: seq<Envelope>, ports: Ports): seq<Update> {
    if envelopes == [] then []
    else
      var before, e := UpdatesFor(sheet, envelopes[..|envelopes| - 1], ports), envelopes[|envelopes| - 1];
      if KindOf(sheet, e, ports) == Updated then before + [UpdateFor(sheet, e, ports)] else before
  }

  lemma {:induction false} UpdatesForMatch(sheet: seq<Row>, envelopes: seq<Envelope>, ports: Ports)
    ensures var updated, updates := Of(Updated, sheet, envelopes, ports), UpdatesFor(sheet, envelopes, ports);
      |updates| == |updated| && forall k :: 0 <= k < |updated| ==> updates[k] == UpdateFor(sheet, updated[k], ports)
    ensures WriteAll(sheet, UpdatesFor(sheet, envelopes, ports)) == Refreshed(sheet, envelopes, ports)
  {
    if envelopes != [] {
      hide UpdateFor, Write;
      UpdatesForMatch(sheet, envelopes[..|envelopes| - 1], ports);
    }
  }

  lemma WritingThePlanRefreshes(plan: Plan, sheet: seq<Row>, envelopes: seq<Envelope>, year: nat, ports: Ports)
    requires IsPlan(plan, sheet, envelopes, year, ports)
    ensures WriteAll(sheet, plan.updates) == Refreshed(sheet, envelopes, ports)
  {
    UpdatesForMatch(sheet, envelopes, ports);
    assert plan.updates == UpdatesFor(sheet, envelopes, ports);
  }

  // ---- What a refresh leaves alone, and what it sets ----

  ghost predicate SameIds(sheet: seq<Row>, sheet': seq<Row>) {
    |sheet'| == |sheet| && forall r, id :: 0 <= r < |sheet| ==> (HasId(sheet'[r], id) <==> HasId(sheet[r], id))
  }

  lemma {:induction false} SameIdsSameRow(sheet: seq<Row>, sheet': seq<Row>, id: string, n: nat)
    requires n <= |sheet| && SameIds(sheet, sheet')
    ensures RowOf(sheet', id, n) == RowOf(sheet, id, n)
  {
    if n > 1 { SameIdsSameRow(sheet, sheet', id, n - 1); }
  }

  ghost predicate Existing(sheet: seq<Row>, e: Envelope, ports: Ports) {
    KindOf(sheet, e, ports) == Updated || KindOf(sheet, e, ports) == Unchanged
  }

  /** Row `r`, which holds `id`, is untouched and up to date, or shows the last update for `id`. */
  ghost predicate RowRefreshed(sheet: seq<Row>, sheet': seq<Row>, envelopes: seq<Envelope>, ports: Ports,
                               id: string, r: nat)
    requires r < |sheet| && |sheet'| == |sheet|
  {
    || (sheet'[r] == sheet[r] && forall e :: e in envelopes && e.id == id ==> KindOf(sheet, e, ports) != Updated)
    || exists e :: e in envelopes && e.id == id && KindOf(sheet, e, ports) == Updated
                   && Shows(sheet'[r], ShownOf(e, ports))
  }

  ghost predicate RefreshedWell(sheet: seq<Row>, sheet': seq<Row>, envelopes: seq<Envelope>, ports: Ports) {
    && SameIds(sheet, sheet')
    && forall id :: RowOf(sheet, id, |sheet|).Some? ==>
         RowRefreshed(sheet, sheet', envelopes, ports, id, RowOf(sheet, id, |sheet|).value)
  }

  lemma RefreshStep(sheet: seq<Row>, before: seq<Row>, init: seq<Envelope>, e: Envelope, ports: Ports)
    requires RefreshedWell(sheet, before, init, ports)
    ensures var after :=
      if KindOf(sheet, e, ports) == Updated then Write(before, UpdateFor(sheet, e, ports)) else before;
      RefreshedWell(sheet, after, init + [e], ports)
  {
    hide Shows, ShownOf, Written;
    if KindOf(sheet, e, ports) == Updated {
      var r := RowOf(sheet, e.id, |sheet|).value;
      WritingShows(before[r], ShownOf(e, ports));
      var after := Write(before, UpdateFor(sheet, e, ports));
      assert after[r] == Written(before[r], ShownOf(e, ports));
      forall id | RowOf(sheet, id, |sheet|).Some?
        ensures RowRefreshed(sheet, after, init + [e], ports, id, RowOf(sheet, id, |sheet|).value)
      {
        assert RowRefreshed(sheet, before, init, ports, id, RowOf(sheet, id, |sheet|).value);
        if id == e.id {
          assert e in init + [e] && Shows(after[r], ShownOf(e, ports));
        }
      }
    } else {
      forall id | RowOf(sheet, id, |sheet|).Some?
        ensures RowRefreshed(sheet, before, init + [e], ports, id, RowOf(sheet, id, |sheet|).value)
      {
        assert RowRefreshed(sheet, before, init, ports, id, RowOf(sheet, id, |sheet|).value);
      }
    }
  }

  lemma {:induction false} RefreshIsWell(sheet: seq<Row>, envelopes: seq<Envelope>, ports: Ports)
    ensures RefreshedWell(sheet, Refreshed(sheet, envelopes, ports), envelopes, ports)
  {
    if envelopes != [] {
      hide RefreshedWell, KindOf;
      var init, e := envelopes[..|envelopes| - 1], envelopes[|envelopes| - 1];
      RefreshIsWell(sheet, init, ports);
      RefreshStep(sheet, Refreshed(sheet, init, ports), init, e, ports);
      assert init + [e] == envelopes;
    }
  }

  // ---- Planning again ----

  ghost predicate BothExist(sheet: seq<Row>, e: Envelope, f: Envelope, ports: Ports) {
    e.id == f.id && Existing(sheet, e, ports) && Existing(sheet, f, ports)
  }

  /** Envelopes of one id that the sheet holds agree on what it should show. */
  ghost predicate Agree(sheet: seq<Row>, envelopes: seq<Envelope>, ports: Ports) {
    forall e, f :: e in envelopes && f in envelopes && BothExist(sheet, e, f, ports) ==>
      ShownOf(e, ports) == ShownOf(f, ports)
  }

  ghost predicate UpToDate(sheet: seq<Row>, envelopes: seq<Envelope>, ports: Ports) {
    forall e :: e in envelopes ==> KindOf(sheet, e, ports) != Updated
  }

  lemma KindAfterRefresh(sheet: seq<Row>, sheet': seq<Row>, e: Envelope, ports: Ports)
    requires SameIds(sheet, sheet')
    ensures Existing(sheet', e, ports) <==> Existing(sheet, e, ports)
    ensures Existing(sheet, e, ports) ==>
      && RowOf(sheet, e.id, |sheet|).Some?
      && (KindOf(sheet', e, ports) != Updated <==> Shows(sheet'[RowOf(sheet, e.id, |sheet|).value], ShownOf(e, ports)))
  {
    SameIdsSameRow(sheet, sheet', e.id, |sheet|);
  }

  /**
   * Once the updates are written, planning the same envelopes again yields no update exactly if envelopes
   * that share an id agree; with distinct ids it never does.
   */
  lemma ReplanHasNoUpdatesIffAgreed(sheet: seq<Row>, envelopes: seq<Envelope>, ports: Ports)
    ensures UpToDate(Refreshed(sheet, envelopes, ports), envelopes, ports) <==> Agree(sheet, envelopes, ports)
  {
    hide KindOf, Shows, ShownOf;
    var sheet' := Refreshed(sheet, envelopes, ports);
    RefreshIsWell(sheet, envelopes, ports);
    forall e ensures
      && (Existing(sheet', e, ports) <==> Existing(sheet, e, ports))
      && (Existing(sheet, e, ports) ==>
            && RowOf(sheet, e.id, |sheet|).Some?
            && (KindOf(sheet', e, ports) != Updated <==>
                  Shows(sheet'[RowOf(sheet, e.id, |sheet|).value], ShownOf(e, ports))))
    {
      KindAfterRefresh(sheet, sheet', e, ports);
    }
    if Agree(sheet, envelopes, ports) {
      forall e | e in envelopes ensures KindOf(sheet', e, ports) != Updated {
        if Existing(sheet, e, ports) {
          AgreedRowIsShown(sheet, sheet', envelopes, e, ports);
        }
      }
    } else {
      var e, f :| e in envelopes && f in envelopes && BothExist(sheet, e, f, ports)
        && ShownOf(e, ports) != ShownOf(f, ports);
      OneRowShowsOneThing(sheet'[RowOf(sheet, e.id, |sheet|).value], ShownOf(e, ports), ShownOf(f, ports));
    }
  }

  lemma OneRowShowsOneThing(row: Row, a: Shown, b: Shown)
    ensures Shows(row, a) && Shows(row, b) ==> a == b
  {
  }

  lemma AgreedRowIsShown(sheet: seq<Row>, sheet': seq<Row>, envelopes: seq<Envelope>, e: Envelope, ports: Ports)
    requires RefreshedWell(sheet, sheet', envelopes, ports) && Agree(sheet, envelopes, ports)
    requires e in envelopes && Existing(sheet, e, ports)
    ensures RowOf(sheet, e.id, |sheet|).Some?
    ensures Shows(sheet'[RowOf(sheet, e.id, |sheet|).value], ShownOf(e, ports))
  {
    hide Shows, ShownOf;
    var r := RowOf(sheet, e.id, |sheet|).value;
    assert RowRefreshed(sheet, sheet', envelopes, ports, e.id, r);
    if f :| f in envelopes && f.id == e.id && KindOf(sheet, f, ports) == Updated
            && Shows(sheet'[r], ShownOf(f, ports))
    {
      assert BothExist(sheet, e, f, ports);
    }
  }

  ghost predicate DistinctIds(envelopes: seq<Envelope>) {
    forall i, j :: 0 <= i < j < |envelopes| ==> envelopes[i].id != envelopes[j].id
  }

  lemma DistinctIdsAgree(sheet: seq<Row>, envelopes: seq<Envelope>, ports: Ports)
    requires DistinctIds(envelopes)
    ensures Agree(sheet, envelopes, ports)
  {
  }

  lemma {:induction false} UpToDateHasNoUpdates(sheet: seq<Row>, envelopes: seq<Envelope>, ports: Ports)
    requires UpToDate(sheet, envelopes, ports)
    ensures Of(Updated, sheet, envelopes, ports) == []
  {
    if envelopes != [] { UpToDateHasNoUpdates(sheet, envelopes[..|envelopes| - 1], ports); }
  }

  /** Planning again after writing a plan's updates finds nothing left to update. */
  lemma ReplanIsIdempotent(plan: Plan, plan': Plan, sheet: seq<Row>, envelopes: seq<Envelope>, year: nat, ports: Ports)
    requires DistinctIds(envelopes)
    requires IsPlan(plan, sheet, envelopes, year, ports)
    requires IsPlan(plan', WriteAll(sheet, plan.updates), envelopes, year, ports)
    ensures plan'.updates == []
  {
    WritingThePlanRefreshes(plan, sheet, envelopes, year, ports);
    DistinctIdsAgree(sheet, envelopes, ports);
    ReplanHasNoUpdatesIffAgreed(sheet, envelopes, ports);
    UpToDateHasNoUpdates(WriteAll(sheet, plan.updates), envelopes, ports);
  }
}
