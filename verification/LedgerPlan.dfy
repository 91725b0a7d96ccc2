/** `buildContractLedgerPlan`: what a list of envelopes means for the contract ledger sheet. */
module LedgerPlan {
  import opened Options
  import opened Decimal

  type Row = seq<string>

  datatype Envelope = Envelope(
    id: string, status: string, subject: string, counterparty: string,
    sentAt: Option<string>, completedAt: Option<string>, changedAt: Option<string>)

  datatype Update = Update(envelopeId: string, rowNumber: nat, status: string, updatedAt: string)

  datatype Candidate = Candidate(envelope: Envelope, proposedRow: Row)

  datatype Plan = Plan(updates: seq<Update>, candidates: seq<Candidate>, excluded: seq<string>)

  /** Pattern matching and date formatting that the plan calls. */
  datatype Ports = Ports(isTest: string -> bool, cleanSubject: string -> string, contractType: string -> string,
                         formatDate: Option<string> -> string)

  const UNCONFIRMED := "未確認"
  const ID_COLUMN := 1
  const STATUS_COLUMN := 5
  const DATE_COLUMN := 6
  const COLUMNS := 15

  // ---- Cells ----

  function Cell(row: Row, i: nat): Option<string> {
    if i < |row| then Some(row[i]) else None
  }

  /** `value || otherwise`. */
  function Or(value: Option<string>, otherwise: Option<string>): Option<string> {
    if value.Some? && value.value != "" then value else otherwise
  }

  predicate HasId(row: Row, id: string) {
    id != "" && Cell(row, ID_COLUMN) == Some(id)
  }

  // ---- Ledger numbers ----

  function Prefix(year: nat): string {
    "DS-" + Print(year) + "-"
  }

  function NumberText(year: nat, n: nat): string {
    Prefix(year) + PadStart(Print(n), 3)
  }

  /** What `^DS-<year>-(\d+)$` reads from a cell. */
  function NumberIn(cell: string, year: nat): Option<nat> {
    if Prefix(year) <= cell && |Prefix(year)| < |cell| && AllDigits(cell[|Prefix(year)|..])
    then Some(Parse(cell[|Prefix(year)|..])) else None
  }

  function RowNumber(row: Row, year: nat): nat {
    var number := NumberIn(Or(Cell(row, 0), Some("")).value, year);
    if number.Some? then number.value else 0
  }

  /** The largest number of the year in rows `1..n`. */
  function MaxNumber(ledger: seq<Row>, year: nat, n: nat): (max: nat)
    requires n <= |ledger|
    ensures forall r :: 1 <= r < n ==> RowNumber(ledger[r], year) <= max
  {
    if n <= 1 then 0
    else
      var before := MaxNumber(ledger, year, n - 1);
      if before < RowNumber(ledger[n - 1], year) then RowNumber(ledger[n - 1], year) else before
  }

  function NextNumber(ledger: seq<Row>, year: nat): nat {
    MaxNumber(ledger, year, |ledger|) + 1
  }

  lemma PadIsNumeral(s: string, width: nat)
    requires s != [] && AllDigits(s)
    ensures PadStart(s, width) != [] && AllDigits(PadStart(s, width))
    decreases width - |s|
  {
    if |s| < width { PadIsNumeral(['0'] + s, width); }
  }

  /** A number is read back from the text under which it is entered. */
  lemma NumberRoundTrip(year: nat, n: nat)
    ensures NumberIn(NumberText(year, n), year) == Some(n)
  {
    var digits := PadStart(Print(n), 3);
    assert NumberText(year, n)[|Prefix(year)|..] == digits;
    PadIsNumeral(Print(n), 3);
    ParseOfPadded(Print(n), 3);
    ParseOfPrint(n);
  }

  /** A number above all of the sheet stands in no row of it, in no spelling. */
  lemma NewNumberIsAbsent(ledger: seq<Row>, year: nat, n: nat, r: nat)
    requires 1 <= r < |ledger| && n >= NextNumber(ledger, year)
    ensures RowNumber(ledger[r], year) < n && Cell(ledger[r], 0) != Some(NumberText(year, n))
  {
    NumberRoundTrip(year, n);
  }

  // ---- What an envelope means ----

  /** The last row with the envelope's id, below the header. */
  function RowOf(ledger: seq<Row>, id: string, n: nat): (r: Option<nat>)
    requires n <= |ledger|
    ensures r.Some? ==> 1 <= r.value < n && HasId(ledger[r.value], id)
    ensures forall k :: (if r.Some? then r.value + 1 else 1) <= k < n ==> !HasId(ledger[k], id)
  {
    if n <= 1 then None
    else if HasId(ledger[n - 1], id) then Some(n - 1)
    else RowOf(ledger, id, n - 1)
  }

  function StatusLabel(status: string): string {
    if status == "completed" then "完了"
    else if status == "voided" then "取消"
    else if status == "sent" || status == "delivered" || status == "created" then "署名が必要"
    else if status == "" then UNCONFIRMED
    else status
  }

  /** The two cells that the ledger keeps in step with an envelope. */
  datatype Shown = Shown(status: string, updatedAt: string)

  function ShownOf(e: Envelope, ports: Ports): Shown {
    Shown(StatusLabel(e.status), ports.formatDate(Or(e.completedAt, Or(e.changedAt, e.sentAt))))
  }

  predicate Shows(row: Row, shown: Shown) {
    Cell(row, STATUS_COLUMN) == Some(shown.status) && Cell(row, DATE_COLUMN) == Some(shown.updatedAt)
  }

  datatype Kind = Excluded | Updated | Unchanged | New

  function KindOf(ledger: seq<Row>, e: Envelope, ports: Ports): Kind {
    if e.id == "" || ports.isTest(e.subject) then Excluded
    else match RowOf(ledger, e.id, |ledger|)
      case Some(r) => if Shows(ledger[r], ShownOf(e, ports)) then Unchanged else Updated
      case None => if e.status == "voided" then Excluded else New
  }

  function UpdateFor(ledger: seq<Row>, e: Envelope, ports: Ports): Update
    requires KindOf(ledger, e, ports) == Updated
  {
    var shown := ShownOf(e, ports);
    Update(e.id, RowOf(ledger, e.id, |ledger|).value + 1, shown.status, shown.updatedAt)
  }

  function ProposedRow(e: Envelope, year: nat, n: nat, ports: Ports): (row: Row)
    ensures |row| == COLUMNS && row[0] == NumberText(year, n) && row[ID_COLUMN] == e.id
  {
    var subject, shown := ports.cleanSubject(e.subject), ShownOf(e, ports);
    [NumberText(year, n), e.id, if e.counterparty == "" then UNCONFIRMED else e.counterparty, subject,
     ports.contractType(subject), shown.status, shown.updatedAt,
     "=HYPERLINK(\"https://apps.docusign.com/send/documents/details/" + e.id + "\",\"DocuSignで開く\")",
     "", "", "", "KEIGO SATO", "", "一部要確認", "法務チャンネル承認後にDocuSignから登録"]
  }

  /** The envelopes of one kind, in order. */
  function Of(kind: Kind, ledger: seq<Row>, envelopes: seq<Envelope>, ports: Ports): (r: seq<Envelope>)
    ensures forall e :: e in r ==> KindOf(ledger, e, ports) == kind
  {
    if envelopes == [] then []
    else
      var before, e := Of(kind, ledger, envelopes[..|envelopes| - 1], ports), envelopes[|envelopes| - 1];
      if KindOf(ledger, e, ports) == kind then before + [e] else before
  }

  lemma OfNext(kind: Kind, ledger: seq<Row>, envelopes: seq<Envelope>, n: nat, ports: Ports)
    requires n < |envelopes|
    ensures Of(kind, ledger, envelopes[..n + 1], ports) ==
      Of(kind, ledger, envelopes[..n], ports)
        + (if KindOf(ledger, envelopes[n], ports) == kind then [envelopes[n]] else [])
  {
    assert envelopes[..n + 1][..n] == envelopes[..n];
  }

  // ---- The plan ----

  /** The plan lists, in order, what the envelopes of each kind call for; new ones are numbered upwards. */
  ghost predicate IsPlan(plan: Plan, ledger: seq<Row>, envelopes: seq<Envelope>, year: nat, ports: Ports) {
    var updated, unknown, excluded := Of(Updated, ledger, envelopes, ports), Of(New, ledger, envelopes, ports),
                                    Of(Excluded, ledger, envelopes, ports);
    && |plan.updates| == |updated|
    && (forall k :: 0 <= k < |updated| ==> plan.updates[k] == UpdateFor(ledger, updated[k], ports))
    && |plan.candidates| == |unknown|
    && (forall k :: 0 <= k < |unknown| ==>
          var number := NextNumber(ledger, year) + k;
          plan.candidates[k] == Candidate(unknown[k], ProposedRow(unknown[k], year, number, ports)))
    && |plan.excluded| == |excluded|
    && (forall k :: 0 <= k < |excluded| ==> plan.excluded[k] == excluded[k].id)
  }

  lemma PlanNext(plan: Plan, plan': Plan, ledger: seq<Row>, envelopes: seq<Envelope>, n: nat, year: nat, ports: Ports)
    requires n < |envelopes| && IsPlan(plan, ledger, envelopes[..n], year, ports)
    requires var e := envelopes[n];
      match KindOf(ledger, e, ports)
      case Excluded => plan' == plan.(excluded := plan.excluded + [e.id])
      case Updated => plan' == plan.(updates := plan.updates + [UpdateFor(ledger, e, ports)])
      case Unchanged => plan' == plan
      case New =>
        var number := NextNumber(ledger, year) + |plan.candidates|;
        plan' == plan.(candidates := plan.candidates + [Candidate(e, ProposedRow(e, year, number, ports))])
    ensures IsPlan(plan', ledger, envelopes[..n + 1], year, ports)
  {
    hide NextNumber, ProposedRow, UpdateFor, Of;
    OfNext(Excluded, ledger, envelopes, n, ports);
    OfNext(Updated, ledger, envelopes, n, ports);
    OfNext(New, ledger, envelopes, n, ports);
  }

  lemma EmptyPlan(ledger: seq<Row>, year: nat, ports: Ports)
    ensures IsPlan(Plan([], [], []), ledger, [], year, ports)
  {
  }

  method BuildPlan(ledger: seq<Row>, envelopes: seq<Envelope>, year: nat, ports: Ports) returns (plan: Plan)
    ensures IsPlan(plan, ledger, envelopes, year, ports)
  {
    hide IsPlan, Of, ProposedRow, StatusLabel;
    var sequence := NextNumber(ledger, year);
    plan := Plan([], [], []);
    EmptyPlan(ledger, year, ports);
    assert envelopes[..0] == [];
    for i := 0 to |envelopes|
      invariant IsPlan(plan, ledger, envelopes[..i], year, ports)
      invariant sequence == NextNumber(ledger, year) + |plan.candidates|
    {
      var envelope := envelopes[i];
      ghost var before := plan;
      if envelope.id == "" || ports.isTest(envelope.subject) {
        plan := plan.(excluded := plan.excluded + [envelope.id]);
        PlanNext(before, plan, ledger, envelopes, i, year, ports);
        continue;
      }
      var existing := RowOf(ledger, envelope.id, |ledger|);
      if existing.Some? {
        var shown := ShownOf(envelope, ports);
        if !Shows(ledger[existing.value], shown) {
          plan := plan.(updates := plan.updates
                        + [Update(envelope.id, existing.value + 1, shown.status, shown.updatedAt)]);
        }
        PlanNext(before, plan, ledger, envelopes, i, year, ports);
        continue;
      }
      if envelope.status == "voided" {
        plan := plan.(excluded := plan.excluded + [envelope.id]);
        PlanNext(before, plan, ledger, envelopes, i, year, ports);
        continue;
      }
      var row := ProposedRow(envelope, year, sequence, ports);
      plan := plan.(candidates := plan.candidates + [Candidate(envelope, row)]);
      sequence := sequence + 1;
      PlanNext(before, plan, ledger, envelopes, i, year, ports);
    }
    assert envelopes[..|envelopes|] == envelopes;
  }

  // ---- Partition ----

  /** Every envelope is dealt with in exactly one of four ways, as often as it occurs. */
  lemma {:induction false} PlanPartitionsEnvelopes(ledger: seq<Row>, envelopes: seq<Envelope>, ports: Ports)
    ensures multiset(envelopes) ==
      multiset(Of(Updated, ledger, envelopes, ports)) + multiset(Of(Unchanged, ledger, envelopes, ports))
      + multiset(Of(New, ledger, envelopes, ports)) + multiset(Of(Excluded, ledger, envelopes, ports))
  {
    if envelopes != [] {
      var init, e := envelopes[..|envelopes| - 1], envelopes[|envelopes| - 1];
      PlanPartitionsEnvelopes(ledger, init, ports);
      assert envelopes == init + [e];
    }
  }

  // ---- Numbers ----

  /** Candidates get consecutive numbers, each its own, and none that the sheet already holds. */
  lemma CandidateNumbersAreNew(plan: Plan, ledger: seq<Row>, envelopes: seq<Envelope>, year: nat, ports: Ports,
                               i: nat, j: nat)
    requires IsPlan(plan, ledger, envelopes, year, ports) && i < |plan.candidates| && j < |plan.candidates|
    ensures NumberIn(plan.candidates[i].proposedRow[0], year) == Some(NextNumber(ledger, year) + i)
    ensures plan.candidates[i].proposedRow[0] == plan.candidates[j].proposedRow[0] ==> i == j
    ensures forall r :: 1 <= r < |ledger| ==>
      && Cell(ledger[r], 0) != Some(plan.candidates[i].proposedRow[0])
      && RowNumber(ledger[r], year) < NextNumber(ledger, year) + i
  {
    hide Of, NumberIn, NumberText, Prefix, MaxNumber, RowNumber;
    var n := NextNumber(ledger, year);
    NumberRoundTrip(year, n + i);
    NumberRoundTrip(year, n + j);
    forall r | 1 <= r < |ledger|
      ensures RowNumber(ledger[r], year) < n + i && Cell(ledger[r], 0) != Some(NumberText(year, n + i))
    {
      NewNumberIsAbsent(ledger, year, n + i, r);
    }
  }
}
