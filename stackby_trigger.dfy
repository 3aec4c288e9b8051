/**
  One poll of the Stackby trigger node: build the `rowlist` request from the
  node parameters and the stored watermark, hand it to the fetch-all
  collaborator, move the watermark, and decide what the poll emits.
 */
module StackbyTrigger {
  import JsStrings

  datatype Option<T> = None | Some(value: T)

  /** JavaScript truthiness of an optional string: present and non-empty. */
  predicate Truthy(o: Option<string>)
  {
    o.Some? && o.value != ""
  }

  // ---------------------------------------------------------------------
  // Inputs
  // ---------------------------------------------------------------------

  /** The `additionalFields` collection; each entry may be absent. */
  datatype AdditionalFields = AdditionalFields(
    fields: Option<string>,   // comma-separated field names
    viewId: Option<string>,
    formula: Option<string>)  // extra formula, read although the UI does not declare it

  /** The node parameters `poll` reads. */
  datatype Params = Params(
    stackId: string,
    table: string,
    triggerField: string,
    additionalFields: AdditionalFields)

  /** The opaque value of one cell of a Stackby row (JSON `null` is a value, not an absent key). */
  datatype CellValue =
    | Null
    | Bool(b: bool)
    | Number(n: int)
    | Text(s: string)
    | List(items: seq<CellValue>)

  /** A row as the API returns it; the trigger only looks at the keys of `fields`. */
  datatype Record = Record(fields: map<string, CellValue>)

  /**
    What the fetch-all collaborator produced for a request: a rejection, or a
    response whose `records` entry is an array (`Some`) or anything else (`None`).
   */
  datatype FetchOutcome =
    | FetchFailed(error: string)
    | Fetched(records: Option<seq<Record>>)

  // ---------------------------------------------------------------------
  // The request
  // ---------------------------------------------------------------------

  /** A value of the query-string dictionary `qs`. */
  datatype QValue = Str(str: string) | StrList(list: seq<string>) | Int(n: int)

  type Query = map<string, QValue>

  datatype Request = Request(endpoint: string, qs: Query)

  const MANUAL_MODE := "manual"
  const DATE_PATTERN := "YYYY-MM-DD HH:mm:ss"

  /** The list endpoint: `rowlist/`, then the stack id, a slash, and the table name. */
  function Endpoint(stackId: string, table: string): (e: string)
    ensures |e| == |"rowlist/"| + |stackId| + 1 + |table|
    ensures e[..8] == "rowlist/" && e[8..8 + |stackId|] == stackId
    ensures e[8 + |stackId|] == '/' && e[9 + |stackId|..] == table
  {
    "rowlist/" + stackId + "/" + table
  }

  /** The watermark filter: rows whose trigger field is after `startDate`. */
  function IsAfter(triggerField: string, startDate: string): (f: string)
    ensures |f| == |triggerField| + |startDate| + 55
    ensures f[..10] == "IS_AFTER({" && f[10..10 + |triggerField|] == triggerField
    ensures f[10 + |triggerField|] == '}'
    ensures f[11 + |triggerField|..29 + |triggerField|] == ", DATETIME_PARSE(\""
    ensures f[|f| - |startDate| - 26..|f| - 26] == startDate
    ensures f[|f| - 26..] == "\", \"" + DATE_PATTERN + "\"))"
  {
    var f := "IS_AFTER({" + triggerField + "}, DATETIME_PARSE(\"" + startDate + "\", \"" + DATE_PATTERN + "\"))";
    assert f == "IS_AFTER({" + triggerField + "}" + (", DATETIME_PARSE(\"" + startDate + "\", \"" + DATE_PATTERN + "\"))");
    f
  }

  /** The filter sent outside manual mode: the watermark filter, conjoined with the extra formula when one is set. */
  function FilterFormula(triggerField: string, startDate: string, formula: Option<string>): (f: string)
    ensures !Truthy(formula) ==> f == IsAfter(triggerField, startDate)
    ensures Truthy(formula) ==>
      var base := IsAfter(triggerField, startDate);
      && |f| == |base| + |formula.value| + 7
      && f[..4] == "AND(" && f[4..4 + |base|] == base
      && f[4 + |base|..6 + |base|] == ", "
      && f[|f| - |formula.value| - 1..] == formula.value + ")"
  {
    if Truthy(formula) then "AND(" + IsAfter(triggerField, startDate) + ", " + formula.value + ")"
    else IsAfter(triggerField, startDate)
  }

  /** The lower end of the polled window: the stored watermark if it is truthy, else the current time. */
  function StartDate(lastTimeChecked: Option<string>, now: string): (start: string)
    ensures Truthy(lastTimeChecked) ==> start == lastTimeChecked.value
    ensures !Truthy(lastTimeChecked) ==> start == now
    ensures start != "" || now == ""
  {
    if Truthy(lastTimeChecked) then lastTimeChecked.value else now
  }

  /**
    The query `poll` sends: `view` and `fields[]` exactly when those
    parameters are truthy, then either the filter formula (scheduled polls)
    or `maxRecords = 1` in its place (manual runs), and nothing else.
   */
  ghost predicate QuerySpec(qs: Query, p: Params, startDate: string, manual: bool)
  {
    var add := p.additionalFields;
    && qs.Keys <= {"view", "fields[]", "filterByFormula", "maxRecords"}
    && ("view" in qs <==> Truthy(add.viewId))
    && (Truthy(add.viewId) ==> qs["view"] == Str(add.viewId.value))
    && ("fields[]" in qs <==> Truthy(add.fields))
    && (Truthy(add.fields) ==> qs["fields[]"] == StrList(JsStrings.Split(add.fields.value, ',')))
    && ("filterByFormula" in qs <==> !manual)
    && (!manual ==> qs["filterByFormula"] == Str(FilterFormula(p.triggerField, startDate, add.formula)))
    && ("maxRecords" in qs <==> manual)
    && (manual ==> qs["maxRecords"] == Int(1))
  }

  /** Builds `qs` step by step, as `poll` does: set, overwrite, then delete in manual mode. */
  method BuildQuery(p: Params, startDate: string, mode: string) returns (qs: Query)
    ensures QuerySpec(qs, p, startDate, mode == MANUAL_MODE)
  {
    var add := p.additionalFields;
    qs := map[];
    if Truthy(add.viewId) {
      qs := qs["view" := Str(add.viewId.value)];
    }
    if Truthy(add.fields) {
      qs := qs["fields[]" := StrList(JsStrings.Split(add.fields.value, ','))];
    }
    qs := qs["filterByFormula" := Str(IsAfter(p.triggerField, startDate))];
    if Truthy(add.formula) {
      qs := qs["filterByFormula" := Str("AND(" + qs["filterByFormula"].str + ", " + add.formula.value + ")")];
    }
    if mode == MANUAL_MODE {
      qs := qs - {"filterByFormula"};
      qs := qs["maxRecords" := Int(1)];
    }
  }

  /** The query specification leaves no freedom: it describes exactly one dictionary. */
  lemma QueryIsDetermined(q1: Query, q2: Query, p: Params, startDate: string, manual: bool)
    requires QuerySpec(q1, p, startDate, manual) && QuerySpec(q2, p, startDate, manual)
    ensures q1 == q2
  {
  }

  /**
    A manual run asks for the same thing whatever the watermark, the trigger
    field and the extra formula are: only `view` and `fields[]` matter.
   */
  lemma ManualQueryIgnoresFilter(q1: Query, q2: Query, p1: Params, p2: Params, start1: string, start2: string)
    requires QuerySpec(q1, p1, start1, true) && QuerySpec(q2, p2, start2, true)
    requires p1.additionalFields.viewId == p2.additionalFields.viewId
    requires p1.additionalFields.fields == p2.additionalFields.fields
    ensures q1 == q2
  {
  }

  /** The field selector splits on commas only, without trimming: `name,id` asks for `name` and `id`. */
  lemma FieldSelectorExample()
    ensures JsStrings.Split("name,id", ',') == ["name", "id"]
    ensures JsStrings.Split("name, id", ',') == ["name", " id"]
  {
    assert ["name", "id"][1..] == ["id"] && ["name", " id"][1..] == [" id"];
    assert JsStrings.Join(["name", "id"], ',') == "name,id";
    assert JsStrings.Join(["name", " id"], ',') == "name, id";
    JsStrings.SplitJoin(["name", "id"], ',');
    JsStrings.SplitJoin(["name", " id"], ',');
  }

  /** The endpoint is the path `rowlist/<stackId>/<table>`: its segments give back both parameters. */
  lemma EndpointSegments(stackId: string, table: string)
    requires '/' !in stackId && '/' !in table
    ensures JsStrings.Split(Endpoint(stackId, table), '/') == ["rowlist", stackId, table]
  {
    var segments := ["rowlist", stackId, table];
    assert segments[1..] == [stackId, table] && segments[1..][1..] == [table];
    assert JsStrings.Join([stackId, table], '/') == stackId + "/" + table;
    assert Endpoint(stackId, table) == JsStrings.Join(segments, '/');
    JsStrings.SplitJoin(["rowlist", stackId, table], '/');
  }

  /**
    The watermark filter names exactly one trigger field and one start date:
    two filters are equal only when both are.
   */
  lemma IsAfterNamesFieldAndStart(field1: string, start1: string, field2: string, start2: string)
    requires '}' !in field1 && '}' !in field2
    requires IsAfter(field1, start1) == IsAfter(field2, start2)
    ensures field1 == field2 && start1 == start2
  {
  }

  // ---------------------------------------------------------------------
  // What the poll emits
  // ---------------------------------------------------------------------

  /** One item of an execution batch, wrapping a record's JSON as it is. */
  datatype ExecutionItem = ExecutionItem(json: Record)

  /**
    How `poll` ends: it resolves to `null` or to a list of batches, or it
    rejects with the missing-field error or with the fetch's own error.
   */
  datatype PollOutcome =
    | NoNewData
    | Emitted(output: seq<seq<ExecutionItem>>)
    | FieldMissing(message: string)
    | Rejected(error: string)

  /**
    The properties every plain object inherits from `Object.prototype`. Reading
    one of these names from a record's `fields` object never gives `undefined`,
    even when the record has no such column.
   */
  const OBJECT_PROTOTYPE_NAMES: set<string> := {
    "constructor", "hasOwnProperty", "isPrototypeOf", "propertyIsEnumerable",
    "toString", "toLocaleString", "valueOf", "__proto__",
    "__defineGetter__", "__defineSetter__", "__lookupGetter__", "__lookupSetter__"}

  /**
    `fields[name] !== undefined` for a `fields` object parsed from JSON: the
    record has the column (JSON has no `undefined`, so a present column is
    defined, `null` included), or the name is inherited from `Object.prototype`.
   */
  predicate IsDefined(fields: map<string, CellValue>, name: string)
  {
    name in fields || name in OBJECT_PROTOTYPE_NAMES
  }

  /** The host's `returnJsonArray`: one item per record, in order. */
  function ReturnJsonArray(records: seq<Record>): (items: seq<ExecutionItem>)
    ensures |items| == |records|
    ensures forall i :: 0 <= i < |records| ==> items[i].json == records[i]
  {
    seq(|records|, i requires 0 <= i < |records| => ExecutionItem(records[i]))
  }

  /**
    The decision after the fetch: nothing for an absent or empty record list;
    in a manual run, the missing-field error when the first record lacks the
    trigger field; otherwise one batch of all records in their order.
   */
  function Emission(records: Option<seq<Record>>, manual: bool, triggerField: string): (out: PollOutcome)
    ensures out.NoNewData? <==> records.None? || records.value == []
    ensures out.FieldMissing? <==>
      manual && records.Some? && records.value != [] && !IsDefined(records.value[0].fields, triggerField)
    ensures out.FieldMissing? ==> out.message == "The Field \"" + triggerField + "\" does not exist."
    ensures out.Emitted? ==>
      && records.Some?
      && |out.output| == 1
      && |out.output[0]| == |records.value|
      && forall i :: 0 <= i < |records.value| ==> out.output[0][i].json == records.value[i]
    ensures !out.Rejected?
  {
    match records
    case None => NoNewData
    case Some(rs) =>
      if rs == [] then NoNewData
      else if manual && !IsDefined(rs[0].fields, triggerField) then
        FieldMissing("The Field \"" + triggerField + "\" does not exist.")
      else Emitted([ReturnJsonArray(rs)])
  }

  /** Only the first record is checked for the trigger field; later records never change the decision. */
  lemma OnlyFirstRecordIsChecked(rs1: seq<Record>, rs2: seq<Record>, manual: bool, triggerField: string)
    requires rs1 != [] && rs2 != [] && rs1[0] == rs2[0]
    ensures Emission(Some(rs1), manual, triggerField).FieldMissing?
        == Emission(Some(rs2), manual, triggerField).FieldMissing?
  {
  }

  /**
    A trigger field named like an inherited property is never reported
    missing: a manual run whose record lacks a `constructor` column still
    emits it.
   */
  lemma InheritedNameIsNeverMissing(rs: seq<Record>, triggerField: string)
    requires rs != [] && triggerField in OBJECT_PROTOTYPE_NAMES
    ensures Emission(Some(rs), true, triggerField).Emitted?
  {
  }

  // ---------------------------------------------------------------------
  // The watermark across polls
  // ---------------------------------------------------------------------

  /** The watermark one poll leaves: its captured `now` once the fetch returned, the old one otherwise. */
  function NextWatermark(lastTimeChecked: Option<string>, now: string, fetched: bool): (w: Option<string>)
    ensures fetched ==> w == Some(now)
    ensures !fetched ==> w == lastTimeChecked
    ensures lastTimeChecked.Some? ==> w.Some?
  {
    if fetched then Some(now) else lastTimeChecked
  }

  /** One poll as far as the watermark is concerned: the time it captured and whether its fetch returned. */
  datatype PollRun = PollRun(now: string, fetched: bool)

  /** The watermark after a series of polls, oldest first. */
  function WatermarkAfter(lastTimeChecked: Option<string>, runs: seq<PollRun>): Option<string>
    decreases |runs|
  {
    if runs == [] then lastTimeChecked
    else WatermarkAfter(NextWatermark(lastTimeChecked, runs[0].now, runs[0].fetched), runs[1..])
  }

  /** Failed polls leave the watermark where it was, so the next poll asks for the same window again. */
  lemma {:induction false} FailedPollsKeepWatermark(lastTimeChecked: Option<string>, runs: seq<PollRun>)
    requires forall i :: 0 <= i < |runs| ==> !runs[i].fetched
    ensures WatermarkAfter(lastTimeChecked, runs) == lastTimeChecked
  {
    if runs != [] {
      FailedPollsKeepWatermark(lastTimeChecked, runs[1..]);
    }
  }

  /** The watermark is the time captured by the last poll whose fetch returned, whatever it emitted. */
  lemma {:induction false} WatermarkIsLastFetchTime(lastTimeChecked: Option<string>, runs: seq<PollRun>, k: nat)
    requires k < |runs| && runs[k].fetched
    requires forall i :: k < i < |runs| ==> !runs[i].fetched
    ensures WatermarkAfter(lastTimeChecked, runs) == Some(runs[k].now)
    decreases |runs|
  {
    var next := NextWatermark(lastTimeChecked, runs[0].now, runs[0].fetched);
    if k == 0 {
      FailedPollsKeepWatermark(next, runs[1..]);
    } else {
      WatermarkIsLastFetchTime(next, runs[1..], k - 1);
    }
  }

  /**
    Successive windows meet: the next poll starts exactly where the last
    poll whose fetch returned ended, at the time that poll captured.
   */
  lemma WindowsAreContiguous(lastTimeChecked: Option<string>, runs: seq<PollRun>, k: nat, now: string)
    requires k < |runs| && runs[k].fetched && runs[k].now != ""
    requires forall i :: k < i < |runs| ==> !runs[i].fetched
    ensures StartDate(WatermarkAfter(lastTimeChecked, runs), now) == runs[k].now
  {
    WatermarkIsLastFetchTime(lastTimeChecked, runs, k);
  }

  /** On the first poll, with nothing stored, the window starts and ends at the captured time. */
  lemma FirstPollWindowIsEmpty(now: string)
    ensures StartDate(None, now) == now
    ensures StartDate(Some(""), now) == now
  {
  }

  // ---------------------------------------------------------------------
  // The trigger
  // ---------------------------------------------------------------------

  /** A trigger instance and the static data the host keeps for it between polls. */
  class Trigger {
    /** `lastTimeChecked` in the node's static data: the watermark. */
    var lastTimeChecked: Option<string>

    constructor (stored: Option<string>)
      ensures lastTimeChecked == stored
    {
      lastTimeChecked := stored;
    }

    /**
      One poll. `mode` is the host's invocation mode, `now` the formatted
      current time, and `fetchAll` the paginated fetch of the request.
     */
    method Poll(p: Params, mode: string, now: string, fetchAll: Request -> FetchOutcome)
      returns (req: Request, out: PollOutcome)
      modifies this
      ensures req.endpoint == Endpoint(p.stackId, p.table)
      ensures QuerySpec(req.qs, p, StartDate(old(lastTimeChecked), now), mode == MANUAL_MODE)
      ensures lastTimeChecked == NextWatermark(old(lastTimeChecked), now, fetchAll(req).Fetched?)
      ensures fetchAll(req).FetchFailed? ==>
        out == Rejected(fetchAll(req).error) && lastTimeChecked == old(lastTimeChecked)
      ensures fetchAll(req).Fetched? ==>
        lastTimeChecked == Some(now) && out == Emission(fetchAll(req).records, mode == MANUAL_MODE, p.triggerField)
    {
      var endpoint := Endpoint(p.stackId, p.table);
      var startDate := StartDate(lastTimeChecked, now);
      var endDate := now;
      var qs := BuildQuery(p, startDate, mode);
      req := Request(endpoint, qs);
      var response := fetchAll(req);
      if response.FetchFailed? {
        out := Rejected(response.error);
        return;
      }
      lastTimeChecked := Some(endDate);
      out := Emission(response.records, mode == MANUAL_MODE, p.triggerField);
    }
  }

  /** A first scheduled poll whose fetch returns two rows emits one batch of both and stores the captured time. */
  method FirstPollScenario()
  {
    var trigger := new Trigger(None);
    var created := map["Created" := Text("2024-05-01T11:00:00Z")];
    var rows := [Record(created), Record(created["Name" := Text("b")])];
    var p := Params("stkX", "Tasks", "Created", AdditionalFields(None, None, None));
    var req, out := trigger.Poll(p, "trigger", "2024-05-01T12:00:00Z", _ => Fetched(Some(rows)));
    assert req.qs["filterByFormula"] == Str(IsAfter("Created", "2024-05-01T12:00:00Z"));
    assert out.Emitted? && |out.output| == 1 && |out.output[0]| == 2;
    assert trigger.lastTimeChecked == Some("2024-05-01T12:00:00Z");
  }
}
