/** The domain objects of the client and their merge rules (vxcube_api/objects.py).

    An object's state is the map of the slots that are currently set: a slot that was
    never assigned is absent, and reading it raises AttributeError.  Samples, sessions
    and CureIt records are only ever built and read here, so they stay values; tasks
    and analyses are updated in place and are classes. */
module Objects {
  import opened Values

  type Attrs = map<string, Value>

  /** The class-level declarations `update` consults: every slot of the class and
      its bases (always including `_raw_api`), and the timestamp slots. */
  datatype Schema = Schema(slots: set<string>, timeFields: set<string>)

  const RawApiSlot := "_raw_api"

  const SessionSchema := Schema({RawApiSlot, "api_key", "start_date"}, {"start_date"})

  const SampleSchema := Schema({RawApiSlot, "id", "name", "size", "format_name", "upload_date",
                                "md5", "sha1", "sha256", "is_x64", "platforms"}, {"upload_date"})

  const CureItSchema := Schema({RawApiSlot, "status", "retries", "analysis_id", "task_id"}, {})

  /** The per-status slots of a task, in declaration order. */
  const VariableSlots: seq<string> := ["message", "progress", "verdict", "rules"]

  const TaskSchema := Schema({RawApiSlot, "message", "progress", "verdict", "rules", "id", "status",
                              "platform_code", "start_date", "end_date", "maliciousness"},
                             {"start_date", "end_date"})

  /** The slots of an analysis other than `tasks`, which the `Analysis` class keeps
      as its own field. */
  const AnalysisSchema := Schema({RawApiSlot, "id", "sha1", "sample_id", "size", "format_name",
                                  "start_date", "user_name"}, {"start_date"})

  // ---------------------------------------------------------------------------
  // ApiObject.update

  /** The value stored for `key`: timestamps go through `_convert_time`. */
  function Convert(schema: Schema, key: string, v: Value): Value {
    if key in schema.timeFields then ConvertTime(v) else v
  }

  /** `update(**kwargs)`: the keyword arguments are assigned one after the other,
      each only when it names a slot. */
  function Updated(schema: Schema, attrs: Attrs, kwargs: Entries): Attrs
    decreases |kwargs|
  {
    if kwargs == [] then attrs
    else
      var a := Updated(schema, attrs, kwargs[..|kwargs| - 1]);
      var (k, v) := kwargs[|kwargs| - 1];
      if k in schema.slots then a[k := Convert(schema, k, v)] else a
  }

  /** The result of `update`, slot by slot: a slot named by the call holds the
      converted argument; every other key, slot or not, keeps exactly what it had,
      and keys that are not slots are never added. */
  lemma {:induction false} UpdatedAt(schema: Schema, attrs: Attrs, kwargs: Entries)
    ensures forall k :: k in Updated(schema, attrs, kwargs) <==>
                        k in attrs || (k in schema.slots && k in KeysOf(kwargs))
    ensures forall k :: k in schema.slots && k in KeysOf(kwargs) ==>
                        Updated(schema, attrs, kwargs)[k] == Convert(schema, k, Lookup(kwargs, k).value)
    ensures forall k :: k in attrs && !(k in schema.slots && k in KeysOf(kwargs)) ==>
                        Updated(schema, attrs, kwargs)[k] == attrs[k]
    decreases |kwargs|
  {
    if kwargs != [] {
      var init := kwargs[..|kwargs| - 1];
      UpdatedAt(schema, attrs, init);
      KeysOfSnoc(kwargs);
    }
  }

  /** `ApiObject.update`'s loop over the keyword arguments. */
  method AssignSlots(schema: Schema, attrs: Attrs, kwargs: Entries) returns (r: Attrs)
    ensures r == Updated(schema, attrs, kwargs)
  {
    r := attrs;
    var i := 0;
    while i < |kwargs|
      invariant 0 <= i <= |kwargs|
      invariant r == Updated(schema, attrs, kwargs[..i])
    {
      assert kwargs[..i + 1][..i] == kwargs[..i];
      var (key, v) := kwargs[i];
      if key in schema.slots {
        if key in schema.timeFields {
          r := r[key := ConvertTime(v)];
        } else {
          r := r[key := v];
        }
      }
      i := i + 1;
    }
    assert kwargs[..i] == kwargs;
  }

  /** An object built from nothing: `Schema(**kwargs)`. */
  function Construct(schema: Schema, kwargs: Entries): Attrs {
    Updated(schema, map[], kwargs)
  }

  lemma {:induction false} UpdatedSnoc(schema: Schema, attrs: Attrs, kwargs: Entries, k: string, v: Value)
    ensures Updated(schema, attrs, kwargs + [(k, v)]) ==
            var a := Updated(schema, attrs, kwargs);
            if k in schema.slots then a[k := Convert(schema, k, v)] else a
  {
    assert (kwargs + [(k, v)])[..|kwargs|] == kwargs;
  }

  /** A class with slots attr1..attr3 (attr2 and attr3 timestamps) built from five
      keywords: attr4 is not a slot and stays unset, an empty timestamp is None. */
  lemma {:induction false} ConstructExample()
    ensures var schema := Schema({RawApiSlot, "attr1", "attr2", "attr3"}, {"attr2", "attr3"});
      Construct(schema, [(RawApiSlot, Str("raw")), ("attr1", Str("a1")), ("attr2", Str("2018-04-08")),
                         ("attr3", Null), ("attr4", Str("a4"))])
      == map[RawApiSlot := Str("raw"), "attr1" := Str("a1"), "attr2" := Time(Str("2018-04-08")), "attr3" := Null]
  {
    var schema := Schema({RawApiSlot, "attr1", "attr2", "attr3"}, {"attr2", "attr3"});
    var e0, e1, e2, e3, e4 := (RawApiSlot, Str("raw")), ("attr1", Str("a1")), ("attr2", Str("2018-04-08")),
                              ("attr3", Null), ("attr4", Str("a4"));
    UpdatedSnoc(schema, map[], [], e0.0, e0.1);
    UpdatedSnoc(schema, map[], [e0], e1.0, e1.1);
    UpdatedSnoc(schema, map[], [e0, e1], e2.0, e2.1);
    UpdatedSnoc(schema, map[], [e0, e1, e2], e3.0, e3.1);
    UpdatedSnoc(schema, map[], [e0, e1, e2, e3], e4.0, e4.1);
    assert [] + [e0] == [e0] && [e0] + [e1] == [e0, e1] && [e0, e1] + [e2] == [e0, e1, e2];
    assert [e0, e1, e2] + [e3] == [e0, e1, e2, e3] && [e0, e1, e2, e3] + [e4] == [e0, e1, e2, e3, e4];
  }

  // ---------------------------------------------------------------------------
  // Attribute access and status flags

  /** Reading a slot: AttributeError when it was never set. */
  function Attr(attrs: Attrs, name: string): (r: Result<Value>)
    ensures r.Ok? <==> name in attrs
  {
    if name in attrs then Ok(attrs[name]) else Err(AttributeError(name))
  }

  /** `self.status == value`. */
  function StatusIs(attrs: Attrs, value: string): Result<bool> {
    match Attr(attrs, "status")
    case Ok(s) => Ok(PyEq(s, Str(value)))
    case Err(e) => Err(e)
  }

  /** `Task.is_finished`: neither queued nor processing. */
  function TaskIsFinished(t: Attrs): Result<bool> {
    match Attr(t, "status")
    case Ok(s) => Ok(!(PyEq(s, Str("in queue")) || PyEq(s, Str("processing"))))
    case Err(e) => Err(e)
  }

  /** `Task.is_processing`. */
  function TaskIsProcessing(t: Attrs): Result<bool> {
    match TaskIsFinished(t)
    case Ok(b) => Ok(!b)
    case Err(e) => Err(e)
  }

  /** A task is finished exactly when its status is set and is neither "in queue"
      nor "processing"; processing is the negation of finished; successful, failed
      and deleted tasks are finished. */
  lemma {:induction false} TaskFlagsSpec(t: Attrs)
    ensures TaskIsFinished(t) == Ok(true) <==>
            "status" in t && t["status"] != Str("in queue") && t["status"] != Str("processing")
    ensures TaskIsFinished(t).Err? <==> "status" !in t
    ensures TaskIsProcessing(t).Ok? <==> TaskIsFinished(t).Ok?
    ensures TaskIsProcessing(t).Ok? ==> TaskIsProcessing(t).value == !TaskIsFinished(t).value
    ensures (StatusIs(t, "successful") == Ok(true) || StatusIs(t, "failed") == Ok(true) ||
             StatusIs(t, "deleted") == Ok(true)) ==> TaskIsFinished(t) == Ok(true)
  {
  }

  /** `all(task.is_finished for task in tasks)`: left to right, stopping at the
      first task that is not finished or whose status is unset. */
  function AllFinished(states: seq<Attrs>): Result<bool>
    decreases |states|
  {
    if states == [] then Ok(true)
    else
      match TaskIsFinished(states[0])
      case Err(e) => Err(e)
      case Ok(false) => Ok(false)
      case Ok(true) => AllFinished(states[1..])
  }

  /** An analysis is finished exactly when every task is; it is processing exactly
      when some task is processing and every task before it is finished. */
  lemma {:induction false} AllFinishedSpec(states: seq<Attrs>)
    ensures AllFinished(states) == Ok(true) <==>
            forall i :: 0 <= i < |states| ==> TaskIsFinished(states[i]) == Ok(true)
    ensures AllFinished(states) == Ok(false) <==>
            exists i :: 0 <= i < |states| && TaskIsFinished(states[i]) == Ok(false) &&
                        forall j :: 0 <= j < i ==> TaskIsFinished(states[j]) == Ok(true)
  {
    AllFinishedTrue(states);
    AllFinishedFalse(states);
    if AllFinished(states) == Ok(false) {
      var i :| FirstUnfinished(states, i);
      assert TaskIsFinished(states[i]) == Ok(false);
    } else {
      forall i | 0 <= i < |states| && TaskIsFinished(states[i]) == Ok(false)
        ensures exists j :: 0 <= j < i && TaskIsFinished(states[j]) != Ok(true)
      {
        assert !FirstUnfinished(states, i);
      }
    }
  }

  lemma {:induction false} AllFinishedTrue(states: seq<Attrs>)
    ensures AllFinished(states) == Ok(true) <==>
            forall i :: 0 <= i < |states| ==> TaskIsFinished(states[i]) == Ok(true)
    decreases |states|
  {
    if states != [] {
      AllFinishedTrue(states[1..]);
      assert forall i :: 1 <= i < |states| ==> states[i] == states[1..][i - 1];
    }
  }

  /** Task `i` is the first unfinished one. */
  predicate FirstUnfinished(states: seq<Attrs>, i: int) {
    0 <= i < |states| && TaskIsFinished(states[i]) == Ok(false) &&
    forall j :: 0 <= j < i ==> TaskIsFinished(states[j]) == Ok(true)
  }

  lemma {:induction false} AllFinishedFalse(states: seq<Attrs>)
    ensures AllFinished(states) == Ok(false) <==> exists i :: FirstUnfinished(states, i)
    decreases |states|
  {
    if states != [] {
      var tail := states[1..];
      AllFinishedFalse(tail);
      if AllFinished(states) == Ok(false) {
        if TaskIsFinished(states[0]) == Ok(true) {
          var i :| FirstUnfinished(tail, i);
          assert forall j :: 1 <= j < i + 1 ==> states[j] == tail[j - 1];
          assert FirstUnfinished(states, i + 1);
        } else {
          assert FirstUnfinished(states, 0);
        }
      }
      if exists i :: FirstUnfinished(states, i) {
        var i :| FirstUnfinished(states, i);
        if i > 0 {
          assert forall j :: 0 <= j < i - 1 ==> tail[j] == states[j + 1];
          assert FirstUnfinished(tail, i - 1);
        }
      }
    }
  }

  /** `Analysis.is_processing`. */
  function AnyProcessing(states: seq<Attrs>): Result<bool> {
    match AllFinished(states)
    case Ok(b) => Ok(!b)
    case Err(e) => Err(e)
  }

  // ---------------------------------------------------------------------------
  // total_progress

  /** What one task adds to the total: 100 when finished, its progress otherwise. */
  function Contribution(t: Attrs): Result<int> {
    match TaskIsProcessing(t)
    case Err(e) => Err(e)
    case Ok(false) => Ok(100)
    case Ok(true) =>
      match Attr(t, "progress")
      case Err(e) => Err(e)
      case Ok(Int(p)) => Ok(p)
      case Ok(Bool(b)) => Ok(BoolToInt(b))
      case Ok(_) => Err(TypeError("unsupported operand type(s) for +="))
  }

  /** `f` summed over the tasks from left to right, stopping at the first task for
      which it raises. */
  function SumOver(f: Attrs -> Result<int>, states: seq<Attrs>): Result<int>
    decreases |states|
  {
    if states == [] then Ok(0)
    else
      match SumOver(f, states[..|states| - 1])
      case Err(e) => Err(e)
      case Ok(total) =>
        match f(states[|states| - 1])
        case Err(e) => Err(e)
        case Ok(c) => Ok(total + c)
  }

  /** The accumulated total of `total_progress`. */
  function ProgressSum(states: seq<Attrs>): Result<int> {
    SumOver(Contribution, states)
  }

  /** `total_progress`: the summed contributions divided by the number of tasks,
      exactly. */
  function TotalProgressOf(states: seq<Attrs>): Result<real> {
    match ProgressSum(states)
    case Err(e) => Err(e)
    case Ok(total) => if |states| == 0 then Err(ZeroDivisionError) else Ok(total as real / |states| as real)
  }

  /** A task whose progress, when it is processing, is a percentage. */
  predicate WellFormedProgress(t: Attrs) {
    "status" in t &&
    (TaskIsProcessing(t) == Ok(true) ==> "progress" in t && t["progress"].Int? && 0 <= t["progress"].i <= 100)
  }

  lemma {:induction false} ProgressSumBounds(states: seq<Attrs>)
    requires forall i :: 0 <= i < |states| ==> WellFormedProgress(states[i])
    ensures ProgressSum(states).Ok?
    ensures 0 <= ProgressSum(states).value <= 100 * |states|
    ensures (forall i :: 0 <= i < |states| ==> TaskIsFinished(states[i]) == Ok(true)) ==>
            ProgressSum(states).value == 100 * |states|
    decreases |states|
  {
    if states != [] {
      ProgressSumBounds(states[..|states| - 1]);
    }
  }

  /** With percentages on every processing task the total lies between 0 and 100,
      and it is exactly 100 once every task is finished.  Without tasks, the
      division raises. */
  lemma {:induction false} TotalProgressBounds(states: seq<Attrs>)
    requires forall i :: 0 <= i < |states| ==> WellFormedProgress(states[i])
    ensures |states| == 0 ==> TotalProgressOf(states) == Err(ZeroDivisionError)
    ensures |states| > 0 ==> TotalProgressOf(states).Ok? &&
                             0.0 <= TotalProgressOf(states).value <= 100.0
    ensures |states| > 0 && (forall i :: 0 <= i < |states| ==> TaskIsFinished(states[i]) == Ok(true)) ==>
            TotalProgressOf(states) == Ok(100.0)
  {
    ProgressSumBounds(states);
    if |states| > 0 {
      RatioBounds(ProgressSum(states).value as real, |states| as real);
    }
  }

  lemma {:induction false} RatioBounds(t: real, n: real)
    requires n > 0.0 && 0.0 <= t <= 100.0 * n
    ensures 0.0 <= t / n <= 100.0
    ensures t == 100.0 * n ==> t / n == 100.0
  {
  }

  /** Four tasks (queued at 0, processing at 35, failed, processing at 65) give 50. */
  lemma {:induction false} TotalProgressExample()
    ensures TotalProgressOf([map["id" := Int(1), "status" := Str("in queue"), "progress" := Int(0)],
                             map["id" := Int(2), "status" := Str("processing"), "progress" := Int(35)],
                             map["id" := Int(3), "status" := Str("failed")],
                             map["id" := Int(4), "status" := Str("processing"), "progress" := Int(65)]])
            == Ok(50.0)
  {
    var a := map["id" := Int(1), "status" := Str("in queue"), "progress" := Int(0)];
    var b := map["id" := Int(2), "status" := Str("processing"), "progress" := Int(35)];
    var c := map["id" := Int(3), "status" := Str("failed")];
    var d := map["id" := Int(4), "status" := Str("processing"), "progress" := Int(65)];
    ContributionOf(a, "in queue", Some(0));
    ContributionOf(b, "processing", Some(35));
    ContributionOf(c, "failed", None);
    ContributionOf(d, "processing", Some(65));
    SumSnoc(Contribution, [], a);
    assert [] + [a] == [a];
    SumSnoc(Contribution, [a], b);
    assert [a] + [b] == [a, b];
    SumSnoc(Contribution, [a, b], c);
    assert [a, b] + [c] == [a, b, c];
    SumSnoc(Contribution, [a, b, c], d);
    assert [a, b, c] + [d] == [a, b, c, d];
  }

  /** The contribution of a task with a string status: its integer progress while
      queued or processing, 100 once finished. */
  lemma ContributionOf(t: Attrs, status: string, progress: Option<int>)
    requires "status" in t && t["status"] == Str(status)
    requires progress.Some? ==> "progress" in t && t["progress"] == Int(progress.value)
    requires status == "in queue" || status == "processing" ==> progress.Some?
    ensures status == "in queue" || status == "processing" ==> Contribution(t) == Ok(progress.value)
    ensures status != "in queue" && status != "processing" ==> Contribution(t) == Ok(100)
  {
  }

  /** A total that has not raised grows by the next task's contribution. */
  lemma SumSnoc(f: Attrs -> Result<int>, states: seq<Attrs>, t: Attrs)
    requires SumOver(f, states).Ok? && f(t).Ok?
    ensures SumOver(f, states + [t]) == Ok(SumOver(f, states).value + f(t).value)
  {
    assert (states + [t])[..|states|] == states;
  }

  // ---------------------------------------------------------------------------
  // CureIt

  /** `CureIt(**kwargs)`: both ids default to None, then the record is rejected
      unless one of them is truthy. */
  function NewCureIt(kwargs: Entries): Result<Attrs> {
    var kw1 := SetDefault(kwargs, "analysis_id", Null);
    var kw := SetDefault(kw1, "task_id", Null);
    var attrs := Construct(CureItSchema, kw);
    SetDefaultLookup(kwargs, "analysis_id", Null);
    SetDefaultLookup(kw1, "task_id", Null);
    UpdatedAt(CureItSchema, map[], kw);
    if !Truthy(attrs["analysis_id"]) && !Truthy(attrs["task_id"])
    then Err(ApiError("CureIt is not bound to Analysis or Task"))
    else Ok(attrs)
  }

  /** A CureIt record is built exactly when the analysis id or the task id is
      truthy; it then holds both ids (None when not given) and the other slots
      given. */
  lemma {:induction false} NewCureItSpec(kwargs: Entries)
    ensures NewCureIt(kwargs).Ok? <==>
            Truthy(Get(kwargs, "analysis_id", Null)) || Truthy(Get(kwargs, "task_id", Null))
    ensures NewCureIt(kwargs).Ok? ==>
            && "analysis_id" in NewCureIt(kwargs).value && "task_id" in NewCureIt(kwargs).value
            && NewCureIt(kwargs).value["analysis_id"] == Get(kwargs, "analysis_id", Null)
            && NewCureIt(kwargs).value["task_id"] == Get(kwargs, "task_id", Null)
    ensures NewCureIt(kwargs).Err? ==> NewCureIt(kwargs).error == ApiError("CureIt is not bound to Analysis or Task")
  {
    var kw1 := SetDefault(kwargs, "analysis_id", Null);
    var kw := SetDefault(kw1, "task_id", Null);
    SetDefaultLookup(kwargs, "analysis_id", Null);
    SetDefaultLookup(kw1, "task_id", Null);
    UpdatedAt(CureItSchema, map[], kw);
  }

  /** `repr(cureit)`. */
  function CureItRepr(attrs: Attrs): Result<string> {
    match Attr(attrs, "analysis_id")
    case Err(e) => Err(e)
    case Ok(aid) =>
      var kind := if Truthy(aid) then "Analysis" else "Task";
      var id := if Truthy(aid) then Ok(aid) else Attr(attrs, "task_id");
      match id
      case Err(e) => Err(e)
      case Ok(id) =>
        match Attr(attrs, "status")
        case Err(e) => Err(e)
        case Ok(status) => Ok("CureIt (" + kind + "[" + PyStr(id) + "]) status: " + PyStr(status))
  }

  /** The representation names the analysis when its id is truthy and the task
      otherwise, with the id and the status as `str` renders them. */
  lemma {:induction false} CureItReprSpec(attrs: Attrs)
    requires "analysis_id" in attrs && "task_id" in attrs && "status" in attrs
    ensures Truthy(attrs["analysis_id"]) ==>
            CureItRepr(attrs) == Ok("CureIt (Analysis[" + PyStr(attrs["analysis_id"]) + "]) status: " + PyStr(attrs["status"]))
    ensures !Truthy(attrs["analysis_id"]) ==>
            CureItRepr(attrs) == Ok("CureIt (Task[" + PyStr(attrs["task_id"]) + "]) status: " + PyStr(attrs["status"]))
  {
    var rest := "]) status: " + PyStr(attrs["status"]);
    assert "CureIt (" + "Analysis" + "[" == "CureIt (Analysis[";
    assert "CureIt (" + "Task" + "[" == "CureIt (Task[";
    forall kind: string, id: string
      ensures "CureIt (" + kind + "[" + id + "]) status: " + PyStr(attrs["status"])
           == ("CureIt (" + kind + "[") + id + rest
    {
    }
  }

  lemma {:induction false} CureItReprExample()
    ensures CureItRepr(map["status" := Str("successful"), "retries" := Null,
                           "analysis_id" := Null, "task_id" := Int(2)])
            == Ok("CureIt (Task[2]) status: successful")
  {
    var attrs := map["status" := Str("successful"), "retries" := Null, "analysis_id" := Null, "task_id" := Int(2)];
    assert attrs["analysis_id"] == Null && attrs["task_id"] == Int(2) && attrs["status"] == Str("successful");
    CureItReprSpec(attrs);
    assert PyStr(Int(2)) == "2" && PyStr(Str("successful")) == "successful";
    ReprText();
  }

  /** The representation of the task-bound record, spelled out. */
  lemma ReprText()
    ensures "CureIt (Task[" + "2" + "]) status: " + "successful" == "CureIt (Task[2]) status: successful"
  {
    assert "CureIt (Task[" + "2" == "CureIt (Task[2";
    assert "CureIt (Task[2" + "]) status: " == "CureIt (Task[2]) status: ";
  }

  /** `CureIt.is_finished`: anything but "processing". */
  function CureItIsFinished(attrs: Attrs): Result<bool> {
    match StatusIs(attrs, "processing")
    case Ok(b) => Ok(!b)
    case Err(e) => Err(e)
  }

  /** Whether `needle` occurs in `hay` as a contiguous substring. */
  predicate IsSubstring(needle: string, hay: string) {
    exists i :: 0 <= i && i + |needle| <= |hay| && OccursAt(needle, hay, i)
  }

  predicate OccursAt(needle: string, hay: string, i: int)
    requires 0 <= i && i + |needle| <= |hay|
  {
    hay[i..i + |needle|] == needle
  }

  /** `x in container` for a string `x`: a dictionary's keys, a list's elements
      (a string equals only an equal string), a string's substrings.  Other values
      do not support `in`. */
  function Contains(container: Value, x: string): Result<bool> {
    match container
    case Object(es) => Ok(x in KeysOf(es))
    case List(xs) => Ok(Str(x) in xs)
    case Str(s) => Ok(IsSubstring(x, s))
    case _ => Err(TypeError("argument of type is not iterable"))
  }

  /** `can_retrying`. */
  function CanRetry(attrs: Attrs): Result<bool> {
    match StatusIs(attrs, "deleted")
    case Err(e) => Err(e)
    case Ok(true) => Ok(true)
    case Ok(false) =>
      match StatusIs(attrs, "failed")
      case Err(e) => Err(e)
      case Ok(false) => Ok(false)
      case Ok(true) =>
        match Attr(attrs, "retries")
        case Err(e) => Err(e)
        case Ok(retries) =>
          if !Truthy(retries) then Ok(true)
          else match Contains(retries, "after")
               case Err(e) => Err(e)
               case Ok(found) => Ok(!found)
  }

  /** For a retries record that is None or a dictionary, a retry is possible
      exactly when the CureIt was deleted, or it failed and the record is empty or
      has no "after" key. */
  lemma {:induction false} CanRetrySpec(attrs: Attrs)
    requires "status" in attrs && "retries" in attrs
    requires attrs["retries"].Null? || attrs["retries"].Object?
    ensures CanRetry(attrs) == Ok(
      attrs["status"] == Str("deleted") ||
      (attrs["status"] == Str("failed") &&
       (attrs["retries"].Null? || attrs["retries"].entries == [] || "after" !in KeysOf(attrs["retries"].entries))))
  {
  }

  lemma {:induction false} CanRetryExamples()
    ensures CanRetry(map["status" := Str("successful"), "retries" := Null]) == Ok(false)
    ensures CanRetry(map["status" := Str("failed"), "retries" := Null]) == Ok(true)
    ensures CanRetry(map["status" := Str("deleted"), "retries" := Object([("left", Int(2))])]) == Ok(true)
    ensures CanRetry(map["status" := Str("failed"), "retries" := Object([("left", Int(2))])]) == Ok(true)
    ensures CanRetry(map["status" := Str("failed"),
                         "retries" := Object([("left", Int(0)), ("after", Str("2018-04-08"))])]) == Ok(false)
  {
    var d1 := [("left", Int(2))];
    assert d1[..0] == [];
    assert Lookup(d1, "after") == None;
    var d2 := [("left", Int(0)), ("after", Str("2018-04-08"))];
    assert Lookup(d2, "after").Some?;
  }

  // ---------------------------------------------------------------------------
  // Task.update

  /** `setdefault(name, None)` for each name in turn. */
  function SetDefaults(kwargs: Entries, names: seq<string>): Entries
    decreases |names|
  {
    if names == [] then kwargs
    else SetDefault(SetDefaults(kwargs, names[..|names| - 1]), names[|names| - 1], Null)
  }

  lemma {:induction false} SetDefaultsLookup(kwargs: Entries, names: seq<string>)
    ensures forall k :: Lookup(SetDefaults(kwargs, names), k) ==
                        (if k in KeysOf(kwargs) then Lookup(kwargs, k) else if k in names then Some(Null) else None)
    decreases |names|
  {
    if names != [] {
      var init := names[..|names| - 1];
      SetDefaultsLookup(kwargs, init);
      SetDefaultLookup(SetDefaults(kwargs, init), names[|names| - 1], Null);
      assert forall k :: k in names <==> k in init || k == names[|names| - 1];
    }
  }

  /** The `setdefault` loop of `Task.update`. */
  method FillDefaults(kwargs: Entries, names: seq<string>) returns (r: Entries)
    ensures r == SetDefaults(kwargs, names)
  {
    r := kwargs;
    var i := 0;
    while i < |names|
      invariant 0 <= i <= |names|
      invariant r == SetDefaults(kwargs, names[..i])
    {
      assert names[..i + 1][..i] == names[..i];
      if names[i] !in KeysOf(r) {
        r := r + [(names[i], Null)];
      }
      i := i + 1;
    }
    assert names[..i] == names;
  }

  /** `getattr(self, "status", None)`. */
  function CurrentStatus(attrs: Attrs): Value {
    if "status" in attrs then attrs["status"] else Null
  }

  /** The call carries a status that differs from the current one. */
  predicate StatusChanges(attrs: Attrs, kwargs: Entries) {
    "status" in KeysOf(kwargs) && !PyEq(Lookup(kwargs, "status").value, CurrentStatus(attrs))
  }

  /** `Task.update(**kwargs)`. */
  function TaskUpdated(attrs: Attrs, kwargs: Entries): Attrs {
    var kw := if StatusChanges(attrs, kwargs) then SetDefaults(kwargs, VariableSlots) else kwargs;
    Updated(TaskSchema, attrs, kw)
  }

  /** On a status change every variable slot the call does not supply becomes
      None and the supplied ones take their new values; without a change the
      variable slots not supplied keep what they had.  In both cases every other
      slot follows `update`. */
  lemma {:induction false} TaskUpdatedSpec(attrs: Attrs, kwargs: Entries)
    ensures var r := TaskUpdated(attrs, kwargs);
      && (StatusChanges(attrs, kwargs) ==>
            forall v :: v in VariableSlots ==> v in r && r[v] == Get(kwargs, v, Null))
      && (!StatusChanges(attrs, kwargs) ==>
            forall v :: v in VariableSlots && v !in KeysOf(kwargs) ==>
                        (v in r <==> v in attrs) && (v in attrs ==> r[v] == attrs[v]))
      && (forall k :: k in TaskSchema.slots && k in KeysOf(kwargs) ==>
                      k in r && r[k] == Convert(TaskSchema, k, Lookup(kwargs, k).value))
      && (forall k :: k !in TaskSchema.slots ==> (k in r <==> k in attrs) && (k in attrs ==> r[k] == attrs[k]))
  {
    if StatusChanges(attrs, kwargs) {
      TaskUpdatedOnChange(attrs, kwargs);
    } else {
      UpdatedAt(TaskSchema, attrs, kwargs);
    }
  }

  /** `TaskUpdatedSpec` when the status changes: the keyword arguments with the
      variable slots defaulted to None are assigned. */
  lemma {:induction false} TaskUpdatedOnChange(attrs: Attrs, kwargs: Entries)
    requires StatusChanges(attrs, kwargs)
    ensures var r := TaskUpdated(attrs, kwargs);
      && (forall v :: v in VariableSlots ==> v in r && r[v] == Get(kwargs, v, Null))
      && (forall k :: k in TaskSchema.slots && k in KeysOf(kwargs) ==>
                      k in r && r[k] == Convert(TaskSchema, k, Lookup(kwargs, k).value))
      && (forall k :: k !in TaskSchema.slots ==> (k in r <==> k in attrs) && (k in attrs ==> r[k] == attrs[k]))
  {
    var kw := SetDefaults(kwargs, VariableSlots);
    SetDefaultsLookup(kwargs, VariableSlots);
    UpdatedAt(TaskSchema, attrs, kw);
    WipedSlots(attrs, kwargs, kw);
    forall k | k in TaskSchema.slots && k in KeysOf(kwargs)
      ensures k in TaskUpdated(attrs, kwargs) && TaskUpdated(attrs, kwargs)[k] == Convert(TaskSchema, k, Lookup(kwargs, k).value)
    {
      assert Lookup(kw, k) == Lookup(kwargs, k);
    }
  }

  /** Every variable slot is assigned the value the defaulted arguments give it. */
  lemma {:induction false} WipedSlots(attrs: Attrs, kwargs: Entries, kw: Entries)
    requires forall k :: Lookup(kw, k) ==
                        (if k in KeysOf(kwargs) then Lookup(kwargs, k) else if k in VariableSlots then Some(Null) else None)
    ensures var r := Updated(TaskSchema, attrs, kw);
      forall v :: v in VariableSlots ==> v in r && r[v] == Get(kwargs, v, Null)
  {
    UpdatedAt(TaskSchema, attrs, kw);
    VariableSlotsPlain();
    forall v | v in VariableSlots
      ensures v in Updated(TaskSchema, attrs, kw) && Updated(TaskSchema, attrs, kw)[v] == Get(kwargs, v, Null)
    {
      var found := Lookup(kw, v);
      assert found == (if v in KeysOf(kwargs) then Lookup(kwargs, v) else Some(Null));
      assert Convert(TaskSchema, v, found.value) == found.value;
    }
  }

  /** The variable slots are slots of a task and none of them is a timestamp. */
  lemma VariableSlotsPlain()
    ensures forall v :: v in VariableSlots ==> v in TaskSchema.slots && v !in TaskSchema.timeFields
  {
  }

  /** A successful task with a verdict moved to "processing" with a progress keeps
      the progress and loses its message, verdict and rules. */
  lemma {:induction false} TaskUpdateExample(attrs: Attrs)
    requires "status" in attrs && attrs["status"] == Str("successful")
    requires "verdict" in attrs && attrs["verdict"] == Str("guilty")
    ensures var r := TaskUpdated(attrs, [("status", Str("processing")), ("progress", Int(99))]);
      && "progress" in r && r["progress"] == Int(99)
      && "message" in r && r["message"] == Null
      && "verdict" in r && r["verdict"] == Null
      && "rules" in r && r["rules"] == Null
      && "status" in r && r["status"] == Str("processing")
  {
    var kw := [("status", Str("processing")), ("progress", Int(99))];
    assert kw[..1][..0] == [] && kw[..1] == [kw[0]];
    assert Lookup(kw, "status") == Some(Str("processing"));
    assert Lookup(kw, "progress") == Some(Int(99));
    assert Lookup(kw, "message") == None && Lookup(kw, "verdict") == None && Lookup(kw, "rules") == None;
    assert StatusChanges(attrs, kw);
    TaskUpdatedSpec(attrs, kw);
    assert "message" in VariableSlots && "progress" in VariableSlots;
    assert "verdict" in VariableSlots && "rules" in VariableSlots;
  }

  // ---------------------------------------------------------------------------
  // Merging task payloads by id

  /** The scan of `_update_task_by_id` from position `from`: the first task whose
      id equals `id`; reading an unset id raises. */
  function FirstMatch(states: seq<Attrs>, id: Value, from: nat): (r: Result<Option<nat>>)
    requires from <= |states|
    ensures r.Ok? && r.value.Some? ==> from <= r.value.value < |states|
    decreases |states| - from
  {
    if from == |states| then Ok(None)
    else if "id" !in states[from] then Err(AttributeError("id"))
    else if PyEq(states[from]["id"], id) then Ok(Some(from))
    else FirstMatch(states, id, from + 1)
  }

  /** Task `i` has an id and it differs from `id`. */
  predicate OtherId(t: Attrs, id: Value) {
    "id" in t && !PyEq(t["id"], id)
  }

  predicate SameId(t: Attrs, id: Value) {
    "id" in t && PyEq(t["id"], id)
  }

  /** The scan finds position `i` exactly when task `i` carries the id and every
      task before it carries another one; it finds nothing exactly when every task
      carries another id. */
  lemma {:induction false} FirstMatchSpec(states: seq<Attrs>, id: Value, from: nat)
    requires from <= |states|
    ensures forall i :: FirstMatch(states, id, from) == Ok(Some(i)) <==>
              from <= i < |states| && SameId(states[i], id) &&
              forall j :: from <= j < i ==> OtherId(states[j], id)
    ensures FirstMatch(states, id, from) == Ok(None) <==>
            forall j :: from <= j < |states| ==> OtherId(states[j], id)
    decreases |states| - from
  {
    if from < |states| {
      if OtherId(states[from], id) {
        FirstMatchSpec(states, id, from + 1);
        forall i ensures FirstMatch(states, id, from) == Ok(Some(i)) <==>
                         from <= i < |states| && SameId(states[i], id) &&
                         forall j :: from <= j < i ==> OtherId(states[j], id)
        {
          if from < i <= |states| && forall j :: from + 1 <= j < i ==> OtherId(states[j], id) {
            assert forall j :: from <= j < i ==> OtherId(states[j], id);
          }
        }
      } else {
        assert !OtherId(states[from], id);
      }
    }
  }

  /** `_update_task_by_id(task_id, data)` on the task states of an analysis whose
      own slots are `owner`: the debug message of a match reads the analysis's
      `id` before the task is updated. */
  function MergeById(owner: Attrs, states: seq<Attrs>, id: Value, data: Entries): (r: Result<seq<Attrs>>)
    ensures r.Ok? ==> |r.value| == |states|
  {
    match FirstMatch(states, id, 0)
    case Err(e) => Err(e)
    case Ok(None) => Ok(states)
    case Ok(Some(i)) =>
      if "id" !in owner then Err(AttributeError("id"))
      else Ok(states[i := TaskUpdated(states[i], data)])
  }

  /** Only the first task with the id is updated, every other task is left as it
      is, and an id no task carries changes nothing; a match on an analysis with
      no `id` of its own raises before any task changes. */
  lemma {:induction false} MergeByIdSpec(owner: Attrs, states: seq<Attrs>, id: Value, data: Entries)
    ensures forall i :: 0 <= i < |states| && SameId(states[i], id) &&
                        (forall j :: 0 <= j < i ==> OtherId(states[j], id)) ==>
              MergeById(owner, states, id, data) ==
                if "id" in owner then Ok(states[i := TaskUpdated(states[i], data)]) else Err(AttributeError("id"))
    ensures (forall j :: 0 <= j < |states| ==> OtherId(states[j], id)) ==> MergeById(owner, states, id, data) == Ok(states)
  {
    FirstMatchSpec(states, id, 0);
  }

  /** One payload of the incoming `tasks`: `task.get("id")` in `update`, the
      stricter `task["id"]` in `restart`. */
  function MergeOne(owner: Attrs, states: seq<Attrs>, task: Value, strict: bool): (r: Result<seq<Attrs>>)
    ensures r.Ok? ==> |r.value| == |states|
  {
    match task
    case Object(es) =>
      if strict then
        (match Lookup(es, "id")
         case None => Err(KeyError("id"))
         case Some(id) => MergeById(owner, states, id, es))
      else MergeById(owner, states, Get(es, "id", Null), es)
    case _ => Err(if strict then TypeError("indices must be integers") else AttributeError("get"))
  }

  datatype Merged = Merged(states: seq<Attrs>, error: Option<Exception>)

  /** The loop over the incoming payloads, stopping at the first exception; the
      tasks merged before it stay merged. */
  function MergeTasks(owner: Attrs, states: seq<Attrs>, incoming: seq<Value>, strict: bool): (r: Merged)
    ensures |r.states| == |states|
    decreases |incoming|
  {
    if incoming == [] then Merged(states, None)
    else
      var m := MergeTasks(owner, states, incoming[..|incoming| - 1], strict);
      if m.error.Some? then m
      else
        match MergeOne(owner, m.states, incoming[|incoming| - 1], strict)
        case Err(e) => Merged(m.states, Some(e))
        case Ok(r) => Merged(r, None)
  }

  /** Payloads naming ids that no task carries change nothing. */
  lemma {:induction false} MergeUnknownIds(owner: Attrs, states: seq<Attrs>, incoming: seq<Value>)
    requires forall j :: 0 <= j < |states| ==> "id" in states[j]
    requires forall k :: 0 <= k < |incoming| ==> (incoming[k].Object? &&
               forall j :: 0 <= j < |states| ==> !PyEq(states[j]["id"], Get(incoming[k].entries, "id", Null)))
    ensures MergeTasks(owner, states, incoming, false) == Merged(states, None)
    decreases |incoming|
  {
    if incoming != [] {
      MergeUnknownIds(owner, states, incoming[..|incoming| - 1]);
      MergeByIdSpec(owner, states, Get(incoming[|incoming| - 1].entries, "id", Null), incoming[|incoming| - 1].entries);
    }
  }

  // ---------------------------------------------------------------------------
  // Analysis state

  /** An analysis: its slots other than `tasks`, and the states of its tasks in
      list order. */
  datatype AnalysisState = AnalysisState(attrs: Attrs, tasks: seq<Attrs>)

  /** The state after an operation, and the exception it raised, if any. */
  datatype Outcome = Outcome(state: AnalysisState, error: Option<Exception>)

  /** `Task(_raw_api=_raw_api, **task)`. */
  function NewTask(raw: Value, task: Value): Result<Attrs> {
    match task
    case Object(es) =>
      if RawApiSlot in KeysOf(es) then Err(TypeError("got multiple values for keyword argument '_raw_api'"))
      else Ok(TaskUpdated(map[], [(RawApiSlot, raw)] + es))
    case _ => Err(TypeError("argument after ** must be a mapping"))
  }

  function NewTasks(raw: Value, items: seq<Value>): (r: Result<seq<Attrs>>)
    ensures r.Ok? ==> |r.value| == |items|
    decreases |items|
  {
    if items == [] then Ok([])
    else
      match NewTasks(raw, items[..|items| - 1])
      case Err(e) => Err(e)
      case Ok(ts) =>
        match NewTask(raw, items[|items| - 1])
        case Err(e) => Err(e)
        case Ok(t) => Ok(ts + [t])
  }

  /** `Analysis(**kwargs)`: each task payload becomes a task sharing the
      analysis's `_raw_api`. */
  function NewAnalysis(kwargs: Entries): Result<AnalysisState> {
    var rest := RemoveKey(kwargs, "tasks");
    match Iterate(Get(kwargs, "tasks", List([])))
    case Err(e) => Err(e)
    case Ok(items) =>
      match NewTasks(Get(rest, RawApiSlot, Null), items)
      case Err(e) => Err(e)
      case Ok(ts) => Ok(AnalysisState(Construct(AnalysisSchema, rest), ts))
  }

  /** `Analysis.update(**kwargs)` on an analysis that has its task list: the
      payloads are merged by id first, and the other slots are assigned only when
      the merge raised nothing. */
  function UpdateAnalysis(s: AnalysisState, kwargs: Entries): (r: Outcome)
    ensures |r.state.tasks| == |s.tasks|
  {
    var rest := RemoveKey(kwargs, "tasks");
    match Iterate(Get(kwargs, "tasks", List([])))
    case Err(e) => Outcome(s, Some(e))
    case Ok(items) =>
      var m := MergeTasks(s.attrs, s.tasks, items, false);
      if m.error.Some? then Outcome(AnalysisState(s.attrs, m.states), m.error)
      else Outcome(AnalysisState(Updated(AnalysisSchema, s.attrs, rest), m.states), None)
  }

  /** An update without `tasks` assigns the slots and leaves every task as it is. */
  lemma {:induction false} UpdateWithoutTasks(s: AnalysisState, kwargs: Entries)
    requires "tasks" !in KeysOf(kwargs)
    ensures UpdateAnalysis(s, kwargs) == Outcome(AnalysisState(Updated(AnalysisSchema, s.attrs, kwargs), s.tasks), None)
  {
    RemoveKeyAbsent(kwargs, "tasks");
  }

  /** An update carrying one task payload updates the first task with the payload's
      id, keeps every other task, and then assigns the analysis's own slots. */
  lemma {:induction false} UpdateOneTask(s: AnalysisState, kwargs: Entries, payload: Entries, i: nat)
    requires Lookup(kwargs, "tasks") == Some(List([Object(payload)]))
    requires i < |s.tasks| && SameId(s.tasks[i], Get(payload, "id", Null))
    requires forall j :: 0 <= j < i ==> OtherId(s.tasks[j], Get(payload, "id", Null))
    ensures "id" in s.attrs ==>
            UpdateAnalysis(s, kwargs) ==
            Outcome(AnalysisState(Updated(AnalysisSchema, s.attrs, RemoveKey(kwargs, "tasks")),
                                  s.tasks[i := TaskUpdated(s.tasks[i], payload)]), None)
    ensures "id" !in s.attrs ==> UpdateAnalysis(s, kwargs) == Outcome(s, Some(AttributeError("id")))
  {
    var items := [Object(payload)];
    assert items[..0] == [];
    var id := Get(payload, "id", Null);
    MergeByIdSpec(s.attrs, s.tasks, id, payload);
    if "id" in s.attrs {
      assert MergeOne(s.attrs, s.tasks, Object(payload), false) == Ok(s.tasks[i := TaskUpdated(s.tasks[i], payload)]);
      assert MergeTasks(s.attrs, s.tasks, items, false) == Merged(s.tasks[i := TaskUpdated(s.tasks[i], payload)], None);
    } else {
      assert MergeOne(s.attrs, s.tasks, Object(payload), false) == Err(AttributeError("id"));
      assert MergeTasks(s.attrs, s.tasks, items, false) == Merged(s.tasks, Some(AttributeError("id")));
    }
  }

  /** `self._raw_api.<endpoint>(self.id)`: the shared handle must be set and be a
      handle, and the id must be set. */
  function ApiCheck(attrs: Attrs, endpoint: string): Option<Exception> {
    if RawApiSlot !in attrs then Some(AttributeError(RawApiSlot))
    else if !attrs[RawApiSlot].Handle? then Some(AttributeError(endpoint))
    else if "id" !in attrs then Some(AttributeError("id"))
    else None
  }

  /** `refresh()`: the analysis fetched again and merged in with `update`. */
  function Refreshed(s: AnalysisState, response: Result<Value>): (r: Outcome)
    ensures |r.state.tasks| == |s.tasks|
  {
    match ApiCheck(s.attrs, "analyses")
    case Some(e) => Outcome(s, Some(e))
    case None =>
      match response
      case Err(e) => Outcome(s, Some(e))
      case Ok(Object(es)) => UpdateAnalysis(s, es)
      case Ok(_) => Outcome(s, Some(TypeError("argument after ** must be a mapping")))
  }

  /** `Analysis.restart()`: the restarted tasks are merged strictly by id, then the
      remaining fields go through `update`. */
  function Restarted(s: AnalysisState, response: Result<Value>): (r: Outcome)
    ensures |r.state.tasks| == |s.tasks|
  {
    if "id" !in s.attrs then Outcome(s, Some(AttributeError("id")))
    else match ApiCheck(s.attrs, "analyses")
    case Some(e) => Outcome(s, Some(e))
    case None =>
      match response
      case Err(e) => Outcome(s, Some(e))
      case Ok(Object(es)) =>
        (match Iterate(Get(es, "tasks", List([])))
         case Err(e) => Outcome(s, Some(e))
         case Ok(items) =>
           var m := MergeTasks(s.attrs, s.tasks, items, true);
           if m.error.Some? then Outcome(AnalysisState(s.attrs, m.states), m.error)
           else UpdateAnalysis(AnalysisState(s.attrs, m.states), RemoveKey(es, "tasks")))
      case Ok(List(_)) => Outcome(s, Some(TypeError("pop expected at most 1 argument")))
      case Ok(_) => Outcome(s, Some(AttributeError("pop")))
  }

  /** After a restart without errors the task list has the same length, the slots
      are those of the response minus `tasks`, and no later `update` merge ran. */
  lemma {:induction false} RestartedSpec(s: AnalysisState, response: Result<Value>)
    requires ApiCheck(s.attrs, "analyses") == None
    requires response.Ok? && response.value.Object?
    requires "tasks" !in KeysOf(response.value.entries)
    ensures Restarted(s, response) ==
            Outcome(AnalysisState(Updated(AnalysisSchema, s.attrs, response.value.entries), s.tasks), None)
  {
    var es := response.value.entries;
    RemoveKeyAbsent(es, "tasks");
    UpdateWithoutTasks(s, es);
  }

  /** A restart answered with one task payload updates the first task with the
      payload's id, keeps every other task, and then assigns the remaining fields
      of the answer as slots; a payload without `id` raises `KeyError` and
      changes nothing. */
  lemma {:induction false} RestartedOneTask(s: AnalysisState, data: Entries, payload: Entries, i: nat)
    requires ApiCheck(s.attrs, "analyses") == None
    requires Lookup(data, "tasks") == Some(List([Object(payload)]))
    requires i < |s.tasks|
    ensures Lookup(payload, "id") == None ==> Restarted(s, Ok(Object(data))) == Outcome(s, Some(KeyError("id")))
    ensures Lookup(payload, "id").Some? && SameId(s.tasks[i], Lookup(payload, "id").value) &&
            (forall j :: 0 <= j < i ==> OtherId(s.tasks[j], Lookup(payload, "id").value)) ==>
              Restarted(s, Ok(Object(data))) ==
              Outcome(AnalysisState(Updated(AnalysisSchema, s.attrs, RemoveKey(data, "tasks")),
                                    s.tasks[i := TaskUpdated(s.tasks[i], payload)]), None)
  {
    var items := [Object(payload)];
    assert items[..0] == [];
    assert Iterate(Get(data, "tasks", List([]))) == Ok(items);
    match Lookup(payload, "id")
    case None =>
      assert MergeTasks(s.attrs, s.tasks, items, true) == Merged(s.tasks, Some(KeyError("id")));
    case Some(id) =>
      if SameId(s.tasks[i], id) && (forall j :: 0 <= j < i ==> OtherId(s.tasks[j], id)) {
        var merged := s.tasks[i := TaskUpdated(s.tasks[i], payload)];
        MergeByIdSpec(s.attrs, s.tasks, id, payload);
        assert MergeTasks(s.attrs, s.tasks, items, true) == Merged(merged, None);
        var rest := RemoveKey(data, "tasks");
        RemoveKeyAbsent(rest, "tasks");
        UpdateWithoutTasks(AnalysisState(s.attrs, merged), rest);
      }
  }

  /** `Task.restart()`: only a failed or deleted task is restarted; the response is
      merged with `Task.update`. */
  function TaskRestarted(t: Attrs, response: Result<Value>): (Attrs, Result<bool>) {
    match StatusIs(t, "failed")
    case Err(e) => (t, Err(e))
    case Ok(failed) =>
      if !failed && !StatusIs(t, "deleted").value then (t, Ok(false))
      else if "id" !in t then (t, Err(AttributeError("id")))
      else match ApiCheck(t, "tasks")
      case Some(e) => (t, Err(e))
      case None =>
        match response
        case Err(e) => (t, Err(e))
        case Ok(Object(es)) => (TaskUpdated(t, es), Ok(true))
        case Ok(_) => (t, Err(TypeError("argument after ** must be a mapping")))
  }

  /** A task that neither failed nor was deleted is left alone and the call
      answers False without sending anything; a bound failed or deleted task takes
      the response as an update and the call answers True. */
  lemma {:induction false} TaskRestartGuard(t: Attrs, response: Result<Value>)
    requires "status" in t
    ensures t["status"] != Str("failed") && t["status"] != Str("deleted") ==>
            TaskRestarted(t, response) == (t, Ok(false))
    ensures (t["status"] == Str("failed") || t["status"] == Str("deleted")) && ApiCheck(t, "tasks") == None &&
            response.Ok? && response.value.Object? ==>
            TaskRestarted(t, response) == (TaskUpdated(t, response.value.entries), Ok(true))
  {
  }

  // ---------------------------------------------------------------------------
  // Progress subscription

  datatype Url = Url(scheme: string, rest: string)

  /** The stream address: "wss" over "https", "ws" over anything else. */
  function StreamUrl(base: Url): Url {
    Url(if base.scheme == "https" then "wss" else "ws", base.rest)
  }

  lemma {:induction false} StreamUrlSpec(base: Url)
    ensures StreamUrl(base).rest == base.rest
    ensures StreamUrl(base).scheme == "wss" <==> base.scheme == "https"
    ensures StreamUrl(base).scheme == "ws" <==> base.scheme != "https"
  {
  }

  /** How a socket operation can fail: the peer closed the connection, or
      anything else went wrong. */
  datatype Fault = PeerClosed | Failure(error: Exception)

  /** A received message and what `json.loads` makes of it. */
  datatype Frame = Frame(text: string, decoded: Result<Value>)

  /** The connection as the subscription sees it: faults at connect and send time,
      the messages it delivers, and how iterating it ends after the last one. */
  datatype Socket = Socket(connectFault: Option<Fault>, sendFault: Option<Fault>,
                           frames: seq<Frame>, end: Option<Fault>)

  /** What the subscription does to the connection. */
  datatype WsAction = Connect(url: Url, headers: map<string, string>) | Send(message: Value) | Close

  /** Why the receive loop stopped: the socket ran out, an empty message, the
      consumer stopped asking, the peer closed, or an exception. */
  datatype StreamEnd = Drained | EmptyMessage | Abandoned | Closed | Failed(error: Exception)

  function Fewer(demand: Option<nat>): Option<nat> {
    match demand
    case None => None
    case Some(n) => if n == 0 then Some(0) else Some(n - 1)
  }

  /** The receive loop: decoded messages in arrival order up to the first empty
      one, while the consumer (`demand` events, or without limit) keeps asking. */
  function Receive(frames: seq<Frame>, end: Option<Fault>, demand: Option<nat>): (seq<Value>, StreamEnd)
    decreases |frames|
  {
    if demand == Some(0) then ([], Abandoned)
    else if frames == [] then
      match end
      case None => ([], Drained)
      case Some(PeerClosed) => ([], Closed)
      case Some(Failure(e)) => ([], Failed(e))
    else if frames[0].text == "" then ([], EmptyMessage)
    else
      match frames[0].decoded
      case Err(e) => ([], Failed(e))
      case Ok(v) =>
        var (evs, stop) := Receive(frames[1..], end, Fewer(demand));
        ([v] + evs, stop)
  }

  /** Event `i` is message `i`, decoded; no event comes from an empty message or
      from a message after it; the consumer never receives more than it asked for. */
  lemma {:induction false} ReceiveSpec(frames: seq<Frame>, end: Option<Fault>, demand: Option<nat>)
    ensures var (evs, stop) := Receive(frames, end, demand);
      && |evs| <= |frames|
      && (forall i :: 0 <= i < |evs| ==> frames[i].text != "" && frames[i].decoded == Ok(evs[i]))
      && (stop == EmptyMessage ==> |evs| < |frames| && frames[|evs|].text == "")
      && (stop == Drained || stop == Closed ==> |evs| == |frames|)
      && (demand.Some? ==> |evs| <= demand.value)
      && (stop == Abandoned ==> demand == Some(|evs|))
    decreases |frames|
  {
    if demand != Some(0) && frames != [] && frames[0].text != "" && frames[0].decoded.Ok? {
      ReceiveSpec(frames[1..], end, Fewer(demand));
      var (evs, stop) := Receive(frames[1..], end, Fewer(demand));
      assert forall i :: 1 <= i < |evs| + 1 ==> frames[i] == frames[1..][i - 1];
    }
  }

  /** The receive loop stops on a peer close only when the socket ends that way
      after the last message, and fails only on a message that does not decode
      or on a socket that ends with another fault. */
  lemma {:induction false} ReceiveEnds(frames: seq<Frame>, end: Option<Fault>, demand: Option<nat>)
    ensures var (evs, stop) := Receive(frames, end, demand);
      && (stop == Closed ==> |evs| == |frames| && end == Some(PeerClosed))
      && (stop.Failed? ==>
            || (|evs| < |frames| && frames[|evs|].text != "" && frames[|evs|].decoded == Err(stop.error))
            || (|evs| == |frames| && end == Some(Failure(stop.error))))
    decreases |frames|
  {
    if demand != Some(0) && frames != [] && frames[0].text != "" && frames[0].decoded.Ok? {
      ReceiveEnds(frames[1..], end, Fewer(demand));
      var (evs, stop) := Receive(frames[1..], end, Fewer(demand));
      ReceiveSpec(frames[1..], end, Fewer(demand));
      if |evs| < |frames| - 1 {
        assert frames[|evs| + 1] == frames[1..][|evs|];
      }
    }
  }

  /** The messages that a consumer reading everything gets from a socket that
      delivers non-empty, decodable messages and then closes: all of them,
      decoded, in order, with the close ending the stream quietly. */
  lemma {:induction false} ReceiveAll(frames: seq<Frame>, values: seq<Value>)
    requires |frames| == |values|
    requires forall i :: 0 <= i < |frames| ==> frames[i].text != "" && frames[i].decoded == Ok(values[i])
    ensures Receive(frames, Some(PeerClosed), None) == (values, Closed)
    decreases |frames|
  {
    if frames != [] {
      ReceiveAll(frames[1..], values[1..]);
      assert values == [values[0]] + values[1..];
    }
  }

  /** What `json.dumps` can encode: JSON values, but neither a parsed timestamp
      nor the client back-reference, at any depth. */
  predicate JsonEncodable(v: Value) {
    match v
    case Time(_) => false
    case Handle(_) => false
    case List(xs) => forall i :: 0 <= i < |xs| ==> JsonEncodable(xs[i])
    case Object(es) => forall i :: 0 <= i < |es| ==> JsonEncodable(es[i].1)
    case _ => true
  }

  /** The `TypeError` of `json.dumps` for a value it cannot encode. */
  const NotSerializable := TypeError("not JSON serializable")

  /** The body of the `try`: connect, encode and send the analysis id, then receive. */
  function Converse(attrs: Attrs, url: Url, headers: map<string, string>, sock: Socket,
                    demand: Option<nat>): (seq<Value>, seq<WsAction>, StreamEnd)
  {
    if "id" !in attrs then ([], [], Failed(AttributeError("id")))
    else
      var connect := [Connect(url, headers)];
      match sock.connectFault
      case Some(PeerClosed) => ([], connect, Closed)
      case Some(Failure(e)) => ([], connect, Failed(e))
      case None =>
        if !JsonEncodable(attrs["id"]) then ([], connect, Failed(NotSerializable))
        else
          var sent := connect + [Send(Object([("analysis_id", attrs["id"])]))];
          match sock.sendFault
          case Some(PeerClosed) => ([], sent, Closed)
          case Some(Failure(e)) => ([], sent, Failed(e))
          case None =>
            var (evs, stop) := Receive(sock.frames, sock.end, demand);
            (evs, sent, stop)
  }

  /** Sending works: the connection opened and the id can be encoded. */
  predicate Sendable(attrs: Attrs, sock: Socket) {
    "id" in attrs && sock.connectFault.None? && JsonEncodable(attrs["id"])
  }

  /** With an id to send: the connection is opened first, the id is sent only when
      opening worked and it can be encoded, the connection is never closed inside,
      and a peer close ends the exchange without events. */
  lemma {:induction false} ConverseSpec(attrs: Attrs, url: Url, headers: map<string, string>, sock: Socket,
                     demand: Option<nat>)
    requires "id" in attrs
    ensures var (evs, acts, stop) := Converse(attrs, url, headers, sock, demand);
      && (!Sendable(attrs, sock) ==> acts == [Connect(url, headers)] && evs == [])
      && (Sendable(attrs, sock) ==>
            acts == [Connect(url, headers), Send(Object([("analysis_id", attrs["id"])]))])
      && (sock.connectFault.None? && !JsonEncodable(attrs["id"]) ==> stop == Failed(NotSerializable))
      && ((sock.connectFault == Some(PeerClosed) ||
           (Sendable(attrs, sock) && sock.sendFault == Some(PeerClosed))) ==> evs == [] && stop == Closed)
      && (Sendable(attrs, sock) && sock.sendFault.None? ==>
            (evs, stop) == Receive(sock.frames, sock.end, demand))
      && (stop.Failed? ==>
            || sock.connectFault == Some(Failure(stop.error))
            || (sock.connectFault.None? && !JsonEncodable(attrs["id"]) && stop.error == NotSerializable)
            || (Sendable(attrs, sock) && sock.sendFault == Some(Failure(stop.error)))
            || (Sendable(attrs, sock) && sock.sendFault.None? && stop == Receive(sock.frames, sock.end, demand).1))
  {
  }

  /** Everything one use of `subscribe_progress()` does: the events the consumer
      gets, what is done to the connection, the analysis state afterwards and the
      exception the consumer sees.  `demand` is how many events the consumer asks
      for (None: all of them); `refresh` is the server's answer to the final
      refresh. */
  datatype Subscription = Subscription(events: seq<Value>, actions: seq<WsAction>,
                                       state: AnalysisState, raised: Option<Exception>)

  function Subscribe(s: AnalysisState, base: Url, headers: map<string, string>, sock: Socket,
                     demand: Option<nat>, refresh: Result<Value>): Subscription
  {
    if demand == Some(0) then Subscription([], [], s, None)
    else
      match AllFinished(s.tasks)
      case Err(e) => Subscription([], [], s, Some(e))
      case Ok(true) =>
        Subscription([], [], s, Some(if "id" in s.attrs then ApiError("All tasks finished") else AttributeError("id")))
      case Ok(false) =>
        if RawApiSlot !in s.attrs then Subscription([], [], s, Some(AttributeError(RawApiSlot)))
        else if !s.attrs[RawApiSlot].Handle? then Subscription([], [], s, Some(AttributeError("ws")))
        else
          var (evs, acts, stop) := Converse(s.attrs, StreamUrl(base), headers, sock, demand);
          var pending := if stop.Failed? then Some(stop.error) else None;
          var o := Refreshed(s, refresh);
          Subscription(evs, acts + [Close], o.state, if o.error.Some? then o.error else pending)
  }

  /** A finished analysis raises before any connection is made and changes nothing. */
  lemma {:induction false} SubscribeFinished(s: AnalysisState, base: Url, headers: map<string, string>, sock: Socket,
                          demand: Option<nat>, refresh: Result<Value>)
    requires demand != Some(0) && AllFinished(s.tasks) == Ok(true) && "id" in s.attrs
    ensures Subscribe(s, base, headers, sock, demand, refresh) ==
            Subscription([], [], s, Some(ApiError("All tasks finished")))
  {
  }

  /** A subscription to a bound, unfinished analysis connects to the stream
      address with the given headers, sends exactly `{"analysis_id": id}` once
      connected when the id can be encoded, and closes the connection exactly
      once as its last action. */
  lemma {:induction false} SubscribeSpec(s: AnalysisState, base: Url, headers: map<string, string>, sock: Socket,
                      demand: Option<nat>, refresh: Result<Value>)
    requires demand != Some(0) && AllFinished(s.tasks) == Ok(false)
    requires ApiCheck(s.attrs, "analyses") == None
    ensures var r := Subscribe(s, base, headers, sock, demand, refresh);
      && (|r.actions| == 2 || |r.actions| == 3)
      && r.actions[0] == Connect(StreamUrl(base), headers)
      && (Sendable(s.attrs, sock) <==> |r.actions| == 3)
      && (Sendable(s.attrs, sock) ==> r.actions[1] == Send(Object([("analysis_id", s.attrs["id"])])))
      && r.actions[|r.actions| - 1] == Close
      && (forall i :: 0 <= i < |r.actions| - 1 ==> r.actions[i] != Close)
  {
    ConverseSpec(s.attrs, StreamUrl(base), headers, sock, demand);
    var c := Converse(s.attrs, StreamUrl(base), headers, sock, demand);
    assert Subscribe(s, base, headers, sock, demand, refresh).actions == c.1 + [Close];
  }

  /** The subscription always refreshes, whatever happened on the connection:
      the new state is the refresh's, and the events are exactly those of the
      receive loop once the id was sent, none otherwise. */
  lemma {:induction false} SubscribeRefreshes(s: AnalysisState, base: Url, headers: map<string, string>, sock: Socket,
                           demand: Option<nat>, refresh: Result<Value>)
    requires demand != Some(0) && AllFinished(s.tasks) == Ok(false)
    requires ApiCheck(s.attrs, "analyses") == None
    ensures var r := Subscribe(s, base, headers, sock, demand, refresh);
      && r.state == Refreshed(s, refresh).state
      && (Sendable(s.attrs, sock) && sock.sendFault.None? ==> r.events == Receive(sock.frames, sock.end, demand).0)
      && (!(Sendable(s.attrs, sock) && sock.sendFault.None?) ==> r.events == [])
  {
    ConverseSpec(s.attrs, StreamUrl(base), headers, sock, demand);
    var c := Converse(s.attrs, StreamUrl(base), headers, sock, demand);
    assert Subscribe(s, base, headers, sock, demand, refresh).events == c.0;
  }

  /** The exception the consumer sees: the refresh's when it raised; otherwise a
      peer close, at connect, send or during the receive loop, is a normal end,
      and any other failure of the connection, of encoding the id or of decoding
      a message is raised. */
  lemma {:induction false} SubscribeRaised(s: AnalysisState, base: Url, headers: map<string, string>, sock: Socket,
                        demand: Option<nat>, refresh: Result<Value>)
    requires demand != Some(0) && AllFinished(s.tasks) == Ok(false)
    requires ApiCheck(s.attrs, "analyses") == None
    ensures var r := Subscribe(s, base, headers, sock, demand, refresh);
      var err := Refreshed(s, refresh).error;
      && (err.Some? ==> r.raised == err)
      && (err.None? && sock.connectFault.Some? ==>
            r.raised == if sock.connectFault.value.Failure? then Some(sock.connectFault.value.error) else None)
      && (err.None? && sock.connectFault.None? && !JsonEncodable(s.attrs["id"]) ==> r.raised == Some(NotSerializable))
      && (err.None? && Sendable(s.attrs, sock) && sock.sendFault.Some? ==>
            r.raised == if sock.sendFault.value.Failure? then Some(sock.sendFault.value.error) else None)
      && (err.None? && Sendable(s.attrs, sock) && sock.sendFault.None? ==>
            var stop := Receive(sock.frames, sock.end, demand).1;
            r.raised == if stop.Failed? then Some(stop.error) else None)
  {
    ConverseSpec(s.attrs, StreamUrl(base), headers, sock, demand);
  }

  /** A subscription over http with two processing tasks, a socket that delivers
      one message and closes, and a refresh answering `{"id": 42}`: the consumer
      gets the message, the connection goes to "ws", the id becomes 42 and nothing
      is raised. */
  lemma {:induction false} SubscribeExample(msg: Value)
    ensures var s := AnalysisState(map["id" := Int(1), RawApiSlot := Handle(0)],
                                   [map["id" := Int(1), "status" := Str("processing")],
                                    map["id" := Int(2), "status" := Str("processing")]]);
      var r := Subscribe(s, Url("http", "//test/api-2.0/ws/progress"), map["Authorization" := "api-key None"],
                         Socket(None, None, [Frame("{...}", Ok(msg))], Some(PeerClosed)), None,
                         Ok(Object([("id", Int(42))])));
      && r.events == [msg] && r.raised == None
      && r.actions == [Connect(Url("ws", "//test/api-2.0/ws/progress"), map["Authorization" := "api-key None"]),
                       Send(Object([("analysis_id", Int(1))])), Close]
      && "id" in r.state.attrs && r.state.attrs["id"] == Int(42)
  {
    var a := map["id" := Int(1), RawApiSlot := Handle(0)];
    var ts := [map["id" := Int(1), "status" := Str("processing")], map["id" := Int(2), "status" := Str("processing")]];
    var s := AnalysisState(a, ts);
    var kw := [("id", Int(42))];
    assert kw[..0] == [];
    assert Lookup(kw, "tasks") == None;
    RemoveKeyAbsent(kw, "tasks");
    UpdatedSnoc(AnalysisSchema, a, [], "id", Int(42));
    assert [] + [("id", Int(42))] == kw;
    assert Updated(AnalysisSchema, a, kw) == a["id" := Int(42)];
    assert UpdateAnalysis(s, kw) == Outcome(AnalysisState(a["id" := Int(42)], ts), None);
    assert Refreshed(s, Ok(Object(kw))) == Outcome(AnalysisState(a["id" := Int(42)], ts), None);
    assert TaskIsFinished(ts[0]) == Ok(false);
    assert AllFinished(ts) == Ok(false);
    var frames := [Frame("{...}", Ok(msg))];
    assert frames[1..] == [];
    assert Receive([], Some(PeerClosed), None) == ([], Closed);
    assert [msg] + [] == [msg];
    assert Receive(frames, Some(PeerClosed), None) == ([msg], Closed);
  }

  // ---------------------------------------------------------------------------
  // The mutable objects

  /** A task object; `attrs` are its set slots. */
  class Task {
    var attrs: Attrs

    /** `Task(**kwargs)`: `update` on an object with no slot set. */
    constructor (kwargs: Entries)
      ensures attrs == TaskUpdated(map[], kwargs)
    {
      attrs := map[];
      new;
      Update(kwargs);
    }

    /** `Task.update(**kwargs)`. */
    method Update(kwargs: Entries)
      modifies this
      ensures attrs == TaskUpdated(old(attrs), kwargs)
    {
      var kw := kwargs;
      if "status" in KeysOf(kwargs) && !PyEq(Lookup(kwargs, "status").value, CurrentStatus(attrs)) {
        kw := FillDefaults(kwargs, VariableSlots);
      }
      attrs := AssignSlots(TaskSchema, attrs, kw);
    }

    /** `Task.restart()`, with the server's answer to the restart request. */
    method Restart(response: Result<Value>) returns (r: Result<bool>)
      modifies this
      ensures (attrs, r) == TaskRestarted(old(attrs), response)
    {
      var failed := StatusIs(attrs, "failed");
      if failed.Err? {
        return Err(failed.error);
      }
      if !failed.value && !StatusIs(attrs, "deleted").value {
        return Ok(false);
      }
      if "id" !in attrs {
        return Err(AttributeError("id"));
      }
      var bound := ApiCheck(attrs, "tasks");
      if bound.Some? {
        return Err(bound.value);
      }
      if response.Err? {
        return Err(response.error);
      }
      if !response.value.Object? {
        return Err(TypeError("argument after ** must be a mapping"));
      }
      Update(response.value.entries);
      return Ok(true);
    }
  }

  /** The states of a list of tasks, in order. */
  function AttrsOf(ts: seq<Task>): (r: seq<Attrs>)
    reads ts
    ensures |r| == |ts| && forall i :: 0 <= i < |ts| ==> r[i] == ts[i].attrs
    decreases |ts|
  {
    if ts == [] then [] else AttrsOf(ts[..|ts| - 1]) + [ts[|ts| - 1].attrs]
  }

  /** `Task(_raw_api=self._raw_api, **task)` for one task payload: a fresh task
      object joins the list `ts`, whose objects keep their states `cur`. */
  method AppendTask(raw: Value, task: Value, ts: seq<Task>, ghost cur: seq<Attrs>) returns (r: Result<seq<Task>>)
    requires Distinct(ts) && |ts| == |cur| && forall k :: 0 <= k < |ts| ==> ts[k].attrs == cur[k]
    ensures r.Ok? <==> NewTask(raw, task).Ok?
    ensures r.Err? ==> NewTask(raw, task) == Err(r.error)
    ensures r.Ok? ==> |r.value| == |ts| + 1 && Distinct(r.value)
    ensures r.Ok? ==> forall k :: 0 <= k < |ts| ==> r.value[k] == ts[k] && r.value[k].attrs == cur[k]
    ensures r.Ok? ==> fresh(r.value[|ts|]) && r.value[|ts|].attrs == NewTask(raw, task).value
  {
    var made := NewTask(raw, task);
    if made.Err? {
      return Err(made.error);
    }
    var t := new Task([(RawApiSlot, raw)] + task.entries);
    return Ok(ts + [t]);
  }

  /** The loop of `Analysis.update` on a new analysis: one fresh task object per
      payload, each sharing `_raw_api`. */
  method NewTaskObjects(raw: Value, items: seq<Value>) returns (r: Result<seq<Task>>)
    ensures r.Ok? <==> NewTasks(raw, items).Ok?
    ensures r.Err? ==> NewTasks(raw, items) == Err(r.error)
    ensures r.Ok? ==> AttrsOf(r.value) == NewTasks(raw, items).value && Distinct(r.value)
    ensures r.Ok? ==> forall k :: 0 <= k < |r.value| ==> fresh(r.value[k])
  {
    var ts: seq<Task> := [];
    ghost var states: seq<Attrs> := [];
    var i := 0;
    while i < |items|
      invariant 0 <= i <= |items| && |ts| == i && |states| == i
      invariant forall k :: 0 <= k < i ==> NewTask(raw, items[k]) == Ok(states[k])
      invariant forall k :: 0 <= k < i ==> ts[k].attrs == states[k] && fresh(ts[k])
      invariant Distinct(ts)
    {
      var next := AppendTask(raw, items[i], ts, states);
      if next.Err? {
        NewTasksFirstError(raw, items, i, states);
        return Err(next.error);
      }
      ts := next.value;
      states := states + [ts[i].attrs];
      i := i + 1;
    }
    NewTasksAllBuilt(raw, items, states);
    assert AttrsOf(ts) == states;
    return Ok(ts);
  }

  /** No task object occurs twice in the list. */
  predicate Distinct(ts: seq<Task>) {
    forall i, j :: 0 <= i < j < |ts| ==> ts[i] != ts[j]
  }

  /** An analysis object: its slots other than `tasks`, and its task objects. */
  class Analysis {
    var attrs: Attrs
    var tasks: seq<Task>

    ghost predicate Valid()
      reads this
    {
      Distinct(tasks)
    }

    function State(): AnalysisState
      reads this, tasks
    {
      AnalysisState(attrs, AttrsOf(tasks))
    }

    constructor (rest: Entries, ts: seq<Task>)
      requires Distinct(ts)
      ensures Valid() && attrs == Construct(AnalysisSchema, rest) && tasks == ts
    {
      var a := AssignSlots(AnalysisSchema, map[], rest);
      attrs := a;
      tasks := ts;
    }

    /** `Analysis(**kwargs)`: builds a fresh task object for every payload. */
    static method Create(kwargs: Entries) returns (r: Result<Analysis>)
      ensures r.Ok? <==> NewAnalysis(kwargs).Ok?
      ensures r.Err? ==> NewAnalysis(kwargs) == Err(r.error)
      ensures r.Ok? ==> fresh(r.value) && r.value.Valid() && r.value.State() == NewAnalysis(kwargs).value
      ensures r.Ok? ==> forall i :: 0 <= i < |r.value.tasks| ==> fresh(r.value.tasks[i])
    {
      var rest := RemoveKey(kwargs, "tasks");
      var items := Iterate(Get(kwargs, "tasks", List([])));
      if items.Err? {
        return Err(items.error);
      }
      var raw := Get(rest, RawApiSlot, Null);
      var made := NewTaskObjects(raw, items.value);
      if made.Err? {
        return Err(made.error);
      }
      var ts := made.value;
      var a := new Analysis(rest, ts);
      return Ok(a);
    }

    /** `_update_task_by_id(task_id, data)`: updates the first task with that id. */
    method UpdateTaskById(taskId: Value, data: Entries) returns (r: Result<Option<Task>>)
      requires Valid()
      modifies tasks
      ensures var m := MergeById(attrs, old(AttrsOf(tasks)), taskId, data);
        && (r.Err? <==> m.Err?)
        && (m.Err? ==> r.error == m.error && AttrsOf(tasks) == old(AttrsOf(tasks)))
        && (m.Ok? ==> AttrsOf(tasks) == m.value)
    {
      ghost var before := AttrsOf(tasks);
      var i := 0;
      while i < |tasks|
        invariant 0 <= i <= |tasks|
        invariant FirstMatch(before, taskId, 0) == FirstMatch(before, taskId, i)
      {
        var t := tasks[i];
        if "id" !in t.attrs {
          return Err(AttributeError("id"));
        }
        if PyEq(t.attrs["id"], taskId) {
          if "id" !in attrs {
            return Err(AttributeError("id"));
          }
          t.Update(data);
          assert forall j :: 0 <= j < |tasks| && j != i ==> tasks[j] != t;
          assert AttrsOf(tasks) == before[i := TaskUpdated(before[i], data)];
          return Ok(Some(t));
        }
        i := i + 1;
      }
      return Ok(None);
    }

    /** One incoming payload: `task.get("id")` (`strict` false) or `task["id"]`
        (`strict` true), then `_update_task_by_id`. */
    method MergePayload(task: Value, strict: bool) returns (error: Option<Exception>)
      requires Valid()
      modifies tasks
      ensures var m := MergeOne(attrs, old(AttrsOf(tasks)), task, strict);
        && (m.Err? ==> error == Some(m.error) && AttrsOf(tasks) == old(AttrsOf(tasks)))
        && (m.Ok? ==> error == None && AttrsOf(tasks) == m.value)
    {
      if !task.Object? {
        return Some(if strict then TypeError("indices must be integers") else AttributeError("get"));
      }
      var taskId: Value;
      if strict {
        var found := Lookup(task.entries, "id");
        if found.None? {
          return Some(KeyError("id"));
        }
        taskId := found.value;
      } else {
        taskId := Get(task.entries, "id", Null);
      }
      var r := UpdateTaskById(taskId, task.entries);
      error := if r.Err? then Some(r.error) else None;
    }

    /** The loop over incoming payloads in `update` (`strict` false) and in
        `restart` (`strict` true). */
    method MergeIncoming(incoming: seq<Value>, strict: bool) returns (error: Option<Exception>)
      requires Valid()
      modifies tasks
      ensures MergeTasks(attrs, old(AttrsOf(tasks)), incoming, strict) == Merged(AttrsOf(tasks), error)
    {
      ghost var before := AttrsOf(tasks);
      var k := 0;
      assert incoming[..0] == [];
      while k < |incoming|
        invariant 0 <= k <= |incoming|
        invariant MergeTasks(attrs, before, incoming[..k], strict) == Merged(AttrsOf(tasks), None)
      {
        ghost var cur := AttrsOf(tasks);
        MergeTasksStep(attrs, before, incoming, k, strict, cur);
        error := MergePayload(incoming[k], strict);
        if error.Some? {
          assert MergeTasks(attrs, before, incoming, strict) == Merged(cur, error);
          return;
        }
        assert MergeTasks(attrs, before, incoming[..k + 1], strict) == Merged(AttrsOf(tasks), None);
        k := k + 1;
      }
      assert incoming[..k] == incoming;
      error := None;
    }

    /** `Analysis.update(**kwargs)` on a constructed analysis. */
    method Update(kwargs: Entries) returns (error: Option<Exception>)
      requires Valid()
      modifies this, tasks
      ensures Valid() && tasks == old(tasks)
      ensures Outcome(State(), error) == UpdateAnalysis(old(State()), kwargs)
    {
      var rest := RemoveKey(kwargs, "tasks");
      var items := Iterate(Get(kwargs, "tasks", List([])));
      if items.Err? {
        return Some(items.error);
      }
      error := MergeIncoming(items.value, false);
      if error.Some? {
        return;
      }
      attrs := AssignSlots(AnalysisSchema, attrs, rest);
    }

    /** `refresh()`, with the server's answer. */
    method Refresh(response: Result<Value>) returns (error: Option<Exception>)
      requires Valid()
      modifies this, tasks
      ensures Valid() && tasks == old(tasks)
      ensures Outcome(State(), error) == Refreshed(old(State()), response)
    {
      var bound := ApiCheck(attrs, "analyses");
      if bound.Some? {
        return bound;
      }
      if response.Err? {
        return Some(response.error);
      }
      if !response.value.Object? {
        return Some(TypeError("argument after ** must be a mapping"));
      }
      error := Update(response.value.entries);
    }

    /** `Analysis.restart()`, with the server's answer; True unless it raised. */
    method Restart(response: Result<Value>) returns (r: Result<bool>)
      requires Valid()
      modifies this, tasks
      ensures Valid() && tasks == old(tasks)
      ensures var o := Restarted(old(State()), response);
        State() == o.state && (if o.error.Some? then r == Err(o.error.value) else r == Ok(true))
    {
      if "id" !in attrs {
        return Err(AttributeError("id"));
      }
      var bound := ApiCheck(attrs, "analyses");
      if bound.Some? {
        return Err(bound.value);
      }
      if response.Err? {
        return Err(response.error);
      }
      var data := response.value;
      if data.List? {
        return Err(TypeError("pop expected at most 1 argument"));
      }
      if !data.Object? {
        return Err(AttributeError("pop"));
      }
      var items := Iterate(Get(data.entries, "tasks", List([])));
      if items.Err? {
        return Err(items.error);
      }
      var error := MergeIncoming(items.value, true);
      if error.Some? {
        return Err(error.value);
      }
      error := Update(RemoveKey(data.entries, "tasks"));
      if error.Some? {
        return Err(error.value);
      }
      return Ok(true);
    }

    /** `Analysis.is_finished`. */
    function IsFinished(): Result<bool>
      reads this, tasks
    {
      AllFinished(AttrsOf(tasks))
    }

    /** `Analysis.is_processing`. */
    function IsProcessing(): Result<bool>
      reads this, tasks
    {
      AnyProcessing(AttrsOf(tasks))
    }

    /** `total_progress`, with its accumulator loop. */
    method TotalProgress() returns (r: Result<real>)
      ensures r == TotalProgressOf(AttrsOf(tasks))
    {
      var sum := SumProgress(AttrsOf(tasks));
      if sum.Err? {
        return Err(sum.error);
      }
      if |tasks| == 0 {
        return Err(ZeroDivisionError);
      }
      return Ok(sum.value as real / |tasks| as real);
    }

    /** `subscribe_progress()` used by a consumer that asks for `demand` events;
        `base` and `headers` stand for the client's stream address and request
        headers, which the opaque back-reference does not reach. */
    method SubscribeProgress(base: Url, headers: map<string, string>, sock: Socket,
                             demand: Option<nat>, refresh: Result<Value>)
      returns (events: seq<Value>, actions: seq<WsAction>, raised: Option<Exception>)
      requires Valid()
      modifies this, tasks
      ensures Valid() && tasks == old(tasks)
      ensures Subscription(events, actions, State(), raised) ==
              Subscribe(old(State()), base, headers, sock, demand, refresh)
    {
      events, actions, raised := [], [], None;
      if demand == Some(0) {
        return;
      }
      var finished := IsFinished();
      if finished.Err? {
        raised := Some(finished.error);
        return;
      }
      if finished.value {
        raised := Some(if "id" in attrs then ApiError("All tasks finished") else AttributeError("id"));
        return;
      }
      if RawApiSlot !in attrs {
        raised := Some(AttributeError(RawApiSlot));
        return;
      }
      if !attrs[RawApiSlot].Handle? {
        raised := Some(AttributeError("ws"));
        return;
      }
      var stop: StreamEnd;
      events, actions, stop := Exchange(attrs, StreamUrl(base), headers, sock, demand);
      // finally: close the connection, then refresh
      actions := actions + [Close];
      var pending := if stop.Failed? then Some(stop.error) else None;
      var error := Refresh(refresh);
      raised := if error.Some? then error else pending;
    }
  }

  /** When every payload builds, the list of states is the states built. */
  lemma {:induction false} NewTasksAllBuilt(raw: Value, items: seq<Value>, states: seq<Attrs>)
    requires |states| == |items| && forall k :: 0 <= k < |items| ==> NewTask(raw, items[k]) == Ok(states[k])
    ensures NewTasks(raw, items) == Ok(states)
    decreases |items|
  {
    if items != [] {
      var n := |items| - 1;
      var front := items[..n];
      forall k | 0 <= k < n ensures NewTask(raw, front[k]) == Ok(states[..n][k]) {
        assert front[k] == items[k];
      }
      NewTasksAllBuilt(raw, front, states[..n]);
      assert states == states[..n] + [states[n]];
    }
  }

  /** The first payload that cannot be built ends the construction with its error. */
  lemma {:induction false} NewTasksFirstError(raw: Value, items: seq<Value>, i: nat, states: seq<Attrs>)
    requires i < |items| && |states| == i
    requires forall k :: 0 <= k < i ==> NewTask(raw, items[k]) == Ok(states[k])
    requires NewTask(raw, items[i]).Err?
    ensures NewTasks(raw, items) == Err(NewTask(raw, items[i]).error)
  {
    var p := items[..i + 1];
    NewTasksAllBuilt(raw, items[..i], states);
    assert p[..i] == items[..i] && p[i] == items[i];
    NewTasksStops(raw, items, i + 1);
  }

  lemma {:induction false} NewTasksStops(raw: Value, items: seq<Value>, n: nat)
    requires 0 < n <= |items| && NewTasks(raw, items[..n]).Err?
    ensures NewTasks(raw, items) == NewTasks(raw, items[..n])
    decreases |items| - n
  {
    if n < |items| {
      assert items[..n + 1][..n] == items[..n];
      NewTasksStops(raw, items, n + 1);
    } else {
      assert items[..n] == items;
    }
  }

  /** One turn of the payload loop: a payload that raises ends the loop with the
      states merged so far; otherwise it is merged into them. */
  lemma {:induction false} MergeTasksStep(owner: Attrs, states: seq<Attrs>, incoming: seq<Value>, k: nat, strict: bool, cur: seq<Attrs>)
    requires k < |incoming| && MergeTasks(owner, states, incoming[..k], strict) == Merged(cur, None)
    ensures var m := MergeOne(owner, cur, incoming[k], strict);
      && (m.Err? ==> MergeTasks(owner, states, incoming, strict) == Merged(cur, Some(m.error)))
      && (m.Ok? ==> MergeTasks(owner, states, incoming[..k + 1], strict) == Merged(m.value, None))
  {
    var p := incoming[..k + 1];
    assert p[..|p| - 1] == incoming[..k] && p[|p| - 1] == incoming[k];
    if MergeOne(owner, cur, incoming[k], strict).Err? {
      MergeTasksStops(owner, states, incoming, k + 1, strict);
    }
  }

  lemma {:induction false} MergeTasksStops(owner: Attrs, states: seq<Attrs>, incoming: seq<Value>, n: nat, strict: bool)
    requires 0 < n <= |incoming| && MergeTasks(owner, states, incoming[..n], strict).error.Some?
    ensures MergeTasks(owner, states, incoming, strict) == MergeTasks(owner, states, incoming[..n], strict)
    decreases |incoming| - n
  {
    if n < |incoming| {
      assert incoming[..n + 1][..n] == incoming[..n];
      MergeTasksStops(owner, states, incoming, n + 1, strict);
    } else {
      assert incoming[..n] == incoming;
    }
  }

  /** The accumulator loop of `total_progress`, over the tasks' attributes. */
  method SumProgress(states: seq<Attrs>) returns (r: Result<int>)
    ensures r == ProgressSum(states)
  {
    var total := 0;
    var i := 0;
    assert states[..0] == [];
    while i < |states|
      invariant 0 <= i <= |states|
      invariant SumOver(Contribution, states[..i]) == Ok(total)
    {
      SumOverStep(Contribution, states, i, total);
      var c := Contribution(states[i]);
      if c.Err? {
        return Err(c.error);
      }
      total := total + c.value;
      i := i + 1;
    }
    assert states[..i] == states;
    return Ok(total);
  }

  /** One turn of an accumulator loop: a task for which `f` raises ends the sum
      with its error; otherwise `f`'s value is added to the prefix's sum. */
  lemma {:induction false} SumOverStep(f: Attrs -> Result<int>, states: seq<Attrs>, i: nat, total: int)
    requires i < |states| && SumOver(f, states[..i]) == Ok(total)
    ensures f(states[i]).Err? ==> SumOver(f, states) == Err(f(states[i]).error)
    ensures f(states[i]).Ok? ==> SumOver(f, states[..i + 1]) == Ok(total + f(states[i]).value)
  {
    var p := states[..i + 1];
    assert p[..|p| - 1] == states[..i] && p[|p| - 1] == states[i];
    if f(states[i]).Err? {
      SumOverStops(f, states, i + 1);
    }
  }

  lemma {:induction false} SumOverStops(f: Attrs -> Result<int>, states: seq<Attrs>, n: nat)
    requires 0 < n <= |states| && SumOver(f, states[..n]).Err?
    ensures SumOver(f, states) == SumOver(f, states[..n])
    decreases |states| - n
  {
    if n < |states| {
      assert states[..n + 1][..n] == states[..n];
      SumOverStops(f, states, n + 1);
    } else {
      assert states[..n] == states;
    }
  }

  /** The `try` block of `subscribe_progress`: connect, encode and send the analysis id,
      then run the receive loop; a peer close at any step ends it quietly. */
  method Exchange(attrs: Attrs, url: Url, headers: map<string, string>, sock: Socket, demand: Option<nat>)
    returns (events: seq<Value>, actions: seq<WsAction>, stop: StreamEnd)
    ensures (events, actions, stop) == Converse(attrs, url, headers, sock, demand)
  {
    events, actions := [], [];
    if "id" !in attrs {
      stop := Failed(AttributeError("id"));
      return;
    }
    actions := [Connect(url, headers)];
    match sock.connectFault {
      case Some(PeerClosed) => stop := Closed;
      case Some(Failure(e)) => stop := Failed(e);
      case None =>
        if !JsonEncodable(attrs["id"]) {
          stop := Failed(NotSerializable);
          return;
        }
        actions := actions + [Send(Object([("analysis_id", attrs["id"])]))];
        match sock.sendFault {
          case Some(PeerClosed) => stop := Closed;
          case Some(Failure(e)) => stop := Failed(e);
          case None => events, stop := ReadFrames(sock.frames, sock.end, demand);
        }
    }
  }

  /** The receive loop: `for msg in ws`, stopping at an empty message, yielding
      each decoded one while the consumer asks for more. */
  method ReadFrames(frames: seq<Frame>, end: Option<Fault>, demand: Option<nat>)
    returns (events: seq<Value>, stop: StreamEnd)
    ensures (events, stop) == Receive(frames, end, demand)
  {
    events := [];
    var i := 0;
    var left := demand;
    assert frames[0..] == frames && [] + Receive(frames, end, demand).0 == Receive(frames, end, demand).0;
    while true
      invariant 0 <= i <= |frames| && |events| == i
      invariant Receive(frames, end, demand).0 == events + Receive(frames[i..], end, left).0
      invariant Receive(frames, end, demand).1 == Receive(frames[i..], end, left).1
      decreases |frames| - i
    {
      if left == Some(0) {
        stop := Abandoned;
        assert events + [] == events;
        return;
      }
      if i == |frames| {
        match end {
          case None => stop := Drained;
          case Some(PeerClosed) => stop := Closed;
          case Some(Failure(e)) => stop := Failed(e);
        }
        assert events + [] == events;
        return;
      }
      var msg := frames[i];
      if msg.text == "" {
        stop := EmptyMessage;
        assert events + [] == events;
        return;
      }
      if msg.decoded.Err? {
        stop := Failed(msg.decoded.error);
        assert events + [] == events;
        return;
      }
      assert frames[i..][1..] == frames[i + 1..];
      ghost var later := Receive(frames[i + 1..], end, Fewer(left));
      assert events + ([msg.decoded.value] + later.0) == (events + [msg.decoded.value]) + later.0;
      events := events + [msg.decoded.value];
      left := Fewer(left);
      i := i + 1;
    }
  }
}
