/**
 * The task resource: a task is filed under the composite key
 * (taskId, groupId) and carries a status restricted to PENDING or
 * COMPLETED.
 */
module Tasks {
  import opened Results
  import opened JsValues
  import opened Http
  import opened Store
  import opened Crud
  import opened CrudLaws

  const StatusMessage: string := "Status must be either PENDING or COMPLETED"

  const TaskSchema: Schema := Schema(
    ["taskId", "groupId", "description", "assignedTo"],
    OneOf("status", {"PENDING", "COMPLETED"}, StatusMessage),
    map["taskId" := Verbatim, "groupId" := Verbatim, "description" := Verbatim,
        "status" := TextIfFalsy("PENDING"), "assignedTo" := Verbatim, "createdAt" := NowIfFalsy],
    Composite("taskId", "groupId"),
    {"description", "status", "assignedTo"})

  lemma TaskSchemaWellFormed()
    ensures WellFormed(TaskSchema)
  {
  }

  /** `validateTask`: the four required fields are checked in order, then
      the status, and the task is rebuilt with a PENDING status and a
      creation time of `now` as defaults. */
  function ValidateTask(data: Record, now: string): (r: Result<Record, JsError>)
    ensures Truthy(Field(data, "taskId")) && Truthy(Field(data, "groupId"))
      && Truthy(Field(data, "description")) && Truthy(Field(data, "assignedTo"))
      && Truthy(Field(data, "status"))
      && Field(data, "status") != Str("PENDING") && Field(data, "status") != Str("COMPLETED")
      ==> r == Err(PlainError(StatusMessage))
    ensures r.Ok? <==>
      && Truthy(Field(data, "taskId")) && Truthy(Field(data, "groupId"))
      && Truthy(Field(data, "description")) && Truthy(Field(data, "assignedTo"))
      && (!Truthy(Field(data, "status"))
          || Field(data, "status") == Str("PENDING") || Field(data, "status") == Str("COMPLETED"))
    ensures r.Ok? ==> r.value == map[
      "taskId" := Field(data, "taskId"),
      "groupId" := Field(data, "groupId"),
      "description" := Field(data, "description"),
      "status" := Or(Field(data, "status"), Str("PENDING")),
      "assignedTo" := Field(data, "assignedTo"),
      "createdAt" := Or(Field(data, "createdAt"), Str(now))]
  {
    TaskRequiredOrder(data);
    TaskStatusRule(data);
    TaskRebuilt(data, now);
    Validate(TaskSchema, data, now)
  }

  /** The status check rejects a truthy status other than PENDING and
      COMPLETED. */
  lemma TaskStatusRule(data: Record)
    ensures Violates(TaskSchema.constraint, data) <==>
      Truthy(Field(data, "status"))
      && Field(data, "status") != Str("PENDING") && Field(data, "status") != Str("COMPLETED")
  {
  }

  /** The rebuilt task has exactly the six task fields. */
  lemma TaskRebuilt(data: Record, now: string)
    ensures Build(TaskSchema.output, data, now) == map[
      "taskId" := Field(data, "taskId"),
      "groupId" := Field(data, "groupId"),
      "description" := Field(data, "description"),
      "status" := Or(Field(data, "status"), Str("PENDING")),
      "assignedTo" := Field(data, "assignedTo"),
      "createdAt" := Or(Field(data, "createdAt"), Str(now))]
  {
    var b := Build(TaskSchema.output, data, now);
    var m := map[
      "taskId" := Field(data, "taskId"),
      "groupId" := Field(data, "groupId"),
      "description" := Field(data, "description"),
      "status" := Or(Field(data, "status"), Str("PENDING")),
      "assignedTo" := Field(data, "assignedTo"),
      "createdAt" := Or(Field(data, "createdAt"), Str(now))];
    assert b.Keys == m.Keys;
    assert b["taskId"] == m["taskId"] && b["groupId"] == m["groupId"];
    assert b["description"] == m["description"] && b["status"] == m["status"];
    assert b["assignedTo"] == m["assignedTo"] && b["createdAt"] == m["createdAt"];
    forall f | f in b ensures b[f] == m[f] {
      assert f in {"taskId", "groupId", "description", "status", "assignedTo", "createdAt"};
    }
  }

  /** The first falsy required field, in the order taskId, groupId,
      description, assignedTo, is the one reported missing. */
  lemma TaskMissingFieldReported(data: Record, now: string)
    ensures !Truthy(Field(data, "taskId")) ==> ValidateTask(data, now) == Err(PlainError(MissingMessage("taskId")))
    ensures Truthy(Field(data, "taskId")) && !Truthy(Field(data, "groupId"))
      ==> ValidateTask(data, now) == Err(PlainError(MissingMessage("groupId")))
    ensures Truthy(Field(data, "taskId")) && Truthy(Field(data, "groupId"))
      && !Truthy(Field(data, "description"))
      ==> ValidateTask(data, now) == Err(PlainError(MissingMessage("description")))
    ensures Truthy(Field(data, "taskId")) && Truthy(Field(data, "groupId"))
      && Truthy(Field(data, "description")) && !Truthy(Field(data, "assignedTo"))
      ==> ValidateTask(data, now) == Err(PlainError(MissingMessage("assignedTo")))
  {
    TaskRequiredOrder(data);
  }

  /** The required fields are checked in the order taskId, groupId,
      description, assignedTo. */
  lemma TaskRequiredOrder(data: Record)
    ensures MissingAt(data, TaskSchema.required) ==
      if !Truthy(Field(data, "taskId")) then 0
      else if !Truthy(Field(data, "groupId")) then 1
      else if !Truthy(Field(data, "description")) then 2
      else if !Truthy(Field(data, "assignedTo")) then 3
      else 4
  {
    var req := TaskSchema.required;
    if !Truthy(Field(data, "taskId")) {
      MissingAtIs(data, req, 0);
    } else if !Truthy(Field(data, "groupId")) {
      MissingAtIs(data, req, 1);
    } else if !Truthy(Field(data, "description")) {
      MissingAtIs(data, req, 2);
    } else if !Truthy(Field(data, "assignedTo")) {
      MissingAtIs(data, req, 3);
    } else {
      MissingAtIs(data, req, 4);
    }
  }

  /** The tasks handler. */
  method HandleTask(table: Table, req: Request, now: string, fault: Option<JsError>, trace: string)
    returns (resp: Response)
    requires table.shape == TaskSchema.key && table.Valid()
    modifies table
    ensures table.Valid()
    ensures Outcome(resp, table.items) == Step(TaskSchema, old(table.items), req, now, fault, trace)
  {
    TaskSchemaWellFormed();
    resp := Handle(TaskSchema, table, req, now, fault, trace);
  }

  /** A status outside PENDING and COMPLETED is refused with status 500, not
      400, since the validator throws a plain `Error`; nothing is stored. */
  lemma BadStatusIs500(items: map<Key, Record>, data: Record, now: string, trace: string)
    requires forall f :: f in TaskSchema.required ==> Truthy(Field(data, f))
    requires Field(data, "status") == Str("ARCHIVED")
    ensures Step(TaskSchema, items, Request("POST", None, None, Parsed(Obj(data))), now, None, trace)
      == Outcome(Response(500, Cors, Some(ErrorDetails(StatusMessage, trace))), items)
  {
    TaskSchemaWellFormed();
    assert ValidateTask(data, now) == Err(PlainError(StatusMessage));
  }

  /** PUT /tasks/{taskId} with a complete body whose status is "ARCHIVED" is
      refused with status 500 and the status message; nothing is written. */
  lemma UpdateToArchivedIs500(items: map<Key, Record>, body: Value, pathParams: map<string, string>,
                              now: string, trace: string)
    requires "taskId" in pathParams && pathParams["taskId"] != ""
    requires Truthy(Field(Properties(body), "groupId"))
    requires Truthy(Field(Properties(body), "description"))
    requires Truthy(Field(Properties(body), "assignedTo"))
    requires Field(Properties(body), "status") == Str("ARCHIVED")
    ensures Step(TaskSchema, items, Request("PUT", Some(pathParams), None, Parsed(body)), now, None, trace)
      == Outcome(Response(500, Cors, Some(ErrorDetails(StatusMessage, trace))), items)
  {
    TaskSchemaWellFormed();
    var m := Merged(TaskSchema, body, pathParams);
    assert Field(m, "taskId") == Str(pathParams["taskId"]);
    assert Field(m, "groupId") == Field(Properties(body), "groupId");
    assert Field(m, "description") == Field(Properties(body), "description");
    assert Field(m, "assignedTo") == Field(Properties(body), "assignedTo");
    assert Field(m, "status") == Str("ARCHIVED");
    TaskRequiredOrder(m);
    TaskStatusRule(m);
    assert Validate(TaskSchema, m, now) == Err(PlainError(StatusMessage));
    InvalidUpdateIs500(TaskSchema, items, body, pathParams, None, now, None, trace);
  }

  /** PUT /tasks/{taskId} answers 200 with the whole validated task, whose
      creation time is the body's or `now`, whatever is stored. */
  lemma PutAnswersValidatedTask(items: map<Key, Record>, body: Value, pathParams: map<string, string>,
                                now: string, trace: string)
    requires ValidateTask(Merged(TaskSchema, body, pathParams), now).Ok?
    ensures
      var r := ValidateTask(Merged(TaskSchema, body, pathParams), now).value;
      var o := Step(TaskSchema, items, Request("PUT", Some(pathParams), None, Parsed(body)), now, None, trace);
      && o.response == Response(200, Cors, Some(One(r)))
      && Field(r, "createdAt") == Or(Field(Properties(body), "createdAt"), Str(now))
  {
    TaskSchemaWellFormed();
    var m := Merged(TaskSchema, body, pathParams);
    PutOutcome(TaskSchema, items, body, pathParams, None, now, trace);
    assert Field(m, "createdAt") == Field(Properties(body), "createdAt");
  }

  /** PUT /tasks/{taskId} writes description, status and assignedTo of the
      validated task under (path taskId, validated groupId) and keeps the
      stored creation time. */
  lemma PutKeepsCreatedAt(items: map<Key, Record>, body: Value, pathParams: map<string, string>,
                          now: string, trace: string)
    requires "taskId" in pathParams
    requires ValidateTask(Merged(TaskSchema, body, pathParams), now).Ok?
    ensures
      var r := ValidateTask(Merged(TaskSchema, body, pathParams), now).value;
      var k := Key2(Str(pathParams["taskId"]), Field(r, "groupId"));
      var o := Step(TaskSchema, items, Request("PUT", Some(pathParams), None, Parsed(body)), now, None, trace);
      && k in o.items
      && Field(o.items[k], "description") == Field(r, "description")
      && Field(o.items[k], "status") == Field(r, "status")
      && Field(o.items[k], "assignedTo") == Field(r, "assignedTo")
      && (k in items ==> Field(o.items[k], "createdAt") == Field(items[k], "createdAt"))
  {
    TaskSchemaWellFormed();
    var m := Merged(TaskSchema, body, pathParams);
    var r := Validate(TaskSchema, m, now).value;
    PutWritesOnlyMutable(TaskSchema, items, body, pathParams, None, now, trace);
    assert KeyFor(TaskSchema.key, Param(Some(pathParams), "taskId"), RecordSort(TaskSchema.key, r))
      == Key2(Str(pathParams["taskId"]), Field(r, "groupId"));
    assert "createdAt" !in TaskSchema.mutable;
  }
}
