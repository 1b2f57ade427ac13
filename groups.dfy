/**
 * The group resource: a group is filed under its groupId alone and carries
 * an optional leader and a creation time.
 */
module Groups {
  import opened Results
  import opened JsValues
  import opened Http
  import opened Store
  import opened Crud
  import opened CrudLaws

  const GroupSchema: Schema := Schema(
    ["groupId", "name"],
    Unconstrained,
    map["groupId" := Verbatim, "name" := Verbatim, "leaderId" := NullIfFalsy,
        "createdAt" := NowIfFalsy],
    Single("groupId"),
    {"name", "leaderId"})

  lemma GroupSchemaWellFormed()
    ensures WellFormed(GroupSchema)
  {
  }

  /** The required fields are checked in the order groupId, name. */
  lemma GroupRequiredOrder(data: Record)
    ensures MissingAt(data, GroupSchema.required) ==
      if !Truthy(Field(data, "groupId")) then 0
      else if !Truthy(Field(data, "name")) then 1
      else 2
  {
    var req := GroupSchema.required;
    if !Truthy(Field(data, "groupId")) {
      MissingAtIs(data, req, 0);
    } else if !Truthy(Field(data, "name")) {
      MissingAtIs(data, req, 1);
    } else {
      MissingAtIs(data, req, 2);
    }
  }

  /** The rebuilt group has exactly the four group fields. */
  lemma GroupRebuilt(data: Record, now: string)
    ensures Build(GroupSchema.output, data, now) == map[
      "groupId" := Field(data, "groupId"),
      "name" := Field(data, "name"),
      "leaderId" := Or(Field(data, "leaderId"), Null),
      "createdAt" := Or(Field(data, "createdAt"), Str(now))]
  {
    var b := Build(GroupSchema.output, data, now);
    var m := map[
      "groupId" := Field(data, "groupId"),
      "name" := Field(data, "name"),
      "leaderId" := Or(Field(data, "leaderId"), Null),
      "createdAt" := Or(Field(data, "createdAt"), Str(now))];
    assert b.Keys == m.Keys;
    assert b["groupId"] == m["groupId"] && b["name"] == m["name"];
    assert b["leaderId"] == m["leaderId"] && b["createdAt"] == m["createdAt"];
    forall f | f in b ensures b[f] == m[f] {
      assert f in {"groupId", "name", "leaderId", "createdAt"};
    }
  }

  /** `validateGroup`: groupId and name are checked in that order, and the
      group is rebuilt with a `null` leader and a creation time of `now` as
      defaults. */
  function ValidateGroup(data: Record, now: string): (r: Result<Record, JsError>)
    ensures !Truthy(Field(data, "groupId")) ==> r == Err(PlainError(MissingMessage("groupId")))
    ensures Truthy(Field(data, "groupId")) && !Truthy(Field(data, "name"))
      ==> r == Err(PlainError(MissingMessage("name")))
    ensures r.Ok? <==> Truthy(Field(data, "groupId")) && Truthy(Field(data, "name"))
    ensures r.Ok? ==> r.value == map[
      "groupId" := Field(data, "groupId"),
      "name" := Field(data, "name"),
      "leaderId" := Or(Field(data, "leaderId"), Null),
      "createdAt" := Or(Field(data, "createdAt"), Str(now))]
  {
    GroupRequiredOrder(data);
    GroupRebuilt(data, now);
    Validate(GroupSchema, data, now)
  }

  /** Validating a validated group gives it back, even at a later time. */
  lemma ValidateGroupIdempotent(data: Record, now: string, later: string)
    requires now != ""
    requires ValidateGroup(data, now).Ok?
    ensures ValidateGroup(ValidateGroup(data, now).value, later) == ValidateGroup(data, now)
  {
    GroupSchemaWellFormed();
    ValidateFixpoint(GroupSchema, data, now, later);
  }

  /** The groups handler. */
  method HandleGroup(table: Table, req: Request, now: string, fault: Option<JsError>, trace: string)
    returns (resp: Response)
    requires table.shape == GroupSchema.key && table.Valid()
    modifies table
    ensures table.Valid()
    ensures Outcome(resp, table.items) == Step(GroupSchema, old(table.items), req, now, fault, trace)
  {
    GroupSchemaWellFormed();
    resp := Handle(GroupSchema, table, req, now, fault, trace);
  }

  /** PUT /groups/{groupId} writes only name and leaderId under the path
      groupId: a stored creation time survives, while the response carries
      the validated creation time, the body's or a fresh `now`. */
  lemma PutKeepsStoredCreatedAt(items: map<Key, Record>, body: Value, pathParams: map<string, string>,
                                now: string, trace: string)
    requires "groupId" in pathParams
    requires ValidateGroup(Merged(GroupSchema, body, pathParams), now).Ok?
    ensures
      var r := ValidateGroup(Merged(GroupSchema, body, pathParams), now).value;
      var k := Key1(Str(pathParams["groupId"]));
      var o := Step(GroupSchema, items, Request("PUT", Some(pathParams), None, Parsed(body)), now, None, trace);
      && o.response == Response(200, Cors, Some(One(r)))
      && o.items.Keys == items.Keys + {k}
      && Field(o.items[k], "name") == Field(r, "name")
      && Field(o.items[k], "leaderId") == Field(r, "leaderId")
      && (k in items ==> o.items[k].Keys == items[k].Keys + {"name", "leaderId"})
      && (k in items ==> forall f :: f in items[k] && f != "name" && f != "leaderId" ==> o.items[k][f] == items[k][f])
      && (k in items ==> Field(o.items[k], "createdAt") == Field(items[k], "createdAt"))
      && (forall k' :: k' in items && k' != k ==> o.items[k'] == items[k'])
      && (!Truthy(Field(Properties(body), "createdAt")) ==> Field(r, "createdAt") == Str(now))
  {
    GroupSchemaWellFormed();
    var m := Merged(GroupSchema, body, pathParams);
    var r := Validate(GroupSchema, m, now).value;
    PutWritesOnlyMutable(GroupSchema, items, body, pathParams, None, now, trace);
    assert KeyFor(GroupSchema.key, Param(Some(pathParams), "groupId"), RecordSort(GroupSchema.key, r))
      == Key1(Str(pathParams["groupId"]));
    assert "name" in r && "leaderId" in r;
    assert r.Keys * GroupSchema.mutable == {"name", "leaderId"};
    assert "createdAt" !in GroupSchema.mutable;
    assert Field(m, "createdAt") == Field(Properties(body), "createdAt");
  }

  /** DELETE /groups/{groupId} of a group that is not there answers 204 and
      leaves the table as it was. */
  lemma DeleteAbsentKeepsTable(items: map<Key, Record>, id: string, now: string, trace: string)
    requires Key1(Str(id)) !in items
    ensures Step(GroupSchema, items, Request("DELETE", Some(map["groupId" := id]), None, Parsed(Null)), now, None, trace)
      == Outcome(Response(204, Cors, None), items)
  {
    DeleteRemovesKey(GroupSchema, items, map["groupId" := id], None, Parsed(Null), now, trace);
  }

  /** GET /groups on an empty table answers 200 with an empty list, not an
      error and not a missing body. */
  lemma ListOfEmptyTableIsEmpty(now: string, trace: string)
    ensures Step(GroupSchema, map[], Request("GET", None, None, Parsed(Null)), now, None, trace)
      == Outcome(Response(200, Cors, Some(Many({}))), map[])
  {
    var empty: map<Key, Record> := map[];
    assert empty.Values == {};
  }
}
