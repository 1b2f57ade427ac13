/**
 * The user resource: a user is filed under the composite key
 * (userId, groupId), where a user without a group has the group `null`.
 */
module Users {
  import opened Results
  import opened JsValues
  import opened Http
  import opened Store
  import opened Crud
  import opened CrudLaws

  const UserSchema: Schema := Schema(
    ["userId", "name", "email", "role"],
    Unconstrained,
    map["userId" := Verbatim, "groupId" := NullIfFalsy, "name" := Verbatim,
        "email" := Verbatim, "role" := Verbatim],
    Composite("userId", "groupId"),
    {"name", "email", "role"})

  lemma UserSchemaWellFormed()
    ensures WellFormed(UserSchema) && !UsesClock(UserSchema)
  {
  }

  /** The required fields are checked in the order userId, name, email, role. */
  lemma UserRequiredOrder(data: Record)
    ensures MissingAt(data, UserSchema.required) ==
      if !Truthy(Field(data, "userId")) then 0
      else if !Truthy(Field(data, "name")) then 1
      else if !Truthy(Field(data, "email")) then 2
      else if !Truthy(Field(data, "role")) then 3
      else 4
  {
    var req := UserSchema.required;
    if !Truthy(Field(data, "userId")) {
      MissingAtIs(data, req, 0);
    } else if !Truthy(Field(data, "name")) {
      MissingAtIs(data, req, 1);
    } else if !Truthy(Field(data, "email")) {
      MissingAtIs(data, req, 2);
    } else if !Truthy(Field(data, "role")) {
      MissingAtIs(data, req, 3);
    } else {
      MissingAtIs(data, req, 4);
    }
  }

  /** The rebuilt user has exactly the five user fields. */
  lemma UserRebuilt(data: Record, now: string)
    ensures Build(UserSchema.output, data, now) == map[
      "userId" := Field(data, "userId"),
      "groupId" := Or(Field(data, "groupId"), Null),
      "name" := Field(data, "name"),
      "email" := Field(data, "email"),
      "role" := Field(data, "role")]
  {
    var b := Build(UserSchema.output, data, now);
    var m := map[
      "userId" := Field(data, "userId"),
      "groupId" := Or(Field(data, "groupId"), Null),
      "name" := Field(data, "name"),
      "email" := Field(data, "email"),
      "role" := Field(data, "role")];
    assert b.Keys == m.Keys;
    assert b["userId"] == m["userId"] && b["groupId"] == m["groupId"];
    assert b["name"] == m["name"] && b["email"] == m["email"] && b["role"] == m["role"];
    forall f | f in b ensures b[f] == m[f] {
      assert f in {"userId", "groupId", "name", "email", "role"};
    }
  }

  /** `validateUser`: the four required fields are checked in order and the
      user is rebuilt with a `null` group as the default; the result does
      not depend on the clock. */
  function ValidateUser(data: Record): (r: Result<Record, JsError>)
    ensures r.Ok? <==>
      && Truthy(Field(data, "userId")) && Truthy(Field(data, "name"))
      && Truthy(Field(data, "email")) && Truthy(Field(data, "role"))
    ensures r.Ok? ==> r.value == map[
      "userId" := Field(data, "userId"),
      "groupId" := Or(Field(data, "groupId"), Null),
      "name" := Field(data, "name"),
      "email" := Field(data, "email"),
      "role" := Field(data, "role")]
    ensures forall now :: Validate(UserSchema, data, now) == r
  {
    UserRequiredOrder(data);
    UserRebuilt(data, "");
    assert forall now :: Build(UserSchema.output, data, now) == Build(UserSchema.output, data, "") by {
      forall now ensures Build(UserSchema.output, data, now) == Build(UserSchema.output, data, "") {
        UserRebuilt(data, now);
      }
    }
    Validate(UserSchema, data, "")
  }

  /** The first falsy required field, in the order userId, name, email,
      role, is the one reported missing. */
  lemma UserMissingFieldReported(data: Record)
    ensures !Truthy(Field(data, "userId")) ==> ValidateUser(data) == Err(PlainError(MissingMessage("userId")))
    ensures Truthy(Field(data, "userId")) && !Truthy(Field(data, "name"))
      ==> ValidateUser(data) == Err(PlainError(MissingMessage("name")))
    ensures Truthy(Field(data, "userId")) && Truthy(Field(data, "name"))
      && !Truthy(Field(data, "email"))
      ==> ValidateUser(data) == Err(PlainError(MissingMessage("email")))
    ensures Truthy(Field(data, "userId")) && Truthy(Field(data, "name"))
      && Truthy(Field(data, "email")) && !Truthy(Field(data, "role"))
      ==> ValidateUser(data) == Err(PlainError(MissingMessage("role")))
  {
    UserRequiredOrder(data);
  }

  /** Validating a validated user gives it back. */
  lemma ValidateUserIdempotent(data: Record)
    requires ValidateUser(data).Ok?
    ensures ValidateUser(ValidateUser(data).value) == ValidateUser(data)
  {
    UserSchemaWellFormed();
    ValidateFixpoint(UserSchema, data, "", "");
  }

  /** The users handler. */
  method HandleUser(table: Table, req: Request, now: string, fault: Option<JsError>, trace: string)
    returns (resp: Response)
    requires table.shape == UserSchema.key && table.Valid()
    modifies table
    ensures table.Valid()
    ensures Outcome(resp, table.items) == Step(UserSchema, old(table.items), req, now, fault, trace)
  {
    UserSchemaWellFormed();
    resp := Handle(UserSchema, table, req, now, fault, trace);
  }

  /** POST /users files the user under (userId, groupId), with the group
      `null` when the body has none, replacing any user already there. */
  lemma PostFilesUnderUserAndGroup(items: map<Key, Record>, data: Record, now: string, trace: string)
    requires ValidateUser(data).Ok?
    ensures
      var r := ValidateUser(data).value;
      var k := Key2(Field(data, "userId"), Or(Field(data, "groupId"), Null));
      Step(UserSchema, items, Request("POST", None, None, Parsed(Obj(data))), now, None, trace)
      == Outcome(Response(201, Cors, Some(One(r))), items[k := r])
  {
    UserSchemaWellFormed();
    PostStores(UserSchema, items, data, now, trace, None, None);
  }

  /** PUT /users/{userId} addresses (path userId, body groupId or `null`)
      and writes only name, email and role there, keeping every other
      stored field. */
  lemma PutWritesNameEmailRole(items: map<Key, Record>, body: Value, pathParams: map<string, string>,
                               now: string, trace: string)
    requires "userId" in pathParams
    requires ValidateUser(Merged(UserSchema, body, pathParams)).Ok?
    ensures
      var r := ValidateUser(Merged(UserSchema, body, pathParams)).value;
      var k := Key2(Str(pathParams["userId"]), Or(Field(Properties(body), "groupId"), Null));
      var o := Step(UserSchema, items, Request("PUT", Some(pathParams), None, Parsed(body)), now, None, trace);
      && o.response == Response(200, Cors, Some(One(r)))
      && o.items.Keys == items.Keys + {k}
      && Field(o.items[k], "name") == Field(r, "name")
      && Field(o.items[k], "email") == Field(r, "email")
      && Field(o.items[k], "role") == Field(r, "role")
      && (k in items ==> o.items[k].Keys == items[k].Keys + {"name", "email", "role"})
      && (k in items ==> forall f :: f in items[k] && f !in UserSchema.mutable ==>
            f in o.items[k] && o.items[k][f] == items[k][f])
      && (forall k' :: k' in items && k' != k ==> o.items[k'] == items[k'])
  {
    UserSchemaWellFormed();
    var m := Merged(UserSchema, body, pathParams);
    PutWritesOnlyMutable(UserSchema, items, body, pathParams, None, now, trace);
    assert Field(m, "groupId") == Field(Properties(body), "groupId");
    var r := ValidateUser(m).value;
    assert "name" in r && "email" in r && "role" in r;
    assert r.Keys * UserSchema.mutable == {"name", "email", "role"};
  }

  /** A user filed with a `null` group cannot be addressed by id: the sort
      value a GET or DELETE takes from the query string is a string or
      `undefined`, never `null`. Whatever the query holds, a GET by that id
      reads some other key, so it answers with no body when that user is
      the only one stored, and a DELETE leaves the user in place. */
  lemma NullGroupUserUnreachable(items: map<Key, Record>, id: string, query: Option<map<string, string>>,
                                 now: string, trace: string)
    requires id != "" && Key2(Str(id), Null) in items
    ensures KeyFor(UserSchema.key, Str(id), QuerySort(UserSchema.key, query)) != Key2(Str(id), Null)
    ensures
      var o := Step(UserSchema, items, Request("GET", Some(map["userId" := id]), query, Parsed(Null)), now, None, trace);
      && o.items == items
      && (items.Keys == {Key2(Str(id), Null)} ==> o.response == Response(200, Cors, None))
    ensures
      var o := Step(UserSchema, items, Request("DELETE", Some(map["userId" := id]), query, Parsed(Null)), now, None, trace);
      && o.response == Response(204, Cors, None)
      && Key2(Str(id), Null) in o.items
      && o.items[Key2(Str(id), Null)] == items[Key2(Str(id), Null)]
  {
    UserSchemaWellFormed();
    DeleteRemovesKey(UserSchema, items, map["userId" := id], query, Parsed(Null), now, trace);
    GetOneReadsKey(UserSchema, items, Request("GET", Some(map["userId" := id]), query, Parsed(Null)), now, trace);
  }

  /** POST /users with body {"userId":"u1","name":"Ann"} answers 500, not
      400, naming the first missing field, email; nothing is stored. */
  lemma MissingEmailIs500(items: map<Key, Record>, now: string, trace: string)
    ensures
      var data := map["userId" := Str("u1"), "name" := Str("Ann")];
      Step(UserSchema, items, Request("POST", None, None, Parsed(Obj(data))), now, None, trace)
      == Outcome(Response(500, Cors, Some(ErrorDetails("Missing required field: email", trace))), items)
  {
    var data := map["userId" := Str("u1"), "name" := Str("Ann")];
    UserSchemaWellFormed();
    UserRequiredOrder(data);
    assert Validate(UserSchema, data, now) == Err(PlainError(MissingMessage("email")));
    assert MissingMessage("email") == "Missing required field: email";
    InvalidBodyIs500(UserSchema, items, data, now, None, trace, None, None);
  }
}
