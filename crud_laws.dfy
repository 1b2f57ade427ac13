/**
 * Properties of the shared handler: what each HTTP method does to the table
 * and answers, the invariant every invocation keeps, the idempotence of the
 * validator, and what sequences of requests observe.
 */
module CrudLaws {
  import opened Results
  import opened JsValues
  import opened Http
  import opened Store
  import opened Crud

  /** Whether some output field defaults to the current time. */
  predicate UsesClock(s: Schema) {
    exists f :: f in s.output && s.output[f] == NowIfFalsy
  }

  /** Validating the validator's own output gives it back, at any later time
      (a timestamp default is never the empty string). */
  lemma ValidateFixpoint(s: Schema, data: Record, now: string, later: string)
    requires WellFormed(s)
    requires Validate(s, data, now).Ok?
    requires now != "" || !UsesClock(s)
    ensures Validate(s, Validate(s, data, now).value, later) == Validate(s, data, now)
  {
    var r := Validate(s, data, now).value;
    forall f | f in s.required ensures Truthy(Field(r, f)) {
      assert r[f] == Field(data, f);
    }
    if s.constraint.OneOf? {
      var c := s.constraint.field;
      if c in s.output {
        assert KeepsConstraint(s.output[c], s.constraint.allowed);
      }
      assert !Violates(s.constraint, r);
    }
    forall f | f in r ensures Apply(s.output[f], Field(r, f), later) == r[f] {
      if s.output[f] == NowIfFalsy {
        assert UsesClock(s);
      }
    }
    assert Build(s.output, r, later) == r;
  }

  /** Every invocation leaves each record filed under its own key. */
  lemma StepKeepsKeyConsistent(s: Schema, items: map<Key, Record>, req: Request, now: string,
                               fault: Option<JsError>, trace: string)
    requires WellFormed(s) && KeyConsistent(s.key, items)
    ensures KeyConsistent(s.key, Step(s, items, req, now, fault, trace).items)
  {
    var o := Step(s, items, req, now, fault, trace);
    if req.httpMethod == "PUT" && o.items != items {
      var v := req.body.value;
      var r := Validate(s, Merged(s, v, req.pathParams.value), now).value;
      var k := KeyFor(s.key, Param(req.pathParams, s.key.partition), RecordSort(s.key, r));
      UpdateKeepsKeys(s.key, items, k, Restrict(r, s.mutable));
    }
  }

  /** POST files the validated record under its own key, replacing any record
      already there, and answers 201 with it. */
  lemma PostStores(s: Schema, items: map<Key, Record>, data: Record, now: string, trace: string,
                   pathParams: Option<map<string, string>>, query: Option<map<string, string>>)
    requires WellFormed(s) && Validate(s, data, now).Ok?
    ensures var r := Validate(s, data, now).value;
      Step(s, items, Request("POST", pathParams, query, Parsed(Obj(data))), now, None, trace)
      == Outcome(Response(201, Cors, Some(One(r))), items[KeyOf(s.key, r) := r])
  {
  }

  /** A POST whose body fails validation answers 500 (the validator throws
      a plain `Error`, not a `ValidationError`) with the validator's message,
      and leaves the table alone. */
  lemma InvalidBodyIs500(s: Schema, items: map<Key, Record>, data: Record, now: string,
                         fault: Option<JsError>, trace: string,
                         pathParams: Option<map<string, string>>, query: Option<map<string, string>>)
    requires WellFormed(s) && Validate(s, data, now).Err?
    ensures var o := Step(s, items, Request("POST", pathParams, query, Parsed(Obj(data))), now, fault, trace);
      && o.response == Response(500, Cors, Some(ErrorDetails(Validate(s, data, now).error.message, trace)))
      && o.items == items
  {
  }

  /** A PUT whose merged body (the body with the path id written over its
      id) fails validation answers 500 with the validator's message, and
      leaves the table alone: no update is sent. */
  lemma InvalidUpdateIs500(s: Schema, items: map<Key, Record>, body: Value,
                           pathParams: map<string, string>, query: Option<map<string, string>>,
                           now: string, fault: Option<JsError>, trace: string)
    requires WellFormed(s) && Validate(s, Merged(s, body, pathParams), now).Err?
    ensures var o := Step(s, items, Request("PUT", Some(pathParams), query, Parsed(body)), now, fault, trace);
      && o.response == Response(500, Cors, Some(ErrorDetails(Validate(s, Merged(s, body, pathParams), now).error.message, trace)))
      && o.items == items
  {
  }

  /** GET with a truthy path id reads the key made of the path id and the
      query's sort value, and answers 200 with the record, or with no body
      when there is none; the table is unchanged. */
  lemma GetOneReadsKey(s: Schema, items: map<Key, Record>, req: Request, now: string, trace: string)
    requires WellFormed(s) && req.httpMethod == "GET"
    requires Truthy(Param(req.pathParams, s.key.partition))
    ensures var k := KeyFor(s.key, Param(req.pathParams, s.key.partition), QuerySort(s.key, req.query));
      Step(s, items, req, now, None, trace)
      == Outcome(Response(200, Cors, if k in items then Some(One(items[k])) else None), items)
  {
  }

  /** A GET on a composite-key table whose query has no sort value (no query
      string at all, or one without that parameter) is not rejected: it
      looks up the key whose sort part is `undefined`. */
  lemma GetWithoutSortValueIsNotRejected(s: Schema, items: map<Key, Record>, id: string,
                                         query: Option<map<string, string>>, now: string, trace: string)
    requires WellFormed(s) && s.key.Composite? && id != ""
    requires query.None? || s.key.sort !in query.value
    ensures var k := Key2(Str(id), Undefined);
      Step(s, items, Request("GET", Some(map[s.key.partition := id]), query, Parsed(Null)), now, None, trace)
      == Outcome(Response(200, Cors, if k in items then Some(One(items[k])) else None), items)
  {
  }

  /** GET without a path id answers 200 with every stored record, one per
      entry, and leaves the table alone. */
  lemma GetAllListsEverything(s: Schema, items: map<Key, Record>, req: Request, now: string, trace: string)
    requires WellFormed(s) && KeyConsistent(s.key, items) && req.httpMethod == "GET"
    requires !Truthy(Param(req.pathParams, s.key.partition))
    ensures var o := Step(s, items, req, now, None, trace);
      && o == Outcome(Response(200, Cors, Some(Many(items.Values))), items)
      && |o.response.body.value.items| == |items|
      && (forall k :: k in items ==> items[k] in o.response.body.value.items)
  {
    ScanLosesNothing(s.key, items);
  }

  /** A PUT whose merged body validates answers 200 with the validated
      record and performs one partial update of its mutable fields. */
  lemma PutOutcome(s: Schema, items: map<Key, Record>, body: Value,
                   pathParams: map<string, string>, query: Option<map<string, string>>,
                   now: string, trace: string)
    requires WellFormed(s)
    requires Validate(s, Merged(s, body, pathParams), now).Ok?
    ensures
      var r := Validate(s, Merged(s, body, pathParams), now).value;
      var k := KeyFor(s.key, Param(Some(pathParams), s.key.partition), RecordSort(s.key, r));
      Step(s, items, Request("PUT", Some(pathParams), query, Parsed(body)), now, None, trace)
      == Outcome(Response(200, Cors, Some(One(r))), Update(s.key, items, k, Restrict(r, s.mutable)))
  {
  }

  /** PUT validates the body with the path id written over the body's id,
      addresses the key made of the path id and the validated sort value,
      writes only the schema's mutable fields, keeps every other stored
      field, and answers 200 with the whole validated record. */
  lemma PutWritesOnlyMutable(s: Schema, items: map<Key, Record>, body: Value,
                             pathParams: map<string, string>, query: Option<map<string, string>>,
                             now: string, trace: string)
    requires WellFormed(s)
    requires Validate(s, Merged(s, body, pathParams), now).Ok?
    ensures
      var r := Validate(s, Merged(s, body, pathParams), now).value;
      var k := KeyFor(s.key, Param(Some(pathParams), s.key.partition), RecordSort(s.key, r));
      var o := Step(s, items, Request("PUT", Some(pathParams), query, Parsed(body)), now, None, trace);
      && s.key.partition in pathParams
      && r[s.key.partition] == Str(pathParams[s.key.partition])
      && o.response == Response(200, Cors, Some(One(r)))
      && o.items.Keys == items.Keys + {k}
      && (forall f :: f in s.mutable && f in r ==> f in o.items[k] && o.items[k][f] == r[f])
      && (k in items ==> forall f :: f in items[k] && f !in s.mutable ==> f in o.items[k] && o.items[k][f] == items[k][f])
      && (k in items ==> o.items[k].Keys == items[k].Keys + r.Keys * s.mutable)
      && (forall k' :: k' in items && k' != k ==> o.items[k'] == items[k'])
  {
    var m := Merged(s, body, pathParams);
    assert Truthy(Field(m, s.key.partition));
    PutOutcome(s, items, body, pathParams, query, now, trace);
  }

  /** DELETE removes the key made of the path id and the query's sort value,
      whether or not a record is there, and answers 204 with no body. */
  lemma DeleteRemovesKey(s: Schema, items: map<Key, Record>, pathParams: map<string, string>,
                         query: Option<map<string, string>>, body: RequestBody, now: string, trace: string)
    requires WellFormed(s)
    ensures var k := KeyFor(s.key, Param(Some(pathParams), s.key.partition), QuerySort(s.key, query));
      var o := Step(s, items, Request("DELETE", Some(pathParams), query, body), now, None, trace);
      && o == Outcome(Response(204, Cors, None), items - {k})
      && k !in o.items
      && (k !in items ==> o.items == items)
  {
  }

  /** A record created by POST is what a GET on its key reads back. */
  lemma CreateThenRead(s: Schema, items: map<Key, Record>, data: Record, id: string, sort: string,
                       now: string, later: string, trace: string)
    requires WellFormed(s) && Validate(s, data, now).Ok?
    requires var r := Validate(s, data, now).value;
      && Field(r, s.key.partition) == Str(id)
      && (s.key.Composite? ==> Field(r, s.key.sort) == Str(sort))
    ensures
      var created := Step(s, items, Request("POST", None, None, Parsed(Obj(data))), now, None, trace);
      var query := if s.key.Composite? then Some(map[s.key.sort := sort]) else None;
      var read := Step(s, created.items, Request("GET", Some(map[s.key.partition := id]), query, Parsed(Null)), later, None, trace);
      read.response == Response(200, Cors, Some(One(Validate(s, data, now).value)))
  {
    var r := Validate(s, data, now).value;
    var query := if s.key.Composite? then Some(map[s.key.sort := sort]) else None;
    assert Truthy(Field(r, s.key.partition));
    assert KeyFor(s.key, Str(id), QuerySort(s.key, query)) == KeyOf(s.key, r);
  }

  /** After a DELETE, a GET on the same key finds nothing, and a second
      DELETE of it still answers 204 and changes nothing. */
  lemma DeleteThenReadAbsent(s: Schema, items: map<Key, Record>, pathParams: map<string, string>,
                             query: Option<map<string, string>>, now: string, trace: string)
    requires WellFormed(s) && Truthy(Param(Some(pathParams), s.key.partition))
    ensures
      var deleted := Step(s, items, Request("DELETE", Some(pathParams), query, Parsed(Null)), now, None, trace);
      var read := Step(s, deleted.items, Request("GET", Some(pathParams), query, Parsed(Null)), now, None, trace);
      var again := Step(s, deleted.items, Request("DELETE", Some(pathParams), query, Parsed(Null)), now, None, trace);
      && read.response == Response(200, Cors, None)
      && again == Outcome(Response(204, Cors, None), deleted.items)
  {
  }

  /** Once a request gets as far as its store call, a failing call answers
      exactly the catch block's response for that error,
      `{error: message, details: stack}`, and the table is unchanged. */
  lemma StoreFaultIsCaught(s: Schema, items: map<Key, Record>, req: Request, now: string,
                           e: JsError, trace: string)
    requires WellFormed(s)
    requires || req.httpMethod == "GET"
             || (req.httpMethod == "DELETE" && req.pathParams.Some?)
             || (req.httpMethod == "POST" && req.body.Parsed? && ValidateBody(s, req.body.value, now).Ok?)
             || (req.httpMethod == "PUT" && req.body.Parsed? && req.pathParams.Some?
                 && Validate(s, Merged(s, req.body.value, req.pathParams.value), now).Ok?)
    ensures Step(s, items, req, now, Some(e), trace) == Outcome(ErrorResponse(e, trace), items)
  {
  }

  /** A store failure surfaces as the catch block's response (400 only for
      an error named "ValidationError") and changes nothing. */
  lemma StoreFaultChangesNothing(s: Schema, items: map<Key, Record>, req: Request, now: string,
                                 e: JsError, trace: string)
    requires WellFormed(s) && req.httpMethod in MethodsHandled
    ensures var o := Step(s, items, req, now, Some(e), trace);
      && o.items == items
      && (o.response.status == 400 ==> e.name == ValidationErrorName)
      && o.response.status in {400, 500}
  {
  }
}
