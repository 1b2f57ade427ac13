/**
 * The request handler the three resource files share, written once over an
 * entity schema: the validator (required fields in order, then one
 * enumerated-value constraint, then a rebuild from an explicit field list
 * with defaults), the specification `Step` of one handler invocation, and
 * the imperative handler `Handle` that runs it against a table.
 */
module Crud {
  import opened Results
  import opened JsValues
  import opened Http
  import opened Store

  /** How the rebuilt record fills one output field from the input value `v`. */
  datatype Default =
    | Verbatim                    // data.f
    | NullIfFalsy                 // data.f || null
    | NowIfFalsy                  // data.f || new Date().toISOString()
    | TextIfFalsy(text: string)   // data.f || 'text'

  /** The one enumerated-value check a validator may make:
      `if (data.f && !allowed.includes(data.f)) throw new Error(message)`. */
  datatype Constraint =
    | Unconstrained
    | OneOf(field: string, allowed: set<string>, message: string)

  /** One resource kind: its required fields in checking order, its
      constraint, the fields of the rebuilt record with their defaults, the
      table's key shape, and the fields a PUT writes. */
  datatype Schema = Schema(
    required: seq<string>,
    constraint: Constraint,
    output: map<string, Default>,
    key: KeyShape,
    mutable: set<string>)

  /** A default that re-validation leaves alone: its fallback is falsy or
      passes the constraint. */
  predicate KeepsConstraint(d: Default, allowed: set<string>) {
    match d
    case Verbatim => true
    case NullIfFalsy => true
    case NowIfFalsy => false
    case TextIfFalsy(t) => t == "" || t in allowed
  }

  /** What the three resource schemas have in common. */
  predicate WellFormed(s: Schema) {
    && |s.required| > 0
    && s.key.Proper()
    && s.key.partition in s.required
    && (forall f :: f in s.required ==> f in s.output && s.output[f] == Verbatim)
    && s.mutable !! s.key.KeyFields()
    && (s.constraint.OneOf? && s.constraint.field in s.output ==>
          KeepsConstraint(s.output[s.constraint.field], s.constraint.allowed))
  }

  /** The message of the error thrown for a missing required field. */
  function MissingMessage(f: string): string {
    "Missing required field: " + f
  }

  /** The position of the first field of `fields` whose value in `data` is
      falsy, or `|fields|` when every one is truthy: where the
      `for (const field of required)` loop throws. */
  function MissingAt(data: Record, fields: seq<string>): (i: nat)
    ensures i <= |fields|
    ensures forall j :: 0 <= j < i ==> Truthy(Field(data, fields[j]))
    ensures i < |fields| ==> !Truthy(Field(data, fields[i]))
  {
    if fields == [] then 0
    else if !Truthy(Field(data, fields[0])) then 0
    else 1 + MissingAt(data, fields[1..])
  }

  /** The first falsy field is the one at `i` when the fields before it are
      truthy and it is falsy (or `i` is past the end). */
  lemma MissingAtIs(data: Record, fields: seq<string>, i: nat)
    requires i <= |fields|
    requires forall j :: 0 <= j < i ==> Truthy(Field(data, fields[j]))
    requires i < |fields| ==> !Truthy(Field(data, fields[i]))
    ensures MissingAt(data, fields) == i
  {
  }

  /** Whether `v` is one of the allowed strings (`allowed.includes(v)`). */
  predicate Allowed(v: Value, allowed: set<string>) {
    v.Str? && v.s in allowed
  }

  /** Whether the constraint rejects `data`: the field is truthy and not allowed. */
  predicate Violates(c: Constraint, data: Record) {
    c.OneOf? && Truthy(Field(data, c.field)) && !Allowed(Field(data, c.field), c.allowed)
  }

  /** The value an output field takes. */
  function Apply(d: Default, v: Value, now: string): (r: Value)
    ensures d.Verbatim? ==> r == v
    ensures !d.Verbatim? && Truthy(v) ==> r == v
    ensures d.NullIfFalsy? && !Truthy(v) ==> r == Null
    ensures d.NowIfFalsy? && !Truthy(v) ==> r == Str(now)
    ensures d.TextIfFalsy? && !Truthy(v) ==> r == Str(d.text)
  {
    match d
    case Verbatim => v
    case NullIfFalsy => Or(v, Null)
    case NowIfFalsy => Or(v, Str(now))
    case TextIfFalsy(t) => Or(v, Str(t))
  }

  /** The rebuilt record: exactly the output fields, each filled by its
      default rule; any other input property is dropped. */
  function Build(output: map<string, Default>, data: Record, now: string): (r: Record)
    ensures r.Keys == output.Keys
    ensures forall f :: f in r ==> r[f] == Apply(output[f], Field(data, f), now)
  {
    map f | f in output :: Apply(output[f], Field(data, f), now)
  }

  /** The validator of a schema applied to a record. */
  function Validate(s: Schema, data: Record, now: string): (r: Result<Record, JsError>)
    ensures r.Err? ==> r.error.name == "Error"
    ensures r.Ok? <==>
      (forall f :: f in s.required ==> Truthy(Field(data, f))) && !Violates(s.constraint, data)
    ensures r.Ok? <==> MissingAt(data, s.required) == |s.required| && !Violates(s.constraint, data)
    ensures MissingAt(data, s.required) < |s.required|
      ==> r == Err(PlainError(MissingMessage(s.required[MissingAt(data, s.required)])))
    ensures MissingAt(data, s.required) == |s.required| && Violates(s.constraint, data)
      ==> r == Err(PlainError(s.constraint.message))
    ensures r.Ok? ==> r.value == Build(s.output, data, now)
  {
    var i := MissingAt(data, s.required);
    if i < |s.required| then Err(PlainError(MissingMessage(s.required[i])))
    else if Violates(s.constraint, data) then Err(PlainError(s.constraint.message))
    else Ok(Build(s.output, data, now))
  }

  /** The validator applied to a parsed POST body: a `null` body throws a
      `TypeError` at the first property read; any other non-object value
      has none of the schema's fields. */
  function ValidateBody(s: Schema, v: Value, now: string): (r: Result<Record, JsError>)
    requires |s.required| > 0
    ensures v.Obj? ==> r == Validate(s, v.props, now)
    ensures v.Null? ==> r == Err(NullRead(v, s.required[0]))
  {
    if v.Null? || v.Undefined? then Err(NullRead(v, s.required[0]))
    else Validate(s, Properties(v), now)
  }

  /** The sort-key value a GET or DELETE reads from the query string
      (`event.queryStringParameters?.groupId`), with no presence check. */
  function QuerySort(shape: KeyShape, query: Option<map<string, string>>): Value {
    if shape.Composite? then Param(query, shape.sort) else Undefined
  }

  /** The sort-key value a PUT takes from the validated record. */
  function RecordSort(shape: KeyShape, r: Record): Value {
    if shape.Composite? then Field(r, shape.sort) else Undefined
  }

  /** The record a PUT validates: the body's properties with the path id
      written over the body's id (`{...body, id: pathParameters.id}`). */
  function Merged(s: Schema, v: Value, pathParams: map<string, string>): (m: Record)
    ensures m.Keys == Properties(v).Keys + {s.key.partition}
    ensures m[s.key.partition] == Param(Some(pathParams), s.key.partition)
    ensures forall f :: f in Properties(v) && f != s.key.partition ==> f in m && m[f] == Properties(v)[f]
  {
    Properties(v)[s.key.partition := Param(Some(pathParams), s.key.partition)]
  }

  /** The response and the table after one invocation. */
  datatype Outcome = Outcome(response: Response, items: map<Key, Record>)

  /** A thrown error: the catch block's response, table untouched. */
  function Thrown(e: JsError, items: map<Key, Record>, trace: string): Outcome {
    Outcome(ErrorResponse(e, trace), items)
  }

  const MethodsHandled: set<string> := {"POST", "GET", "PUT", "DELETE"}

  /** One handler invocation on a table holding `items`. `now` is the clock
      reading a timestamp default takes, `fault` the error the store call
      raises if it fails, and `trace` the opaque stack trace of any thrown
      error. */
  function Step(s: Schema, items: map<Key, Record>, req: Request, now: string,
                fault: Option<JsError>, trace: string): (o: Outcome)
    requires |s.required| > 0 && s.key.Proper()
    ensures o.response.headers == Cors
    ensures o.response.status in {200, 201, 204, 400, 500}
    ensures o.response.status >= 400 ==> o.items == items
    ensures o.items != items ==> req.httpMethod in {"POST", "PUT", "DELETE"}
    ensures req.httpMethod !in MethodsHandled ==>
      o == Outcome(Response(400, Cors, Some(ErrorMessage(UnsupportedMethod))), items)
  {
    if req.httpMethod == "POST" then
      match req.body
      case Malformed(m) => Thrown(JsError("SyntaxError", m), items, trace)
      case Parsed(v) =>
        match ValidateBody(s, v, now)
        case Err(e) => Thrown(e, items, trace)
        case Ok(r) =>
          if fault.Some? then Thrown(fault.value, items, trace)
          else Outcome(Response(201, Cors, Some(One(r))), Put(s.key, items, r))
    else if req.httpMethod == "GET" then
      var id := Param(req.pathParams, s.key.partition);
      if fault.Some? then Thrown(fault.value, items, trace)
      else if Truthy(id) then
        var k := KeyFor(s.key, id, QuerySort(s.key, req.query));
        Outcome(Response(200, Cors, if k in items then Some(One(items[k])) else None), items)
      else
        Outcome(Response(200, Cors, Some(Many(items.Values))), items)
    else if req.httpMethod == "PUT" then
      match req.body
      case Malformed(m) => Thrown(JsError("SyntaxError", m), items, trace)
      case Parsed(v) =>
        if req.pathParams.None? then Thrown(NullRead(Null, s.key.partition), items, trace)
        else
          match Validate(s, Merged(s, v, req.pathParams.value), now)
          case Err(e) => Thrown(e, items, trace)
          case Ok(r) =>
            var k := KeyFor(s.key, Param(req.pathParams, s.key.partition), RecordSort(s.key, r));
            if fault.Some? then Thrown(fault.value, items, trace)
            else Outcome(Response(200, Cors, Some(One(r))), Update(s.key, items, k, Restrict(r, s.mutable)))
    else if req.httpMethod == "DELETE" then
      if req.pathParams.None? then Thrown(NullRead(Null, s.key.partition), items, trace)
      else
        var k := KeyFor(s.key, Param(req.pathParams, s.key.partition), QuerySort(s.key, req.query));
        if fault.Some? then Thrown(fault.value, items, trace)
        else Outcome(Response(204, Cors, None), Delete(items, k))
    else
      Outcome(Response(400, Cors, Some(ErrorMessage(UnsupportedMethod))), items)
  }

  /** The handler: one invocation against the table, switching on the HTTP
      method, with every thrown error caught once at the end. */
  method Handle(s: Schema, table: Table, req: Request, now: string,
                fault: Option<JsError>, trace: string) returns (resp: Response)
    requires WellFormed(s) && table.shape == s.key && table.Valid()
    modifies table
    ensures table.Valid()
    ensures Outcome(resp, table.items) == Step(s, old(table.items), req, now, fault, trace)
  {
    var thrown: Option<JsError> := None;
    match req.httpMethod {
      case "POST" =>
        if req.body.Malformed? {
          thrown := Some(JsError("SyntaxError", req.body.message));
        } else {
          var validated := ValidateBody(s, req.body.value, now);
          if validated.Err? {
            thrown := Some(validated.error);
          } else {
            thrown := table.PutItem(validated.value, fault);
            if thrown.None? {
              resp := Response(201, Cors, Some(One(validated.value)));
              return;
            }
          }
        }
      case "GET" =>
        var id := Param(req.pathParams, s.key.partition);
        if Truthy(id) {
          var item;
          item, thrown := table.GetItem(KeyFor(s.key, id, QuerySort(s.key, req.query)), fault);
          if thrown.None? {
            resp := Response(200, Cors, if item.Some? then Some(One(item.value)) else None);
            return;
          }
        } else {
          var all;
          all, thrown := table.Scan(fault);
          if thrown.None? {
            resp := Response(200, Cors, Some(Many(all)));
            return;
          }
        }
      case "PUT" =>
        if req.body.Malformed? {
          thrown := Some(JsError("SyntaxError", req.body.message));
        } else if req.pathParams.None? {
          thrown := Some(NullRead(Null, s.key.partition));
        } else {
          var validated := Validate(s, Merged(s, req.body.value, req.pathParams.value), now);
          if validated.Err? {
            thrown := Some(validated.error);
          } else {
            var r := validated.value;
            var k := KeyFor(s.key, Param(req.pathParams, s.key.partition), RecordSort(s.key, r));
            thrown := table.UpdateItem(k, Restrict(r, s.mutable), fault);
            if thrown.None? {
              resp := Response(200, Cors, Some(One(r)));
              return;
            }
          }
        }
      case "DELETE" =>
        if req.pathParams.None? {
          thrown := Some(NullRead(Null, s.key.partition));
        } else {
          var k := KeyFor(s.key, Param(req.pathParams, s.key.partition), QuerySort(s.key, req.query));
          thrown := table.DeleteItem(k, fault);
          if thrown.None? {
            resp := Response(204, Cors, None);
            return;
          }
        }
      case _ =>
        resp := Response(400, Cors, Some(ErrorMessage(UnsupportedMethod)));
        return;
    }
    resp := ErrorResponse(thrown.value, trace);
  }
}
