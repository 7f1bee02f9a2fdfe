/**
 The in-memory record kept by the Flask server (api.py) and how
 `handle_joystick` changes it on POST, GET and OPTIONS. The JSON body is
 given already parsed; the SQLite insert is reduced to whether it succeeded.
 */
module Api {

  /** A JSON value as Python's `json` module hands it over. */
  datatype Json =
    | Null
    | Bool(b: bool)
    | Num(n: real)
    | Str(s: string)
    | Arr(items: seq<Json>)
    | Obj(fields: map<string, Json>)

  /** Python truthiness (`bool(v)`, `not v`) of a decoded JSON value. */
  predicate Truthy(j: Json)
  {
    match j
    case Null => false
    case Bool(b) => b
    case Num(n) => n != 0.0
    case Str(s) => |s| > 0
    case Arr(items) => |items| > 0
    case Obj(fields) => |fields| > 0
  }

  /** The falsy JSON values are exactly `null`, `false`, `0`, `""`, `[]` and `{}`. */
  lemma FalsyValues(j: Json)
    ensures !Truthy(j) <==> j in {Null, Bool(false), Num(0.0), Str(""), Arr([]), Obj(map[])}
  {
    if j.Obj? && |j.fields| == 0 {
      assert j.fields == map[];
    }
  }

  /** The module-level `joystick_data` dictionary. `x`, `y` and `direction` hold
      whatever JSON the last POST sent; `button` is always a boolean. */
  datatype State = State(x: Json, y: Json, button: bool, direction: Json)

  /** The record before any POST: centred, released, "Centro". */
  const Initial: State := State(Num(0.0), Num(0.0), false, Str("Centro"))

  /** `jsonify(joystick_data)`: the record as a JSON object. */
  function Record(s: State): (j: Json)
    ensures j.Obj? && j.fields.Keys == {"x", "y", "button", "direction"}
  {
    Obj(map["x" := s.x, "y" := s.y, "button" := Bool(s.button), "direction" := s.direction])
  }

  /** `dict.get(key, default)`. */
  function Lookup(fields: map<string, Json>, key: string, default: Json): (v: Json)
    ensures v == default || v in fields.Values
  {
    if key in fields then fields[key] else default
  }

  /** `str.lower` on one character, for ASCII letters. */
  function LowerChar(c: char): (l: char)
    ensures !('A' <= l <= 'Z')
    ensures 'a' <= l <= 'z' <==> 'a' <= c <= 'z' || 'A' <= c <= 'Z'
  {
    if 'A' <= c <= 'Z' then (c as int + 32) as char else c
  }

  /** `str.lower`, for ASCII letters. */
  function Lower(s: string): (t: string)
    ensures |t| == |s|
    ensures forall i :: 0 <= i < |t| ==> !('A' <= t[i] <= 'Z')
  {
    seq(|s|, i requires 0 <= i < |s| => LowerChar(s[i]))
  }

  /** Lower-casing is idempotent: a lower-cased string has nothing left to lower. */
  lemma LowerIdempotent(s: string)
    ensures Lower(Lower(s)) == Lower(s)
  {
  }

  /** The coercion of the `button` field: a string counts as pressed when it
      lower-cases to "true", anything else by its truthiness. */
  function ButtonValue(v: Json): bool
  {
    match v
    case Str(s) => Lower(s) == "true"
    case _ => Truthy(v)
  }

  /** A string button is pressed exactly when it spells "true" in any mix of
      upper and lower case. */
  lemma ButtonStringIsCaseInsensitiveTrue(s: string)
    ensures ButtonValue(Str(s)) <==>
      && |s| == 4
      && (s[0] == 't' || s[0] == 'T')
      && (s[1] == 'r' || s[1] == 'R')
      && (s[2] == 'u' || s[2] == 'U')
      && (s[3] == 'e' || s[3] == 'E')
  {
    if |s| == 4 {
      var t := Lower(s);
      assert t == "true" <==> t[0] == 't' && t[1] == 'r' && t[2] == 'u' && t[3] == 'e';
    }
  }

  /** The field-by-field update of a POST with a JSON object body. */
  function Merge(s: State, fields: map<string, Json>): (t: State)
    ensures t.x == (if "x" in fields then fields["x"] else s.x)
    ensures t.y == (if "y" in fields then fields["y"] else s.y)
    ensures t.direction == (if "direction" in fields then fields["direction"] else s.direction)
    ensures "button" !in fields ==> t.button == s.button
    ensures "button" in fields && fields["button"].Str? ==>
      (t.button <==> Lower(fields["button"].s) == "true")
    ensures "button" in fields && !fields["button"].Str? ==>
      t.button == Truthy(fields["button"])
  {
    State(
      Lookup(fields, "x", s.x),
      Lookup(fields, "y", s.y),
      ButtonValue(Lookup(fields, "button", Bool(s.button))),
      Lookup(fields, "direction", s.direction))
  }

  /** What `request.get_json()` produced: a value (None is `null`), or an
      exception (malformed JSON, or a content type the Flask version rejects). */
  datatype Body = Parsed(value: Json) | Unreadable

  datatype Request = Get | Post(body: Body) | Options

  /** Why a POST ended in the `except` clause. */
  datatype Cause =
    | BodyUnreadable  // `get_json` raised
    | NotAnObject     // `data.get` on a truthy non-dict raised AttributeError
    | StoreFailed     // the SQLite insert raised

  datatype Reply =
    | Success(body: Json)        // 200 with a JSON body
    | BadRequest(message: string) // 400, `{'status': 'error', 'message': …}`
    | ServerError(cause: Cause)   // 500, message `str(e)`

  function Status(r: Reply): int
  {
    match r
    case Success(_) => 200
    case BadRequest(_) => 400
    case ServerError(_) => 500
  }

  datatype Handled = Handled(state: State, reply: Reply)

  const SuccessStatus: Json := Str("success")

  /** `handle_joystick`: `stored` says whether the SQLite insert would succeed. */
  function Handle(s: State, req: Request, stored: bool): (h: Handled)
    ensures req.Get? ==> h == Handled(s, Success(Record(s)))
    ensures req.Options? ==> h.state == s && Status(h.reply) == 200
    ensures Status(h.reply) == 400 <==> req.Post? && req.body.Parsed? && !Truthy(req.body.value)
    ensures h.state != s ==>
      req.Post? && req.body.Parsed? && req.body.value.Obj? && Truthy(req.body.value)
    ensures req.Post? && req.body.Unreadable? ==> h == Handled(s, ServerError(BodyUnreadable))
    ensures req.Post? && req.body.Parsed? && req.body.value.Obj? && Truthy(req.body.value) ==>
      (Status(h.reply) == 200 <==> stored)
    ensures req.Post? && req.body.Parsed? && Truthy(req.body.value) && !req.body.value.Obj? ==>
      h == Handled(s, ServerError(NotAnObject))
    ensures req.Post? && req.body.Parsed? && req.body.value.Obj? && Truthy(req.body.value) ==>
      h.state == Merge(s, req.body.value.fields)
    ensures req.Post? && Status(h.reply) == 200 ==>
      h.reply == Success(Obj(map["status" := SuccessStatus, "data" := Record(h.state)]))
  {
    match req
    case Options => Handled(s, Success(Obj(map["status" := SuccessStatus])))
    case Get => Handled(s, Success(Record(s)))
    case Post(Unreadable) => Handled(s, ServerError(BodyUnreadable))
    case Post(Parsed(data)) =>
      if !Truthy(data) then Handled(s, BadRequest("Nenhum dado JSON recebido"))
      else if !data.Obj? then Handled(s, ServerError(NotAnObject))
      else
        var t := Merge(s, data.fields);
        if stored then Handled(t, Success(Obj(map["status" := SuccessStatus, "data" := Record(t)])))
        else Handled(t, ServerError(StoreFailed))
  }

  /** A GET on a freshly started server reports the joystick at rest:
      0.0, 0.0, released, "Centro". */
  lemma FreshGetReportsRest(stored: bool)
    ensures Handle(Initial, Get, stored).reply ==
      Success(Obj(map["x" := Num(0.0), "y" := Num(0.0), "button" := Bool(false),
                      "direction" := Str("Centro")]))
  {
  }

  /** Applying the same object twice gives the record of applying it once. */
  lemma MergeIdempotent(s: State, fields: map<string, Json>)
    ensures Merge(Merge(s, fields), fields) == Merge(s, fields)
  {
  }

  /** Repeating a POST changes nothing more and gives the same reply. */
  lemma PostIdempotent(s: State, body: Body, stored: bool)
    ensures var once := Handle(s, Post(body), stored);
      Handle(once.state, Post(body), stored) == once
  {
    if body.Parsed? && body.value.Obj? && Truthy(body.value) {
      MergeIdempotent(s, body.value.fields);
    }
  }

  /** Posting a record as returned by GET installs exactly that record,
      whatever was there before. */
  lemma PostRecordRoundTrip(s: State, t: State)
    ensures Handle(s, Post(Parsed(Record(t))), true).state == t
  {
    var fields := Record(t).fields;
    assert "x" in fields.Keys;
    assert |fields| > 0;
  }

  /** A GET after a stored POST reports the merged record. */
  lemma GetAfterPost(s: State, fields: map<string, Json>)
    requires |fields| > 0
    ensures var posted := Handle(s, Post(Parsed(Obj(fields))), true);
      Handle(posted.state, Get, true).reply == Success(Record(Merge(s, fields)))
  {
  }

  /** A failed insert still answers 500 but keeps the merged record. */
  lemma StoreFailureKeepsMerge(s: State, fields: map<string, Json>)
    requires |fields| > 0
    ensures Handle(s, Post(Parsed(Obj(fields))), false) ==
      Handled(Merge(s, fields), ServerError(StoreFailed))
  {
  }
}
