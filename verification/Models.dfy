/**
  Requests and their stored form (async_hardened_client/models.py).

  SHA-256 of the sorted-key JSON text is a parameter, `digest`: any function from hashed payloads to
  numbers.  Nothing below needs more of it than being a function; that distinct payloads get distinct
  keys is its injectivity.  Python dictionaries become maps, which makes the key independent of
  insertion order, as the sorted dump does.
*/
module Models {

  datatype Option<+T> = None | Some(value: T)

  datatype Result<+T> = Ok(value: T) | Err

  datatype Json =
    | Null
    | Bool(b: bool)
    | Int(i: int)
    | Float(r: real)
    | Str(s: string)
    | Arr(items: seq<Json>)
    | Obj(fields: map<string, Json>)

  datatype Request = Request(
    method_: string,
    url: string,
    headers: map<string, Json>,
    params: map<string, Json>,
    body: Json,
    priority: int,
    requestId: string,
    createdAt: real)

  /** What is hashed. */
  datatype Payload = Payload(method_: string, url: string, params: map<string, Json>, body: Json)

  type Key = nat

  type Digest = Payload -> Key

  /** The persisted JSON object: the fields that `from_storage` looks up, each present or absent. */
  datatype Stored = Stored(
    method_: Option<Json>,
    url: Option<Json>,
    headers: Option<Json>,
    params: Option<Json>,
    body: Option<Json>,
    priority: Option<Json>,
    requestId: Option<Json>,
    createdAt: Option<Json>)

  function UpperChar(ch: char): char {
    if 'a' <= ch <= 'z' then ((ch as int) - 32) as char else ch
  }

  /** `str.upper` on ASCII text. */
  function Upper(text: string): string {
    seq(|text|, i requires 0 <= i < |text| => UpperChar(text[i]))
  }

  function HashedPayload(req: Request): Payload {
    Payload(Upper(req.method_), req.url, req.params, req.body)
  }

  function IdempotencyKey(digest: Digest, req: Request): Key {
    digest(HashedPayload(req))
  }

  function ToStorage(req: Request): Stored {
    Stored(
      Some(Str(req.method_)),
      Some(Str(req.url)),
      Some(Obj(req.headers)),
      Some(Obj(req.params)),
      Some(req.body),
      Some(Int(req.priority)),
      Some(Str(req.requestId)),
      Some(Float(req.createdAt)))
  }

  /** Python truthiness, which decides the `or {}` of `from_storage`. */
  predicate Truthy(value: Json) {
    match value
    case Null => false
    case Bool(b) => b
    case Int(i) => i != 0
    case Float(r) => r != 0.0
    case Str(s) => s != ""
    case Arr(items) => items != []
    case Obj(fields) => fields != map[]
  }

  /** `data.get(name, {}) or {}`. */
  function FieldsOf(value: Option<Json>): Result<map<string, Json>> {
    if value == None || !Truthy(value.value) then Ok(map[])
    else if value.value.Obj? then Ok(value.value.fields)
    else Err
  }

  /**
    `Request.from_storage`.  `freshId` and `now` are what `uuid4` and `time.time` would return for
    absent fields; `Err` stands for the KeyError of a missing method or URL and for a field of the
    wrong JSON type.
  */
  function FromStorage(data: Stored, freshId: string, now: real): Result<Request> {
    var headers := FieldsOf(data.headers);
    var params := FieldsOf(data.params);
    if data.method_ == None || !data.method_.value.Str? || data.url == None || !data.url.value.Str? then Err
    else if headers.Err? || params.Err? then Err
    else if data.priority.Some? && !data.priority.value.Int? then Err
    else if data.requestId.Some? && !data.requestId.value.Str? then Err
    else if data.createdAt.Some? && !data.createdAt.value.Float? then Err
    else Ok(Request(
      data.method_.value.s,
      data.url.value.s,
      headers.value,
      params.value,
      if data.body.Some? then data.body.value else Null,
      if data.priority.Some? then data.priority.value.i else 0,
      if data.requestId.Some? then data.requestId.value.s else freshId,
      if data.createdAt.Some? then data.createdAt.value.r else now))
  }

  /** What is stored is what is restored, whatever the defaults would have been. */
  lemma StorageRoundTrip(req: Request, freshId: string, now: real)
    ensures FromStorage(ToStorage(req), freshId, now) == Ok(req)
  {
  }

  /** The request the public `request` method builds from a stored one (replay takes this path). */
  function Resubmitted(req: Request, requestId: string, now: real): Request {
    Request(Upper(req.method_), req.url, req.headers, req.params, req.body, req.priority, requestId, now)
  }

  lemma ResubmitKeepsKey(digest: Digest, req: Request, newId: string, later: real)
    ensures IdempotencyKey(digest, Resubmitted(req, newId, later)) == IdempotencyKey(digest, req)
  {
    assert Upper(Upper(req.method_)) == Upper(req.method_);
  }

  /**
    The key survives storage, restoration and re-submission, although the worker recomputes it from
    the restored request and the re-submission upper-cases the method a second time.
  */
  lemma KeySurvives(digest: Digest, req: Request, freshId: string, now: real, newId: string, later: real)
    ensures FromStorage(ToStorage(req), freshId, now).Ok?
    ensures
      var restored := FromStorage(ToStorage(req), freshId, now).value;
      && IdempotencyKey(digest, restored) == IdempotencyKey(digest, req)
      && IdempotencyKey(digest, Resubmitted(restored, newId, later)) == IdempotencyKey(digest, req)
  {
    StorageRoundTrip(req, freshId, now);
    ResubmitKeepsKey(digest, req, newId, later);
  }

  // ----- what the key identifies, and what is kept

  /** The same letter but for the case of an ASCII letter. */
  predicate SameLetter(x: char, y: char) {
    || x == y
    || ('a' <= x <= 'z' && x as int == y as int + 32)
    || ('a' <= y <= 'z' && y as int == x as int + 32)
  }

  ghost predicate SameMethod(m: string, m': string) {
    |m| == |m'| && forall i :: 0 <= i < |m| ==> SameLetter(m[i], m'[i])
  }

  ghost predicate Injective(digest: Digest) { forall p, q :: digest(p) == digest(q) ==> p == q }

  lemma UpperIsSame(m: string, m': string)
    ensures Upper(m) == Upper(m') <==> SameMethod(m, m')
  {
    if Upper(m) == Upper(m') {
      assert |m| == |Upper(m)| == |Upper(m')| == |m'|;
      forall i | 0 <= i < |m|
        ensures SameLetter(m[i], m'[i])
      {
        assert Upper(m)[i] == Upper(m')[i];
      }
    }
  }

  /**
    Two requests share a key exactly when they have the same method up to case, URL, parameters and body;
    headers, priority, request id and time make no difference.
  */
  lemma KeyIdentifies(digest: Digest, req: Request, req': Request)
    requires Injective(digest)
    ensures IdempotencyKey(digest, req) == IdempotencyKey(digest, req') <==>
      SameMethod(req.method_, req'.method_) && req.url == req'.url && req.params == req'.params && req.body == req'.body
  {
    UpperIsSame(req.method_, req'.method_);
  }

  /** A re-submission is the stored request under a new id and time; only the case of its method may change. */
  lemma ResubmitKeepsRequest(req: Request, newId: string, later: real)
    ensures
      var re := Resubmitted(req, newId, later);
      && SameMethod(re.method_, req.method_) && re.requestId == newId && re.createdAt == later
      && re.(method_ := req.method_, requestId := req.requestId, createdAt := req.createdAt) == req
  {
  }

  /** Optional fields that are absent or null restore to their defaults; method and URL are required. */
  lemma DefaultsRestored(m: string, url: string, freshId: string, now: real)
    ensures
      var least := Stored(Some(Str(m)), Some(Str(url)), None, None, None, None, None, None);
      var plain := Ok(Request(m, url, map[], map[], Null, 0, freshId, now));
      && FromStorage(least, freshId, now) == plain
      && FromStorage(least.(headers := Some(Null), params := Some(Null)), freshId, now) == plain
      && FromStorage(least.(method_ := None), freshId, now) == Err
      && FromStorage(least.(url := None), freshId, now) == Err
  {
  }
}
