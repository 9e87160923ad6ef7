/**
 * The request-parameter helpers, validators, error normalisation and the
 * structural JSON rewrite of the shared utility service
 * (src/app/common/util.service.js).
 */
module Util {
  import opened Common

  /*=====================================
   * Error values and their messages
   *====================================*/

  /** One own property of a schema-validation error's `errors` object. */
  datatype FieldIssue = FieldIssue(path: Option<string>, kind: Option<string>, message: string)
  /** A property name of `errors` with its issue; a sequence keeps the key order. */
  datatype FieldEntry = FieldEntry(field: string, issue: FieldIssue)
  /** One `{ field, message }` element reported to the client. */
  datatype FieldError = FieldError(field: string, message: string)

  /**
   * An error object as it reaches the error handler: `name`, `status`,
   * `type` (here `kind`), `message`, `stack` and the per-field `errors`;
   * None stands for an absent (or, for `status`, non-numeric) property.
   */
  datatype ErrorValue = ErrorValue(
    name: Option<string>,
    status: Option<int>,
    kind: Option<string>,
    message: Option<string>,
    stack: Option<string>,
    errors: Option<seq<FieldEntry>>)

  /** What may be thrown or rejected: a bare string or an error object. */
  datatype Thrown = Text(text: string) | Record(error: ErrorValue)

  /** The empty object `{}` that replaces a missing error. */
  const EmptyError := ErrorValue(None, None, None, None, None, None)

  /** The `{ status, type, message }` literal every denial is written as. */
  function Rejection(status: int, kind: string, message: string): ErrorValue {
    ErrorValue(None, Some(status), Some(kind), Some(message), None, None)
  }

  /** The message a client sees for one field issue. */
  function ErrorFor(e: FieldEntry): FieldError {
    FieldError(e.field, if e.issue.kind == Some("required") then e.field + " is required" else e.issue.message)
  }

  /** The field errors reported for `entries`, in key order: those with a path. */
  function ReportedErrors(entries: seq<FieldEntry>): (r: seq<FieldError>)
    ensures |r| <= |entries|
  {
    if entries == [] then []
    else
      var last := entries[|entries| - 1];
      ReportedErrors(entries[..|entries| - 1]) + (if Truthy(last.issue.path) then [ErrorFor(last)] else [])
  }

  /** Exactly the issues that carry a path are reported, each with its message. */
  lemma {:induction false} ReportedErrorsExact(entries: seq<FieldEntry>)
    ensures forall e :: e in entries && Truthy(e.issue.path) ==> ErrorFor(e) in ReportedErrors(entries)
    ensures forall fe :: fe in ReportedErrors(entries) ==>
              exists e :: e in entries && Truthy(e.issue.path) && fe == ErrorFor(e)
  {
    if entries != [] {
      var init := entries[..|entries| - 1];
      ReportedErrorsExact(init);
      assert entries == init + [entries[|entries| - 1]];
    }
  }

  /** A required-field issue is reported as "<field> is required". */
  lemma RequiredFieldMessage(entries: seq<FieldEntry>, k: nat)
    requires k < |entries| && Truthy(entries[k].issue.path) && entries[k].issue.kind == Some("required")
    ensures FieldError(entries[k].field, entries[k].field + " is required") in ReportedErrors(entries)
  {
    ReportedErrorsExact(entries);
    assert entries[k] in entries;
  }

  /** getValidationErrors: collects the reported field errors in a loop. */
  method GetValidationErrors(err: ErrorValue) returns (errors: seq<FieldError>)
    ensures errors == if err.errors.Some? then ReportedErrors(err.errors.value) else []
  {
    errors := [];
    if err.errors.Some? {
      var entries := err.errors.value;
      var i := 0;
      while i < |entries|
        invariant 0 <= i <= |entries|
        invariant errors == ReportedErrors(entries[..i])
      {
        var entry := entries[i];
        if Truthy(entry.issue.path) {
          var message := if entry.issue.kind == Some("required") then entry.field + " is required" else entry.issue.message;
          errors := errors + [FieldError(entry.field, message)];
        }
        assert entries[..i + 1][..i] == entries[..i];
        i := i + 1;
      }
      assert entries[..i] == entries;
    }
  }

  /** Array.prototype.join. */
  function Join(parts: seq<string>, sep: string): (r: string)
    ensures parts == [] ==> r == ""
    ensures |parts| == 1 ==> r == parts[0]
  {
    if parts == [] then ""
    else if |parts| == 1 then parts[0]
    else parts[0] + sep + Join(parts[1..], sep)
  }

  /** Appending a part to a non-empty list appends the separator and that part. */
  lemma {:induction false} JoinAppend(parts: seq<string>, x: string, sep: string)
    requires parts != []
    ensures Join(parts + [x], sep) == Join(parts, sep) + sep + x
    decreases |parts|
  {
    assert (parts + [x])[0] == parts[0];
    assert (parts + [x])[1..] == parts[1..] + [x];
    if |parts| > 1 {
      JoinAppend(parts[1..], x, sep);
    }
  }

  function Messages(errors: seq<FieldError>): (r: seq<string>)
    ensures |r| == |errors| && forall i :: 0 <= i < |errors| ==> r[i] == errors[i].message
  {
    seq(|errors|, i requires 0 <= i < |errors| => errors[i].message)
  }

  /** getErrorMessage: a string as it is, otherwise message (or a default) and the stack. */
  function GetErrorMessage(err: Thrown): (r: string)
    ensures err.Text? ==> r == err.text
    ensures err.Record? && err.error.stack.None? ==>
              r == if err.error.message.Some? then err.error.message.value else "unknown error"
    ensures err.Record? && err.error.stack.Some? ==>
              var msg := err.error.message.GetOr("unknown error");
              r == "[" + msg + "] " + err.error.stack.value &&
              r[|r| - |err.error.stack.value|..] == err.error.stack.value
  {
    match err
    case Text(s) => s
    case Record(e) =>
      var msg := e.message.GetOr("unknown error");
      if e.stack.Some? then "[" + msg + "] " + e.stack.value else msg
  }

  const GenericServerMessage := "A server error has occurred."

  /** getClientErrorMessage: hides server errors unless they are to be exposed. */
  function GetClientErrorMessage(err: ErrorValue, exposeServerErrors: bool): (r: string)
    ensures !exposeServerErrors ==> r == GenericServerMessage
    ensures exposeServerErrors ==> r == GetErrorMessage(Record(err))
  {
    if exposeServerErrors then GetErrorMessage(Record(err)) else GenericServerMessage
  }

  /*=====================================
   * handleErrorResponse
   *====================================*/

  /** The JSON body sent with an error status. */
  datatype ErrorBody =
    | PassThrough(error: ErrorValue)                          // the error object itself
    | ValidationBody(message: string, errors: seq<FieldError>) // { status: 400, type: 'validation', ... }
    | ServerErrorBody(message: string)                        // { status, type: 'server-error', message }

  datatype Reply = Reply(status: int, body: ErrorBody)

  /** The status test `status >= 400 && status <= 600`. */
  predicate AcceptedStatus(status: Option<int>) {
    status.Some? && 400 <= status.value <= 600
  }

  /** An error that handleErrorResponse sends unchanged: 400-499 or exactly 600. */
  predicate PassesThrough(e: ErrorValue) {
    e.name != Some("ValidationError") && AcceptedStatus(e.status) && !(500 <= e.status.value < 600)
  }

  /**
   * The reply handleErrorResponse sends for an error: a ValidationError
   * becomes a 400 validation body; a missing or out-of-range status becomes
   * 500; a status in [500, 600) is answered with a server-error body whose
   * message is the client message; anything else is sent as it is.
   */
  function ErrorReply(e: ErrorValue, exposeServerErrors: bool): (reply: Reply)
    ensures 400 <= reply.status <= 600
    ensures reply.body.ServerErrorBody? <==> 500 <= reply.status < 600
    ensures e.name == Some("ValidationError") ==>
              var errors := if e.errors.Some? then ReportedErrors(e.errors.value) else [];
              reply == Reply(400, ValidationBody(Join(Messages(errors), ", "), errors))
    ensures e.name != Some("ValidationError") && !AcceptedStatus(e.status) ==>
              reply == Reply(500, ServerErrorBody(GetClientErrorMessage(e, exposeServerErrors)))
    ensures e.name != Some("ValidationError") && AcceptedStatus(e.status) && 500 <= e.status.value < 600 ==>
              reply == Reply(e.status.value, ServerErrorBody(GetClientErrorMessage(e, exposeServerErrors)))
    ensures PassesThrough(e) ==> reply == Reply(e.status.value, PassThrough(e))
  {
    if e.name == Some("ValidationError") then
      var errors := if e.errors.Some? then ReportedErrors(e.errors.value) else [];
      Reply(400, ValidationBody(Join(Messages(errors), ", "), errors))
    else if !AcceptedStatus(e.status) then
      Reply(500, ServerErrorBody(GetClientErrorMessage(e, exposeServerErrors)))
    else if 500 <= e.status.value < 600 then
      Reply(e.status.value, ServerErrorBody(GetClientErrorMessage(e, exposeServerErrors)))
    else
      Reply(e.status.value, PassThrough(e))
  }

  /**
   * handleErrorResponse: a missing error is `{}`; the error record is
   * rewritten step by step into the reply ErrorReply describes.
   */
  method HandleErrorResponse(errorResult: Option<ErrorValue>, exposeServerErrors: bool) returns (reply: Reply)
    ensures reply == ErrorReply(errorResult.GetOr(EmptyError), exposeServerErrors)
  {
    var e := errorResult.GetOr(EmptyError);
    var status := e.status;
    var body := PassThrough(e);

    if e.name == Some("ValidationError") {
      var errors := GetValidationErrors(e);
      status := Some(400);
      body := ValidationBody(Join(Messages(errors), ", "), errors);
    }

    if !AcceptedStatus(status) {
      status := Some(500);
      e := e.(status := Some(500));
      body := PassThrough(e);
    }

    if 500 <= status.value < 600 {
      body := ServerErrorBody(GetClientErrorMessage(e, exposeServerErrors));
    }

    reply := Reply(status.value, body);
  }

  /*=====================================
   * Validators
   *====================================*/

  /** A parsed JSON value; JDate and JObjectId are what the $date/$obj markers become. */
  datatype Json =
    | JNull                      // null or undefined
    | JBool(b: bool)
    | JNum(n: int)
    | JStr(s: string)
    | JArr(items: seq<Json>)
    | JObj(fields: seq<Field>)   // own properties in key order
    | JDate(source: string)      // new Date(source)
    | JObjectId(hex: string)     // mongoose.Types.ObjectId(hex)
  datatype Field = Field(key: string, value: Json)

  /** validateNumber: present and a number. */
  predicate ValidateNumber(property: Json)
    ensures ValidateNumber(property) <==> property.JNum?
  {
    property != JNull && property.JNum?
  }

  /** validatePositiveNumber: null and 0 pass; anything else must be a number above 0. */
  predicate ValidatePositiveNumber(property: Json)
    ensures ValidatePositiveNumber(property) <==> property == JNull || (property.JNum? && property.n >= 0)
  {
    if property != JNull && property != JNum(0) then property.JNum? && property.n > 0 else true
  }

  /** The `length` property of a value, when it has a numeric one. */
  function LengthOf(property: Json): Option<int> {
    match property
    case JStr(s) => Some(|s|)
    case JArr(items) => Some(|items|)
    case JObj(fields) => NumberProperty(fields, "length")
    case _ => None
  }

  /** The numeric value of the first property named `key`, if it is a number. */
  function NumberProperty(fields: seq<Field>, key: string): Option<int> {
    if fields == [] then None
    else if fields[0].key == key && fields[0].value.JNum? then Some(fields[0].value.n)
    else NumberProperty(fields[1..], key)
  }

  /** validateNonEmpty: present with a positive length. */
  predicate ValidateNonEmpty(property: Json)
    ensures property.JStr? ==> (ValidateNonEmpty(property) <==> property.s != "")
    ensures property.JArr? ==> (ValidateNonEmpty(property) <==> property.items != [])
    ensures property.JNull? || property.JNum? || property.JBool? ==> !ValidateNonEmpty(property)
  {
    property != JNull && LengthOf(property).Some? && LengthOf(property).value > 0
  }

  /** validateArray: a non-empty array. */
  predicate ValidateArray(property: Json)
    ensures ValidateArray(property) <==> property.JArr? && property.items != []
  {
    property != JNull && property.JArr? && |property.items| > 0
  }

  /** Every value validateArray accepts, validateNonEmpty accepts too. */
  lemma ValidArrayIsNonEmpty(property: Json)
    requires ValidateArray(property)
    ensures ValidateNonEmpty(property)
  {
  }

  /*=====================================
   * Paging parameters
   *====================================*/

  /** A query parameter: absent, null, a number, or something isNaN rejects. */
  datatype Param = Absent | Null | Num(n: int) | NotNumber

  datatype QueryParams = QueryParams(page: Param, size: Param, sort: Option<string>, dir: Option<string>)

  function Min(a: int, b: int): int { if a <= b then a else b }
  function Max(a: int, b: int): int { if a >= b then a else b }

  /** `maxSize || 100`. */
  function MaxSizeOf(maxSize: Option<int>): int {
    if maxSize.None? || maxSize.value == 0 then 100 else maxSize.value
  }

  /** The number `_.get(queryParams, 'size', 20)` coerces to; None when it is NaN. */
  function SizeValue(size: Param): Option<int> {
    match size
    case Absent => Some(20)
    case Null => Some(0)    // Math.floor(null) is 0
    case Num(n) => Some(n)
    case NotNumber => None
  }

  /**
   * getLimit, as written: a NaN size gives 20; any other size is clamped
   * into [1, maxSize || 100], so a missing size gives 20 clamped.
   */
  function GetLimit(params: QueryParams, maxSize: Option<int>): (r: int)
    ensures params.size == NotNumber ==> r == 20
    ensures params.size != NotNumber ==> 1 <= r && (MaxSizeOf(maxSize) >= 1 ==> r <= MaxSizeOf(maxSize))
    ensures params.size.Num? && 1 <= params.size.n <= MaxSizeOf(maxSize) ==> r == params.size.n
    ensures params.size == Absent && MaxSizeOf(maxSize) >= 20 ==> r == 20
    ensures params.size == Absent && MaxSizeOf(maxSize) < 20 ==> r == Max(1, MaxSizeOf(maxSize))
    ensures params.size.Num? && params.size.n > MaxSizeOf(maxSize) ==> r == Max(1, MaxSizeOf(maxSize))
    ensures params.size == Null || (params.size.Num? && params.size.n < 1) ==> r == 1
  {
    var max := MaxSizeOf(maxSize);
    var limit := SizeValue(params.size);
    if limit.None? then 20 else Max(1, Min(max, limit.value))
  }

  /** A NaN size escapes the maximum: with maxSize 10 the limit is 20. */
  lemma GetLimitIgnoresMaxOnNaN()
    ensures GetLimit(QueryParams(Absent, NotNumber, None, None), Some(10)) == 20 > MaxSizeOf(Some(10))
  {
  }

  /** getLimit with the default 20 clamped like every other size. */
  function GetLimitBounded(params: QueryParams, maxSize: Option<int>): (r: int)
    ensures 1 <= r <= Max(1, MaxSizeOf(maxSize))
    ensures params.size.Num? && 1 <= params.size.n <= MaxSizeOf(maxSize) ==> r == params.size.n
    ensures params.size.Num? && params.size.n > MaxSizeOf(maxSize) ==> r == Max(1, MaxSizeOf(maxSize))
    ensures params.size == Null || (params.size.Num? && params.size.n < 1) ==> r == 1
    ensures params.size == Absent || params.size == NotNumber ==> r == Max(1, Min(MaxSizeOf(maxSize), 20))
  {
    var max := MaxSizeOf(maxSize);
    var limit := SizeValue(params.size).GetOr(20);
    Max(1, Min(max, limit))
  }

  /** Whenever the maximum is at least the default, the two agree. */
  lemma GetLimitBoundedAgrees(params: QueryParams, maxSize: Option<int>)
    requires MaxSizeOf(maxSize) >= 20
    ensures GetLimitBounded(params, maxSize) == GetLimit(params, maxSize)
  {
  }

  /** getPage: 0 when missing, null or NaN; otherwise never below 0 and unbounded above. */
  function GetPage(params: QueryParams): (r: int)
    ensures r >= 0
    ensures params.page.Num? && params.page.n >= 0 ==> r == params.page.n
    ensures !(params.page.Num? && params.page.n > 0) ==> r == 0
  {
    match params.page
    case Absent => 0            // the default
    case Null => 0              // Math.max(0, null) is 0
    case Num(n) => Max(0, n)
    case NotNumber => 0
  }

  /*=====================================
   * contains, getHeaderField
   *====================================*/

  /** contains: an index loop comparing each element with the target. */
  method Contains<T(==)>(arr: seq<T>, element: T) returns (found: bool)
    ensures found <==> element in arr
  {
    var i := 0;
    while i < |arr|
      invariant 0 <= i <= |arr|
      invariant element !in arr[..i]
    {
      if element == arr[i] {
        return true;
      }
      i := i + 1;
    }
    assert arr[..i] == arr;
    return false;
  }

  /** getHeaderField: null when there is no header or no such field. */
  function GetHeaderField(header: Option<map<string, string>>, fieldName: string): (r: Option<string>)
    ensures r.None? <==> header.None? || fieldName !in header.value
    ensures r.Some? ==> r.value == header.value[fieldName]
  {
    if header.None? || fieldName !in header.value then None else Some(header.value[fieldName])
  }

  /*=====================================
   * toMongoose
   *====================================*/

  /** Whether a value came from a JSON document with no null below the top level. */
  predicate Convertible(v: Json) {
    match v
    case JArr(items) => forall i :: 0 <= i < |items| ==> items[i] != JNull && Convertible(items[i])
    case JObj(fields) => forall i :: 0 <= i < |fields| ==> fields[i].value != JNull && Convertible(fields[i].value)
    case JDate(_) => false
    case JObjectId(_) => false
    case _ => true
  }

  /** The string value of the first property named `key`, if it is a string. */
  function StringProperty(fields: seq<Field>, key: string): (r: Option<string>)
    ensures r.Some? <==> exists i :: 0 <= i < |fields| && fields[i].key == key && fields[i].value.JStr?
  {
    if fields == [] then None
    else if fields[0].key == key && fields[0].value.JStr? then Some(fields[0].value.s)
    else StringProperty(fields[1..], key)
  }

  /** Specification of toMongoose: arrays and objects are rewritten member by member. */
  function Converted(v: Json): (r: Json)
    requires Convertible(v)
    ensures v.JArr? ==> r.JArr? && |r.items| == |v.items|
    ensures v.JObj? ==> (r.JObj? && |r.fields| == |v.fields| &&
                         forall i :: 0 <= i < |v.fields| ==> r.fields[i].key == v.fields[i].key)
    ensures !v.JArr? && !v.JObj? ==> r == v
    decreases v, 0
  {
    match v
    case JArr(items) =>
      JArr(seq(|items|, i requires 0 <= i < |items| => PropConverted(items[i])))
    case JObj(fields) =>
      JObj(seq(|fields|, i requires 0 <= i < |fields| => Field(fields[i].key, PropConverted(fields[i].value))))
    case _ => v
  }

  /** Specification of propToMongoose: a $date or $obj marker object is converted, anything else recursed into. */
  function PropConverted(prop: Json): (r: Json)
    requires prop != JNull && Convertible(prop)
    decreases prop, 1
  {
    if prop.JObj? && StringProperty(prop.fields, "$date").Some? then
      JDate(StringProperty(prop.fields, "$date").value)
    else if prop.JObj? && StringProperty(prop.fields, "$obj").Some? then
      JObjectId(StringProperty(prop.fields, "$obj").value)
    else Converted(prop)
  }

  /** Whether no object anywhere below the top level carries a string $date or $obj. */
  predicate NoMarkers(v: Json)
    decreases v, 0
  {
    match v
    case JArr(items) => forall i :: 0 <= i < |items| ==> PropNoMarkers(items[i])
    case JObj(fields) => forall i :: 0 <= i < |fields| ==> PropNoMarkers(fields[i].value)
    case _ => true
  }

  predicate PropNoMarkers(prop: Json)
    decreases prop, 1
  {
    && !(prop.JObj? && StringProperty(prop.fields, "$date").Some?)
    && !(prop.JObj? && StringProperty(prop.fields, "$obj").Some?)
    && NoMarkers(prop)
  }

  /** A document without markers is left as it is. */
  lemma {:induction false} ConvertedIdentity(v: Json)
    requires Convertible(v) && NoMarkers(v)
    ensures Converted(v) == v
    decreases v
  {
    match v
    case JArr(items) =>
      forall i | 0 <= i < |items| ensures PropConverted(items[i]) == items[i] {
        ConvertedIdentity(items[i]);
      }
      assert Converted(v).items == items;
    case JObj(fields) =>
      forall i | 0 <= i < |fields| ensures PropConverted(fields[i].value) == fields[i].value {
        ConvertedIdentity(fields[i].value);
      }
      assert Converted(v).fields == fields;
    case _ =>
  }

  /** toMongoose: null and non-objects as they are; arrays and objects rebuilt in a loop. */
  method ToMongoose(obj: Json) returns (r: Json)
    requires Convertible(obj)
    ensures r == Converted(obj)
    decreases obj, 0
  {
    if obj != JNull {
      match obj
      case JArr(items) =>
        var arr: seq<Json> := [];
        var index := 0;
        while index < |items|
          invariant 0 <= index <= |items|
          invariant |arr| == index
          invariant forall i :: 0 <= i < index ==> arr[i] == PropConverted(items[i])
        {
          var item := PropToMongoose(items[index]);
          arr := arr + [item];
          index := index + 1;
        }
        return JArr(arr);
      case JObj(fields) =>
        var newObj: seq<Field> := [];
        var index := 0;
        while index < |fields|
          invariant 0 <= index <= |fields|
          invariant |newObj| == index
          invariant forall i :: 0 <= i < index ==> newObj[i] == Field(fields[i].key, PropConverted(fields[i].value))
        {
          var value := PropToMongoose(fields[index].value);
          newObj := newObj + [Field(fields[index].key, value)];
          index := index + 1;
        }
        return JObj(newObj);
      case _ =>
    }
    return obj;
  }

  /** propToMongoose, with toMongoose as its fallback. */
  method PropToMongoose(prop: Json) returns (r: Json)
    requires prop != JNull && Convertible(prop)
    ensures r == PropConverted(prop)
    decreases prop, 1
  {
    if prop.JObj? && StringProperty(prop.fields, "$date").Some? {
      return JDate(StringProperty(prop.fields, "$date").value);
    } else if prop.JObj? && StringProperty(prop.fields, "$obj").Some? {
      return JObjectId(StringProperty(prop.fields, "$obj").value);
    }
    r := ToMongoose(prop);
  }
}
