/** The HTTP assertions lib/http.js adds to chai: `status`, `header`,
    `headers`, `ip` and the content-type properties `json`, `text`, `html`.
    Each assertion is a total function of the asserted object, its
    arguments and chai's negation flag (`.not`), returning whether the
    assertion passes, fails (with chai's message template and the expected
    and actual values chai is given) or throws before asserting. */
module HttpAssertions {
  import opened Wrappers
  import opened JsValues
  import opened Text

  /** What is asserted on: `null` or `undefined` (as when a request failed
      and left no response), or a request- or response-shaped object.
      `statusCode` is `None` when the object has no such property at all;
      `headers` is `None` when the property is missing or falsy;
      `getHeader` is the object's header accessor, if it has one. */
  datatype Subject =
    | Nullish
    | Object(
        statusCode: Option<JsVal>,
        headers: Option<map<string, JsVal>>,
        getHeader: Option<string -> JsVal>)

  /** Reading a property of `null` or `undefined` throws this. */
  const PropertyOfNullish := "TypeError: cannot read properties of null or undefined"

  /** What evaluating one assertion does. A failure carries the message
      template before chai expands `#{this}`, `#{exp}` and `#{act}`, and the
      expected and actual values passed to chai (`None` when not passed). */
  datatype Outcome =
    | Pass
    | Fail(message: string, expected: Option<JsVal>, actual: Option<JsVal>)
    | Threw(error: string)

  /** chai's `this.assert(cond, msg, negatedMsg, exp, act)` under the
      negation flag: it passes when `cond` differs from `negate`, and a
      failure reports the message matching the flag. */
  function Assert(negate: bool, cond: bool, msg: string, negatedMsg: string,
                  expected: Option<JsVal>, actual: Option<JsVal>): Outcome
  {
    if cond != negate then Pass
    else Fail(if negate then negatedMsg else msg, expected, actual)
  }

  /** `getHeader(obj, key)`: the accessor wins whenever it exists; otherwise
      the headers map is read by the exact key; with neither, `undefined`. */
  function GetHeader(obj: Subject, key: string): JsVal
    requires obj.Object?
  {
    if obj.getHeader.Some? then obj.getHeader.value(key)
    else if obj.headers.Some? then
      (if key in obj.headers.value then obj.headers.value[key] else Undefined)
    else Undefined
  }

  /** The object answers header queries at all (`obj.headers || obj.getHeader`). */
  predicate HasHeaderSource(obj: Subject)
    requires obj.Object?
  {
    obj.headers.Some? || obj.getHeader.Some?
  }

  lemma AccessorTakesPrecedence(obj: Subject, other: Option<map<string, JsVal>>, key: string)
    requires obj.Object? && obj.getHeader.Some?
    ensures GetHeader(obj.(headers := other), key) == GetHeader(obj, key) == obj.getHeader.value(key)
  {
  }

  /** Without an accessor, a header is found only under exactly its key. */
  lemma HeaderMapExactKey(obj: Subject, key: string)
    requires obj.Object? && obj.getHeader.None?
    ensures GetHeader(obj, key) != Undefined ==> obj.headers.Some? && key in obj.headers.value
    ensures obj.headers.Some? && key in obj.headers.value ==> GetHeader(obj, key) == obj.headers.value[key]
  {
  }

  /** No case folding: a header stored as "Content-Type" is not found as "content-type". */
  lemma HeaderLookupIsCaseSensitive(v: JsVal)
    ensures GetHeader(Object(None, Some(map["Content-Type" := v]), None), "content-type") == Undefined
  {
  }

  lemma NoHeaderSourceIsUndefined(obj: Subject, key: string)
    requires obj.Object? && !HasHeaderSource(obj)
    ensures GetHeader(obj, key) == Undefined
  {
  }

  // ---------------------------------------------------------------- status

  const StatusPropertyMessage := "expected #{this} to have a property 'statusCode'"
  const StatusMessage := "expected #{this} to have status code #{exp} but got #{act}"
  const StatusNegatedMessage := "expected #{this} to not have status code #{act}"

  /** The subject is an object with a `statusCode` property. */
  predicate HasStatusCode(obj: Subject) {
    obj.Object? && obj.statusCode.Some?
  }

  /** `.status(code)`: first a fresh, non-negated check that the subject has
      a `statusCode` property (which reads `statusCode` and so throws on `null`
      and `undefined`), then `statusCode == code` under the flag. */
  function Status(obj: Subject, code: JsVal, negate: bool): (r: Outcome)
    ensures obj.Nullish? ==> r == Threw(PropertyOfNullish)
    ensures obj.Object? && obj.statusCode.None? ==> r == Fail(StatusPropertyMessage, None, None)
    ensures HasStatusCode(obj) ==> (r.Pass? <==> LooseEq(obj.statusCode.value, code) != negate)
    ensures HasStatusCode(obj) && !r.Pass? ==>
      r == Fail(if negate then StatusNegatedMessage else StatusMessage, Some(code), Some(obj.statusCode.value))
  {
    if obj.Nullish? then Threw(PropertyOfNullish)
    else if obj.statusCode.None? then Fail(StatusPropertyMessage, None, None)
    else
      var statusCode := obj.statusCode.value;
      Assert(negate, LooseEq(statusCode, code), StatusMessage, StatusNegatedMessage, Some(code), Some(statusCode))
  }

  /** With a status code present, `.not.status(c)` passes exactly when `.status(c)` fails. */
  lemma StatusNegationInverts(obj: Subject, code: JsVal)
    requires HasStatusCode(obj)
    ensures Status(obj, code, true).Pass? <==> !Status(obj, code, false).Pass?
  {
  }

  /** Without a `statusCode` property both `.status(c)` and `.not.status(c)`
      stop at the property check with the same outcome: a failure on an
      object, a `TypeError` on `null` or `undefined`. */
  lemma StatusMissingFailsEitherWay(obj: Subject, code: JsVal)
    requires !HasStatusCode(obj)
    ensures Status(obj, code, false) == Status(obj, code, true)
    ensures Status(obj, code, false)
         == if obj.Nullish? then Threw(PropertyOfNullish) else Fail(StatusPropertyMessage, None, None)
  {
  }

  /** `{statusCode: 200}` passes `.status(200)`; under `.not` it fails with the negated message. */
  lemma StatusOf200()
    ensures Status(Object(Some(Num(200)), None, None), Num(200), false) == Pass
    ensures Status(Object(Some(Num(200)), None, None), Num(200), true)
         == Fail(StatusNegatedMessage, Some(Num(200)), Some(Num(200)))
  {
  }

  // ---------------------------------------------------------------- header

  function HeaderValueMessage(key: string, value: JsVal, shown: string): string {
    "expected header '" + key + "' to have value " + ToStr(value) + " but got " + shown
  }

  function HeaderValueNegatedMessage(key: string, value: JsVal): string {
    "expected header '" + key + "' to not have value " + ToStr(value)
  }

  function HeaderExistsMessage(key: string): string {
    "expected header '" + key + "' to exist"
  }

  function HeaderExistsNegatedMessage(key: string): string {
    "expected header '" + key + "' to not exist"
  }

  /** `.header(key)` (`value` is `None`) or `.header(key, value)`.
      `inspect` is chai's value inspector, used in the positive message.
      On `null` or `undefined` the header lookup itself throws. */
  function Header(obj: Subject, key: string, value: Option<JsVal>, negate: bool,
                  inspect: JsVal -> string): (r: Outcome)
    ensures r.Threw? <==> obj.Nullish?
    ensures obj.Object? && value.None? ==> (r.Pass? <==> (GetHeader(obj, key) != Undefined) != negate)
    ensures obj.Object? && value.None? && r.Fail? ==>
      r.message == (if negate then HeaderExistsNegatedMessage(key) else HeaderExistsMessage(key))
    ensures obj.Object? && value.Some? ==> (r.Pass? <==> LooseEq(GetHeader(obj, key), value.value) != negate)
    ensures obj.Object? && value.Some? && r.Fail? ==>
      && r.expected == value && r.actual == Some(GetHeader(obj, key))
      && r.message == (if negate then HeaderValueNegatedMessage(key, value.value)
                       else HeaderValueMessage(key, value.value, inspect(GetHeader(obj, key))))
  {
    if obj.Nullish? then Threw(PropertyOfNullish)
    else
      var header := GetHeader(obj, key);
      match value
      case Some(v) =>
        Assert(negate, LooseEq(header, v),
               HeaderValueMessage(key, v, inspect(header)), HeaderValueNegatedMessage(key, v),
               Some(v), Some(header))
      case None =>
        Assert(negate, header != Undefined || header == Null,
               HeaderExistsMessage(key), HeaderExistsNegatedMessage(key), None, None)
  }

  /** A header whose value is `null` counts as present. */
  lemma NullHeaderExists(obj: Subject, key: string, inspect: JsVal -> string)
    requires obj.Object? && GetHeader(obj, key) == Null
    ensures Header(obj, key, None, false, inspect) == Pass
    ensures Header(obj, key, None, true, inspect) == Fail(HeaderExistsNegatedMessage(key), None, None)
  {
  }

  /** On an object, `.not.header(...)` passes exactly when `.header(...)` fails, in both forms. */
  lemma HeaderNegationInverts(obj: Subject, key: string, value: Option<JsVal>, inspect: JsVal -> string)
    requires obj.Object?
    ensures Header(obj, key, value, true, inspect).Pass? <==> !Header(obj, key, value, false, inspect).Pass?
  {
  }

  // ---------------------------------------------------------------- headers

  const HeadersMessage := "expected #{this} to have headers or getHeader method"
  const HeadersNegatedMessage := "expected #{this} to not have headers or getHeader method"

  /** The `.headers` property; reading `headers` of `null` or `undefined` throws. */
  function Headers(obj: Subject, negate: bool): (r: Outcome)
    ensures r.Threw? <==> obj.Nullish?
    ensures obj.Object? ==> (r.Pass? <==> HasHeaderSource(obj) != negate)
    ensures obj.Object? && !r.Pass? ==> r == Fail(if negate then HeadersNegatedMessage else HeadersMessage, None, None)
  {
    if obj.Nullish? then Threw(PropertyOfNullish)
    else Assert(negate, obj.headers.Some? || obj.getHeader.Some?, HeadersMessage, HeadersNegatedMessage, None, None)
  }

  /** On an object, `.not.headers` passes exactly when `.headers` fails. */
  lemma HeadersNegationInverts(obj: Subject)
    requires obj.Object?
    ensures Headers(obj, true).Pass? <==> !Headers(obj, false).Pass?
  {
  }

  // ---------------------------------------------------------------- ip

  /** The `.ip` property. `isIP` is `net.isIP`, which answers 0 for "not an
      address" and the address family otherwise; it is not part of this model. */
  function Ip(subject: JsVal, negate: bool, isIP: JsVal -> int): (r: Outcome)
    ensures r.Pass? <==> (isIP(subject) != 0) != negate
    ensures !r.Pass? ==>
      r == Fail(if negate then "expected #{this} to not be an ip" else "expected #{this} to be an ip", None, None)
  {
    Assert(negate, isIP(subject) != 0, "expected #{this} to be an ip", "expected #{this} to not be an ip", None, None)
  }

  // ---------------------------------------------------------------- json / text / html

  datatype ContentKind = Json | Text | Html

  /** The fixed table of content types the three properties look for. */
  function MimeOf(kind: ContentKind): string {
    match kind
    case Json => "application/json"
    case Text => "text/plain"
    case Html => "text/html"
  }

  const ContentTypeKey := "content-type"

  /** What the content-type messages show: the inspected header value, or
      the word "headers" when the value inspects as "undefined". */
  function Shown(ct: JsVal, inspect: JsVal -> string): string {
    if inspect(ct) == "undefined" then "headers" else inspect(ct)
  }

  /** The header value is one `ct.indexOf` cannot be called on: truthy but not a string. */
  predicate NoIndexOf(ct: JsVal) {
    Truthy(ct) && !ct.Str?
  }

  /** The content type names `kind`: a non-empty string containing its MIME type. */
  ghost predicate HasMime(ct: JsVal, kind: ContentKind) {
    ct.Str? && ct.s != "" && Contains(ct.s, MimeOf(kind))
  }

  /** The `.json`, `.text` and `.html` properties: a fresh, non-negated
      `.headers` check, then `ct && ~ct.indexOf(mime)` under the flag.
      On `null` or `undefined` the `.headers` check itself throws. */
  function ContentType(obj: Subject, kind: ContentKind, negate: bool, inspect: JsVal -> string): (r: Outcome)
    ensures obj.Nullish? ==> r == Threw(PropertyOfNullish)
    ensures obj.Object? && !HasHeaderSource(obj) ==> r == Fail(HeadersMessage, None, None)
    ensures obj.Object? && HasHeaderSource(obj) ==> (r.Threw? <==> NoIndexOf(GetHeader(obj, ContentTypeKey)))
    ensures obj.Object? && HasHeaderSource(obj) && !r.Threw? ==>
      (r.Pass? <==> HasMime(GetHeader(obj, ContentTypeKey), kind) != negate)
    ensures obj.Object? && HasHeaderSource(obj) && r.Fail? ==>
      r == Fail("expected " + Shown(GetHeader(obj, ContentTypeKey), inspect)
                + (if negate then " to not include '" else " to include '") + MimeOf(kind) + "'", None, None)
  {
    if obj.Nullish? then Threw(PropertyOfNullish)
    else if !(obj.headers.Some? || obj.getHeader.Some?) then Fail(HeadersMessage, None, None)
    else
      var val := MimeOf(kind);
      var ct := GetHeader(obj, ContentTypeKey);
      var ins := Shown(ct, inspect);
      if !Truthy(ct) then
        Assert(negate, false, "expected " + ins + " to include '" + val + "'",
               "expected " + ins + " to not include '" + val + "'", None, None)
      else if ct.Str? then
        Assert(negate, IndexOf(ct.s, val) != -1, "expected " + ins + " to include '" + val + "'",
               "expected " + ins + " to not include '" + val + "'", None, None)
      else
        Threw("TypeError: ct.indexOf is not a function")
  }

  /** Whenever the object has headers and the check does not throw, the
      negated property passes exactly when the plain one fails. */
  lemma ContentTypeNegationInverts(obj: Subject, kind: ContentKind, inspect: JsVal -> string)
    requires obj.Object? && HasHeaderSource(obj) && !NoIndexOf(GetHeader(obj, ContentTypeKey))
    ensures ContentType(obj, kind, true, inspect).Pass? <==> !ContentType(obj, kind, false, inspect).Pass?
  {
  }

  /** An object with neither headers nor an accessor fails `.json` and `.not.json` alike. */
  lemma ContentTypeWithoutHeadersFailsEitherWay(obj: Subject, kind: ContentKind, inspect: JsVal -> string)
    requires obj.Object? && !HasHeaderSource(obj)
    ensures ContentType(obj, kind, false, inspect) == ContentType(obj, kind, true, inspect)
    ensures ContentType(obj, kind, false, inspect).Fail?
  {
  }

  /** A response with no content type fails `.json` with a message naming "headers". */
  lemma MissingContentTypeNamesHeaders(obj: Subject, kind: ContentKind, inspect: JsVal -> string)
    requires obj.Object? && HasHeaderSource(obj) && GetHeader(obj, ContentTypeKey) == Undefined
    requires inspect(Undefined) == "undefined"
    ensures ContentType(obj, kind, false, inspect)
         == Fail("expected headers to include '" + MimeOf(kind) + "'", None, None)
  {
    var ct := GetHeader(obj, ContentTypeKey);
    assert Shown(ct, inspect) == "headers";
    assert "expected " + "headers" + " to include '" == "expected headers to include '";
  }

  /** On `null` or `undefined` (say, the response of a request that failed),
      `.status`, `.header`, `.headers` and the content-type properties all
      throw, negated or not. */
  lemma NullishSubjectThrows(key: string, value: Option<JsVal>, kind: ContentKind, code: JsVal,
                             negate: bool, inspect: JsVal -> string)
    ensures Header(Nullish, key, value, negate, inspect).Threw?
    ensures Headers(Nullish, negate).Threw?
    ensures ContentType(Nullish, kind, negate, inspect).Threw?
    ensures Status(Nullish, code, negate) == Threw(PropertyOfNullish)
  {
  }

  /** An HTML page (content type "text/html; charset=utf-8") is `.html`, and neither `.text` nor `.json`. */
  lemma HtmlPageIsOnlyHtml(inspect: JsVal -> string)
    ensures var page := Object(Some(Num(200)), Some(map[ContentTypeKey := Str("text/html; charset=utf-8")]), None);
      && ContentType(page, Html, false, inspect) == Pass
      && ContentType(page, Text, true, inspect) == Pass
      && ContentType(page, Json, true, inspect) == Pass
  {
    var s := "text/html; charset=utf-8";
    assert OccursAt(s, "text/html", 0);
    MissingCharNotContained(s, "text/plain", 5);        // no 'p' in the page's content type
    MissingCharNotContained(s, "application/json", 12); // no 'j' either
  }
}
