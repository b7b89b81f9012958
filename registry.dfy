/** The registry's REST interface as the module sees it: the requests it
    issues, the responses it gets back, and the classification of a response
    into a body or a FailedRequestError (comanage.py, `_make_request`). */
module Registry {
  import opened PyJson

  /** A GET request: the path after the base URL and the query parameters in
      the order they are encoded, each value already passed through `str()`.
      The base URL, the credentials and the percent-encoding are fixed per
      module instance and add no information, so they are left out. */
  datatype Request = Request(path: string, query: seq<(string, string)>)

  /** What the HTTP client hands back: a response with its status, its text
      and, when the text is JSON, the decoded body; or a transport exception. */
  datatype Response =
    | Http(status: nat, text: string, body: Option<Value>)
    | Transport(message: string)

  /** The registry server reached through the configured URL and credentials. */
  type Oracle = Request -> Response

  const Ok200: nat := 200
  const NoContent204: nat := 204

  /** The body the wrapper returns for 204 No Content. */
  const NoContentBody: Value := Obj(map[])

  /** `_make_request`'s classification of a response. */
  function Classify(resp: Response): (r: Result<Value>)
    ensures r.Ok? <==> resp.Http? && (resp.status == NoContent204 || (resp.status == Ok200 && resp.body.Some?))
    ensures r.Ok? && resp.status == Ok200 ==> r.value == resp.body.value
    ensures r.Ok? && resp.status == NoContent204 ==> r.value == NoContentBody
    ensures r == Raise(JsonDecodeError) <==> resp.Http? && resp.status == Ok200 && resp.body.None?
    ensures r.Raise? && r.error != JsonDecodeError ==> r.error.FailedRequestError?
    ensures resp.Transport? ==> r == Raise(FailedRequestError(resp.message))
  {
    match resp
    case Transport(message) => Raise(FailedRequestError(message))
    case Http(status, text, body) =>
      if status == Ok200 then
        (if body.Some? then Ok(body.value) else Raise(JsonDecodeError))
      else if status == NoContent204 then Ok(NoContentBody)
      else Raise(FailedRequestError(Decimal(status) + ": " + text))
  }

  /** The outcome of sending `req` to the registry. */
  function Fetch(registry: Oracle, req: Request): Result<Value> {
    Classify(registry(req))
  }

  // The seven requests the module issues. Each value goes through `str()`:
  // `urlencode` and `str.format` both do that, so a missing person id is sent
  // as the text "None".

  function OrgIdentitiesRequest(coId: string, userId: string): Request {
    Request("/org_identities.json", [("coid", coId), ("search_identifier", userId)])
  }

  function LinksRequest(orgId: Value): Request {
    Request("/co_org_identity_links.json", [("orgidentityid", PyStr(orgId))])
  }

  function CoPersonRequest(personId: Value): Request {
    Request("/co_people/" + PyStr(personId) + ".json", [])
  }

  function NamesRequest(personId: Value): Request {
    Request("/names.json", [("copersonid", PyStr(personId))])
  }

  function EmailAddressesRequest(personId: Value): Request {
    Request("/email_addresses.json", [("copersonid", PyStr(personId))])
  }

  function IdentifiersRequest(personId: Value): Request {
    Request("/identifiers.json", [("copersonid", PyStr(personId))])
  }

  function CoGroupsRequest(personId: Value): Request {
    Request("/co_groups.json", [("copersonid", PyStr(personId))])
  }

  // Decimal rendering of a status code, as `"{status}".format(...)` writes it,
  // and its inverse.

  predicate IsDigit(c: char) {
    '0' <= c <= '9'
  }

  predicate AllDigits(s: string) {
    forall k :: 0 <= k < |s| ==> IsDigit(s[k])
  }

  function Decimal(n: nat): (s: string)
    ensures |s| > 0 && AllDigits(s)
    decreases n
  {
    if n < 10 then [(48 + n) as char] else Decimal(n / 10) + [(48 + n % 10) as char]
  }

  function ParseDecimal(s: string): nat
    requires AllDigits(s)
    decreases |s|
  {
    if s == [] then 0 else 10 * ParseDecimal(s[..|s| - 1]) + (s[|s| - 1] as int - 48)
  }

  /** The longest prefix of `s` made of digits. */
  function LeadingDigits(s: string): (d: string)
    ensures |d| <= |s| && d == s[..|d|] && AllDigits(d)
    decreases |s|
  {
    if s != [] && IsDigit(s[0]) then [s[0]] + LeadingDigits(s[1..]) else []
  }

  /** The status code a FailedRequestError message starts with. */
  function StatusOf(message: string): nat {
    ParseDecimal(LeadingDigits(message))
  }

  /** The response text a FailedRequestError message ends with. */
  function TextOf(message: string): string {
    var d := LeadingDigits(message);
    if |d| + 2 <= |message| then message[|d| + 2..] else ""
  }

  lemma {:induction false} ParseDecimalInvertsDecimal(n: nat)
    ensures ParseDecimal(Decimal(n)) == n
    decreases n
  {
    if n >= 10 {
      var s := Decimal(n);
      assert s[..|s| - 1] == Decimal(n / 10);
      ParseDecimalInvertsDecimal(n / 10);
    }
  }

  lemma {:induction false} LeadingDigitsStopAtNonDigit(d: string, rest: string)
    requires AllDigits(d)
    requires rest != [] && !IsDigit(rest[0])
    ensures LeadingDigits(d + rest) == d
    decreases |d|
  {
    if d != [] {
      assert (d + rest)[1..] == d[1..] + rest;
      LeadingDigitsStopAtNonDigit(d[1..], rest);
    }
  }

  /** A failed status is reported with both the status code and the response
      text, and each can be read back from the message. */
  lemma StatusFailureNamesStatusAndText(status: nat, text: string, body: Option<Value>)
    requires status != Ok200 && status != NoContent204
    ensures Classify(Http(status, text, body)).Raise?
    ensures var m := Classify(Http(status, text, body)).error.message;
      StatusOf(m) == status && TextOf(m) == text
  {
    var d := Decimal(status);
    var m := d + ": " + text;
    assert m == d + (": " + text);
    LeadingDigitsStopAtNonDigit(d, ": " + text);
    ParseDecimalInvertsDecimal(status);
    assert m[|d| + 2..] == text;
  }
}
