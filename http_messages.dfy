/**
 * Values of the HTTP objects the filter adapter reads and builds: headers,
 * requests, responses and the objects that flow through a filter hook.
 * Header names are compared ignoring ASCII case, as HTTP header lookup does.
 */
module HttpMessages {
  import opened Wrappers

  datatype Header = Header(name: string, value: string)

  /** A response status: numeric code and reason phrase. */
  datatype HttpResponseStatus = HttpResponseStatus(code: nat, reasonPhrase: string)

  const BAD_GATEWAY := HttpResponseStatus(502, "Bad Gateway")
  const SERVICE_UNAVAILABLE := HttpResponseStatus(503, "Service Unavailable")
  const FORBIDDEN := HttpResponseStatus(403, "Forbidden")

  const HTTP_1_1 := "HTTP/1.1"

  /** The original request of a connection; only its headers matter here. */
  datatype HttpRequest = HttpRequest(uri: string, headers: seq<Header>)

  datatype HttpResponse = HttpResponse(version: string, status: HttpResponseStatus, headers: seq<Header>)

  /** What a response hook is handed: a response head, or any other part of a message (a content chunk). */
  datatype HttpObject = ResponseObject(response: HttpResponse) | ContentObject(content: seq<bv8>)

  function ToLowerAscii(c: char): char {
    if 'A' <= c <= 'Z' then (c as int + 32) as char else c
  }

  predicate EqualsIgnoreCase(a: string, b: string) {
    |a| == |b| && forall i :: 0 <= i < |a| ==> ToLowerAscii(a[i]) == ToLowerAscii(b[i])
  }

  /**
   * The value of the first header called `name` (ignoring case), or None when
   * no header has that name.
   */
  function GetAsString(headers: seq<Header>, name: string): (v: Option<string>)
    ensures v.None? <==> forall i :: 0 <= i < |headers| ==> !EqualsIgnoreCase(headers[i].name, name)
    ensures v.Some? ==> exists i :: 0 <= i < |headers| && EqualsIgnoreCase(headers[i].name, name)
                                    && headers[i].value == v.value
                                    && forall j :: 0 <= j < i ==> !EqualsIgnoreCase(headers[j].name, name)
  {
    if headers == [] then None
    else if EqualsIgnoreCase(headers[0].name, name) then Some(headers[0].value)
    else
      var rest := GetAsString(headers[1..], name);
      assert forall i :: 0 < i < |headers| ==> headers[i] == headers[1..][i - 1];
      rest
  }

  /** A header that is the only one with its name is found, with its value. */
  lemma GetAsStringUnique(headers: seq<Header>, name: string, k: nat)
    requires k < |headers| && headers[k].name == name
    requires forall j :: 0 <= j < |headers| && j != k ==> !EqualsIgnoreCase(headers[j].name, name)
    ensures GetAsString(headers, name) == Some(headers[k].value)
  {
  }

  /** A name that no header has is absent. */
  lemma GetAsStringAbsent(headers: seq<Header>, name: string)
    requires forall j :: 0 <= j < |headers| ==> !EqualsIgnoreCase(headers[j].name, name)
    ensures GetAsString(headers, name) == None
  {
  }
}
