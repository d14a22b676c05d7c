/**
 The record the relay keeps and fans out for an identification, and the
 fixed texts the handlers build it from.
 */
module Records {

  /** One captured request. `headers` is the already rendered header text and
      is treated as opaque; `body` is the text the handler stored, prefix included. */
  datatype RequestInfo = RequestInfo(httpMethod: string, headers: string, body: string)

  /** What the latest-value lookup answers: the stored record, or the 404 text. */
  datatype Latest = Found(info: RequestInfo) | NotFound(message: string)

  const CaptureBodyPrefix: string := "Body: "
  const SubscribeBodyPrefix: string := "Identification: "
  const NotFoundPrefix: string := "No data available for identification: "

  /** The record a capture stores, publishes and echoes. */
  function CaptureRecord(httpMethod: string, headers: string, body: string): (r: RequestInfo)
    ensures r.httpMethod == httpMethod && r.headers == headers
    ensures |r.body| == |CaptureBodyPrefix| + |body|
    ensures r.body[..|CaptureBodyPrefix|] == CaptureBodyPrefix && r.body[|CaptureBodyPrefix|..] == body
  {
    RequestInfo(httpMethod, headers, CaptureBodyPrefix + body)
  }

  /** The record a subscribe stores as the latest value for its identification. */
  function SubscribeRecord(id: string, httpMethod: string, headers: string): (r: RequestInfo)
    ensures r.httpMethod == httpMethod && r.headers == headers
    ensures |r.body| == |SubscribeBodyPrefix| + |id|
    ensures r.body[..|SubscribeBodyPrefix|] == SubscribeBodyPrefix && r.body[|SubscribeBodyPrefix|..] == id
  {
    RequestInfo(httpMethod, headers, SubscribeBodyPrefix + id)
  }

  /** The 404 text of the latest-value lookup: the fixed prefix, then the identification. */
  function NotFoundMessage(id: string): (m: string)
    ensures |m| == |NotFoundPrefix| + |id|
    ensures m[..|NotFoundPrefix|] == NotFoundPrefix && m[|NotFoundPrefix|..] == id
  {
    NotFoundPrefix + id
  }

  /** The captured body text, recovered from a stored capture record. */
  function CapturedBody(info: RequestInfo): (body: string)
    requires |CaptureBodyPrefix| <= |info.body| && info.body[..|CaptureBodyPrefix|] == CaptureBodyPrefix
    ensures CaptureBodyPrefix + body == info.body
  {
    info.body[|CaptureBodyPrefix|..]
  }

  /** A stored capture record determines the body that was sent. */
  lemma CaptureBodyRoundTrip(httpMethod: string, headers: string, body: string)
    ensures var info := CaptureRecord(httpMethod, headers, body);
            |CaptureBodyPrefix| <= |info.body| && info.body[..|CaptureBodyPrefix|] == CaptureBodyPrefix
            && CapturedBody(info) == body
  {
  }

  /** The record a subscribe leaves behind can never be mistaken for a capture:
      the two bodies differ in their first character. */
  lemma SubscribeRecordIsNoCapture(id: string, m1: string, h1: string, m2: string, h2: string, body: string)
    ensures SubscribeRecord(id, m1, h1) != CaptureRecord(m2, h2, body)
  {
    assert SubscribeRecord(id, m1, h1).body[0] == 'I';
    assert CaptureRecord(m2, h2, body).body[0] == 'B';
  }
}
