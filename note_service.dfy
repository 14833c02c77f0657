/**
 * The notes API client: a module-wide bearer token and the HTTP request each
 * operation builds. The transport is abstracted away; a request is a record of
 * its verb, URL, Authorization header and body.
 */
module NoteService {
  import opened Options
  import opened NoteList

  const BaseUrl := "/api/notes"
  const BearerPrefix := "bearer "

  datatype Verb = Get | Post | Put

  /** Whether the request carries an Authorization header, and its value (which may be null). */
  datatype Authorization = NotSent | Sent(value: Option<string>)

  datatype Body = NoBody | DraftBody(draft: NoteDraft) | NoteBody(note: Note)

  datatype Request = Request(verb: Verb, url: string, authorization: Authorization, body: Body)

  /** The header value stored for a raw token: the prefix, then the token unchanged. */
  function Bearer(t: string): (h: string)
    ensures |h| == |BearerPrefix| + |t|
    ensures h[..|BearerPrefix|] == BearerPrefix && h[|BearerPrefix|..] == t
  {
    BearerPrefix + t
  }

  /** The raw token inside a header value, if the value has the bearer form. */
  function RawToken(h: string): Option<string>
  {
    if |BearerPrefix| <= |h| && h[..|BearerPrefix|] == BearerPrefix then Some(h[|BearerPrefix|..]) else None
  }

  /** The stored header value determines the raw token it was built from. */
  lemma RawTokenOfBearer(t: string)
    ensures RawToken(Bearer(t)) == Some(t)
  {
  }

  /** The id a request URL addresses: `Some(id)` for `/api/notes/<id>`, `None` for the collection. */
  function UrlId(url: string): Option<NoteId>
  {
    if |BaseUrl| < |url| && url[..|BaseUrl| + 1] == BaseUrl + "/" then Some(url[|BaseUrl| + 1..]) else None
  }

  /** The token after `setToken` has been called with each of `calls` in turn, starting from `token`. */
  function TokenAfter(token: Option<string>, calls: seq<string>): Option<string>
    decreases |calls|
  {
    if calls == [] then token else TokenAfter(Some(Bearer(calls[0])), calls[1..])
  }

  /** Only the most recent `setToken` call determines the token. */
  lemma {:induction false} LastWriteWins(token: Option<string>, calls: seq<string>)
    ensures TokenAfter(token, calls) == if calls == [] then token else Some(Bearer(calls[|calls| - 1]))
    decreases |calls|
  {
    if calls != [] {
      LastWriteWins(Some(Bearer(calls[0])), calls[1..]);
      if |calls| > 1 {
        assert calls[1..][|calls[1..]| - 1] == calls[|calls| - 1];
      }
    }
  }

  /** The module's state: the token every later `create` sends. */
  class Service {
    var token: Option<string>

    /** Module load: no token yet. */
    constructor ()
      ensures token == None
    {
      token := None;
    }

    method SetToken(newToken: string)
      modifies this
      ensures token == Some(Bearer(newToken))
      ensures token == TokenAfter(old(token), [newToken])
    {
      token := Some(Bearer(newToken));
    }

    /** `getAll`: an unauthenticated GET of the collection. */
    function GetAll(): (r: Request)
      ensures r.verb == Get && r.url == BaseUrl && UrlId(r.url) == None
      ensures r.authorization == NotSent && r.body == NoBody
    {
      Request(Get, BaseUrl, NotSent, NoBody)
    }

    /** `create`: a POST of the draft to the collection whose Authorization header is the current token. */
    function Create(newObject: NoteDraft): (r: Request)
      reads this
      ensures r.verb == Post && r.url == BaseUrl && UrlId(r.url) == None
      ensures r.authorization == Sent(token)
      ensures r.body == DraftBody(newObject)
    {
      Request(Post, BaseUrl, Sent(token), DraftBody(newObject))
    }

    /** `update`: an unauthenticated PUT of the whole note to the URL that names `id`. */
    function Update(id: NoteId, newObject: Note): (r: Request)
      ensures r.verb == Put && r.url == BaseUrl + "/" + id && UrlId(r.url) == Some(id)
      ensures r.authorization == NotSent
      ensures r.body == NoteBody(newObject)
    {
      var url := BaseUrl + "/" + id;
      assert url[..|BaseUrl| + 1] == BaseUrl + "/" && url[|BaseUrl| + 1..] == id;
      Request(Put, url, NotSent, NoteBody(newObject))
    }
  }
}
