/** The request handler end to end: route, assemble and decode the body when
    the route needs it, validate, render and send. */
module Server {
  import opened Router
  import opened Pages
  import opened Body
  import opened Responder

  /** The outcome of parsing the request URL: its pathname, or the exception
      the URL parser threw. */
  datatype UrlParse = Path(pathname: string) | UrlError

  /** The answer to one request, given the assembled body text and the
      URL-encoded form decoder; any exception of the URL parser ends in the
      outer error page. */
  function Handle(verb: string, url: UrlParse, body: string, parseQuery: string -> ParsedBody): (r: Response)
    ensures url.UrlError? ==> r == ServerError
    ensures r.status == 500 <==>
      || url.UrlError?
      || (url.Path? && verb == "POST" && url.pathname == "/submit" && parseQuery(body).ParseError?)
    ensures r.status == 405 <==> url.Path? && verb != "GET" && verb != "POST"
    ensures r.status == 404 <==>
      && url.Path?
      && (|| (verb == "GET" && url.pathname != "/" && url.pathname != "/about" && url.pathname != "/contact")
          || (verb == "POST" && url.pathname != "/submit"))
    ensures r.status == 400 <==>
      && url.Path? && verb == "POST" && url.pathname == "/submit" && parseQuery(body).Form?
      && !(Truthy(parseQuery(body).fields, "name") && Truthy(parseQuery(body).fields, "email"))
    ensures r.status in {200, 400, 404, 405, 500}
    ensures r.status == 200 && verb == "POST" ==>
      && parseQuery(body).Form?
      && r.paragraph == Confirmation(parseQuery(body).fields["name"], parseQuery(body).fields["email"])
  {
    match url
    case UrlError => ServerError
    case Path(pathname) => Dispatch(verb, pathname, parseQuery(body))
  }

  /** The page of a response, as the renderer lays it out. */
  function PageOf(r: Response): string
  {
    RenderPage(r.title, r.heading, r.paragraph)
  }

  /** What goes on the wire for a response. */
  function Emit(r: Response, encode: string -> seq<byte>): (m: HttpMessage)
    ensures m.status == r.status
    ensures m.body == encode(PageOf(r)) && m.contentLength == |m.body|
  {
    SendResponse(r.status, PageOf(r), encode)
  }

  /** The `createServer` callback: answer at once, or collect all chunks in
      arrival order and answer when the body is complete. */
  method HandleRequest(verb: string, url: UrlParse, chunks: seq<string>,
                       parseQuery: string -> ParsedBody, encode: string -> seq<byte>)
    returns (msg: HttpMessage)
    ensures msg == Emit(Handle(verb, url, Concat(chunks), parseQuery), encode)
    ensures msg.contentLength == |msg.body|
  {
    match url
    case UrlError =>
      msg := Emit(ServerError, encode);
    case Path(pathname) =>
      match Route(verb, pathname)
      case Respond(response) =>
        msg := Emit(response, encode);
      case ReadBody =>
        var body := AccumulateBody(chunks);
        assert Handle(verb, url, body, parseQuery) == Submit(parseQuery(body));
        msg := Emit(Submit(parseQuery(body)), encode);
  }

  /** Only `POST /submit` reads the body; every other request is answered
      the same whatever was sent. */
  lemma BodyReadOnlyBySubmit(verb: string, url: UrlParse, b1: string, b2: string, parseQuery: string -> ParsedBody)
    requires !(url.Path? && verb == "POST" && url.pathname == "/submit")
    ensures Handle(verb, url, b1, parseQuery) == Handle(verb, url, b2, parseQuery)
  {
    if url.Path? {
      FormOnlyReadBySubmit(verb, url.pathname, parseQuery(b1), parseQuery(b2));
    }
  }

  /** Where the transport splits the body makes no difference: a chunk
      delivered in two pieces gives the same answer as the whole chunk. */
  lemma ChunkSplitIrrelevant(verb: string, url: UrlParse, before: seq<string>, x: string, y: string,
                              after: seq<string>, parseQuery: string -> ParsedBody)
    ensures Handle(verb, url, Concat(before + [x + y] + after), parseQuery)
         == Handle(verb, url, Concat(before + [x, y] + after), parseQuery)
  {
    ConcatSplit(before, x, y, after);
  }

  /** An occurrence inside an occurrence is an occurrence. */
  lemma OccursWithin(s: string, t: string, u: string, i: int, j: int)
    requires OccursAt(s, t, i) && OccursAt(t, u, j)
    ensures OccursAt(s, u, i + j)
  {
    forall k | 0 <= k < |u|
      ensures s[i + j..i + j + |u|][k] == u[k]
    {
      assert s[i + j + k] == s[i..i + |t|][j + k] == t[j + k] == t[j..j + |u|][k];
    }
  }

  /** Both labelled lines of the confirmation paragraph occur in its page. */
  lemma ConfirmationShown(title: string, heading: string, name: string, email: string)
    ensures Contains(RenderPage(title, heading, Confirmation(name, email)), "Name: " + name)
    ensures Contains(RenderPage(title, heading, Confirmation(name, email)), "Email: " + email)
  {
    LabelledLinesIn(RenderPage(title, heading, Confirmation(name, email)), ParagraphAt(title, heading), name, email);
  }

  /** Wherever the confirmation paragraph occurs, both its lines occur. */
  lemma LabelledLinesIn(page: string, at: int, name: string, email: string)
    requires OccursAt(page, Confirmation(name, email), at)
    ensures Contains(page, "Name: " + name) && Contains(page, "Email: " + email)
  {
    var para := Confirmation(name, email);
    var first, second := "Name: " + name + "\n", "Email: " + email;
    assert para == first + second;
    OccursAtStart("Name: " + name, "\n");
    OccursInPrefix(first, second, "Name: " + name, 0);
    OccursWithin(page, para, "Name: " + name, at, 0);
    assert OccursAt(second, second, 0);
    OccursShifted(first, second, second, 0);
    OccursWithin(page, para, second, at, |first|);
  }

  /** A valid submission is answered with 200, and both submitted values
      appear verbatim in the page, each after its label. */
  lemma SubmittedValuesReflected(chunks: seq<string>, parseQuery: string -> ParsedBody, fields: map<string, string>)
    requires parseQuery(Concat(chunks)) == Form(fields)
    requires "name" in fields && fields["name"] != ""
    requires "email" in fields && fields["email"] != ""
    ensures var r := Handle("POST", Path("/submit"), Concat(chunks), parseQuery);
      && r.status == 200
      && Contains(PageOf(r), "Name: " + fields["name"])
      && Contains(PageOf(r), "Email: " + fields["email"])
  {
    SubmitAccepted(fields);
    ConfirmationShown("Form Submitted", "Form Submitted", fields["name"], fields["email"]);
  }

  /** The fields that `name=Alice&email=a@example.com` decodes to, whatever
      chunks carried them, are confirmed with 200 and a page showing both
      values. */
  lemma AliceRoundTrip(chunks: seq<string>, parseQuery: string -> ParsedBody)
    requires parseQuery(Concat(chunks)) == Form(map["name" := "Alice", "email" := "a@example.com"])
    ensures var r := Handle("POST", Path("/submit"), Concat(chunks), parseQuery);
      && r.status == 200
      && Contains(PageOf(r), "Name: Alice")
      && Contains(PageOf(r), "Email: a@example.com")
  {
    var fields := map["name" := "Alice", "email" := "a@example.com"];
    AliceLabels(fields);
    SubmittedValuesReflected(chunks, parseQuery, fields);
    var page := PageOf(Handle("POST", Path("/submit"), Concat(chunks), parseQuery));
    SameText(page, "Name: " + fields["name"], "Name: Alice");
    SameText(page, "Email: " + fields["email"], "Email: a@example.com");
  }

  /** The two labelled lines of the example submission. */
  lemma AliceLabels(fields: map<string, string>)
    requires fields == map["name" := "Alice", "email" := "a@example.com"]
    ensures "name" in fields && "email" in fields
    ensures "Name: " + fields["name"] == "Name: Alice"
    ensures "Email: " + fields["email"] == "Email: a@example.com"
  {
  }

  /** Occurrence of a text depends on the text only. */
  lemma SameText(s: string, t: string, u: string)
    requires Contains(s, t) && t == u
    ensures Contains(s, u)
  {
  }
}
