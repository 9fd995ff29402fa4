# A minimal HTTP server: routing, form validation and page rendering

The server answers three static `GET` pages (`/`, `/about`, `/contact`) and
one form endpoint (`POST /submit`). Every other `GET` or `POST` pathname is
answered 404, and every other method 405. For `POST /submit` the server
collects the body chunks, decodes them as a URL-encoded form, and then looks
at two fields, `name` and `email`. If either is missing or empty, it answers
400. Otherwise it answers 200 and echoes both values. Every answer is one
fixed HTML document, with title, heading and paragraph filled in verbatim,
sent with a `Content-Length` equal to the number of encoded bytes.

The model has five modules, one per part of the request handler in
`src/server.mjs`:

- `Pages` (pages.dfy): `RenderPage`, the HTML template. The template text is
  kept character for character, whitespace included. Its contract says where
  each value sits between its tags and where the fixed text around them sits,
  and `RenderPageContractComplete` shows that this determines the page. Other
  lemmas show that the values can be read back, that the page is injective once the title and heading lengths are
  fixed, and that without escaping two different argument triples can give
  the same page.
- `Body` (body.dfy): body assembly. `AccumulateBody` is the `body += chunk`
  loop. It is proved equal to `Concat`, a left fold over the chunks in
  arrival order. Lemmas show that every chunk sits unmodified at its arrival
  position and that joining respects any split of the arrivals.
- `Router` (router.dfy): the decision. `Route` compares the method and the
  pathname, `Submit` validates the decoded form, and `Dispatch` combines the
  two. The spelled-out decision table `RouteTable`, read first match wins by
  `FirstMatch`, is a second, independent definition of the same routing, and
  `RouteFollowsTable` proves that the two agree for every method and
  pathname.
- `Responder` (responder.dfy): `SendResponse`, reduced to what it determines:
  the status, the three headers, and a `Content-Length` equal to the length of
  the encoded body.
- `Server` (server.dfy): the `createServer` callback, end to end.

The request method is called `verb` in the model, because `method` is a
Dafny keyword. The library calls have no source in the repository, so they
are parameters:

- the URL parser is the `UrlParse` input, either a pathname or `UrlError`;
- the URL-encoded form decoder is `parseQuery: string -> ParsedBody`;
- the conversion of the page to UTF-8 bytes is `encode: string -> seq<byte>`.

## Model

| member | source | states |
|---|---|---|
| `Pages.RenderPage` | src/server.mjs:20-31 | the page starts with the fixed prologue; title, heading and paragraph appear unmodified between `<title>`/`</title>`, `<h1>`/`</h1>` and `<p>`/`</p>` at fixed positions determined by the lengths of the earlier values; the fixed text `</head>…<body>` follows `</title>`, the fixed indentation follows `</h1>`, and the page ends with `</body>…</html>`; the page is exactly the template's length longer than the three values together |
| `Pages.RenderPageContractComplete` | src/server.mjs:20-31 | the contract of `RenderPage` fixes the whole document: any text laid out as it promises is the rendered page, so every page shares one structure and differs only in the three values |
| `Pages.RenderPageFieldsReadBack` | src/server.mjs:25-29 | each of the three values can be read back from the page at its position |
| `Pages.RenderPageInjectiveGivenLengths` | src/server.mjs:20-31 | with title and heading lengths fixed, two pages are equal if and only if their three arguments are equal (equal inputs give equal output, and the page determines the inputs) |
| `Pages.UnescapedValuesCollide` | src/server.mjs:25-28 | because nothing is escaped, heading `</title>…<h1>` after an empty title gives the same page as that same text as title before an empty heading, though the argument triples differ |
| `Pages.RenderPageContainsParagraph` | src/server.mjs:29 | the paragraph, and so any reflected form value, occurs in the page as a substring |
| `Body.Concat` | src/server.mjs:80-84 | no chunks give the empty body; the body has exactly as many characters as all chunks together |
| `Body.ConcatAppend` | src/server.mjs:82-84 | the body of the arrivals `a + b` is the body of `a` followed by the body of `b` |
| `Body.ConcatCons` | src/server.mjs:82-84 | the first chunk received is the start of the body |
| `Body.ConcatSplit` | src/server.mjs:82-84 | a chunk delivered in two pieces adds exactly the text of the whole chunk |
| `Body.ChunkAt` | src/server.mjs:80-84 | every chunk appears unmodified in the body, starting after all the chunks that arrived before it |
| `Body.AccumulateBody` | src/server.mjs:80-84 | the `body += chunk` loop, starting from `''`, yields exactly the arrival-order concatenation of the chunks |
| `Router.Route` | src/server.mjs:39-124 | the body is needed exactly for `POST /submit`; an immediate answer is 200, 404 or 405; it is 405 exactly when the method is neither `GET` nor `POST`; 200 only for `GET` |
| `Router.Submit` | src/server.mjs:86-115 | 500 exactly when decoding failed; 200 exactly when both `name` and `email` are present and non-empty, and then the paragraph is the two labelled values; otherwise 400 |
| `Router.Dispatch` | src/server.mjs:39-124 | the status of every request: 405 exactly for other methods, 404 exactly for unknown `GET` and `POST` pathnames, 400 exactly for an invalid decoded form on `POST /submit`, 500 exactly for a failed decoding there, 200 otherwise |
| `Router.GetStaticPages` | src/server.mjs:39-62 | `GET /`, `/about`, `/contact` give 200 with ('Home','Home','Welcome to the Home Page'), ('About','About','Learn more about us'), ('Contact','Contact','Get in touch') |
| `Router.GetUnknownPath` | src/server.mjs:64-68 | `GET` on any other pathname gives 404 ('404','Page Not Found','Page Not Found') |
| `Router.PostUnknownPath` | src/server.mjs:71-78 | `POST` on any pathname other than `/submit` gives the same 404, whatever the form |
| `Router.OtherMethod` | src/server.mjs:120-124 | any method other than `GET` and `POST`, on any pathname, gives 405 ('405','Method Not Allowed','Method Not Allowed') |
| `Router.SubmitMissingField` | src/server.mjs:91-97 | `POST /submit` with `name` or `email` absent or empty gives 400 ('400','Invalid form data','Invalid form data') |
| `Router.SubmitAccepted` | src/server.mjs:99-107 | `POST /submit` with both fields non-empty gives 200 ('Form Submitted','Form Submitted', `"Name: " + name + "\nEmail: " + email`) |
| `Router.SubmitParseFailure` | src/server.mjs:108-114 | a decoder exception on `POST /submit` gives 500 ('Error 500','Server Error','Server Error') |
| `Router.FormOnlyReadBySubmit` | src/server.mjs:39-86 | for every route other than `POST /submit` the answer does not depend on the form |
| `Router.FirstMatch` | src/server.mjs:39-124 | no decision exactly when no rule fires; otherwise the decision of a rule that fires with no earlier rule firing |
| `Router.RouteFollowsTable` | src/server.mjs:39-124 | for every method and pathname, the first matching row of the seven-row decision table decides exactly as the handler's chain of comparisons |
| `Responder.SendResponse` | src/server.mjs:8-18 | the status is the one given; the body is the encoding of the page; `Content-Length` equals the byte length of that body; `Content-Type` is `text/html; charset=utf-8` and `X-Content-Type-Options` is `nosniff` |
| `Server.Handle` | src/server.mjs:34-132 | the status of every request: 500 exactly when the URL parser threw or the body of `POST /submit` could not be decoded, and the 500 page for a URL parser exception; 405 exactly for a parsed URL with another method; 404 exactly for unknown `GET` and `POST` pathnames; 400 exactly for a decoded `POST /submit` form missing `name` or `email`; a `POST` answered 200 carries the confirmation of the decoded fields |
| `Server.Emit` | src/server.mjs:41-45 | the message carries the response's status and the encoded rendered page, with a matching `Content-Length` |
| `Server.HandleRequest` | src/server.mjs:34-133 | the callback sends exactly the rendered answer to the request whose body is the arrival-order concatenation of its chunks, with `Content-Length` equal to the body's byte length |
| `Server.BodyReadOnlyBySubmit` | src/server.mjs:71-86 | every request other than `POST /submit` gets the same answer whatever body was sent |
| `Server.ChunkSplitIrrelevant` | src/server.mjs:80-88 | delivering a chunk in two pieces gives the same answer as delivering it whole |
| `Server.ConfirmationShown` | src/server.mjs:102-106 | the page rendered around the confirmation paragraph contains `Name: <name>` and `Email: <email>` verbatim |
| `Server.SubmittedValuesReflected` | src/server.mjs:99-107 | a valid submission gets 200 and a page containing `Name: <name>` and `Email: <email>` verbatim |
| `Server.AliceRoundTrip` | src/server.mjs:99-107 | the fields of `name=Alice&email=a@example.com` give 200 and a page containing `Name: Alice` and `Email: a@example.com`, whatever chunks carried them |

Each Dafny function is deterministic, so equal arguments always give equal
results. The model therefore states the first half of "renderPage is
deterministic" without a lemma of its own. `RenderPageInjectiveGivenLengths`
states both directions.

## Left out

- `url.parse`: its source is not part of this model. The pathname is an input, either `Path(pathname)` or `UrlError` for an exception, which leads to the outer 500 page. A request without a pathname behaves like any unmatched pathname, and it has no separate case.
- `querystring.parse`: its source is not part of this model, so it is the parameter `parseQuery`. Percent-decoding and `+` as space are not modelled. A field repeated in the body becomes an array in the source: always truthy and comma-joined when embedded. Fields here are single strings, so that case is not modelled.
- `Buffer.from(html, 'utf-8')`: the UTF-8 encoding is the parameter `encode`. Only the relation `Content-Length` = length of the encoded body is kept.
- `chunk.toString()`: each chunk is decoded on its own in the source, so a multi-byte character split across two chunks would not survive. Chunks are already text here, so that case is not modelled.
- `res.writeHead` and `res.end`: socket output. `HttpMessage` records what they would be given. An exception thrown while writing is not modelled. In the source it is caught by the inner `catch` (src/server.mjs:108-114) when it happens in the `end` handler of `POST /submit`, and by the outer `catch` (src/server.mjs:126-131) otherwise. An exception thrown by the 500 answer inside either `catch` is not caught at all.
- The `data` and `end` events: they are reduced to a complete, ordered sequence of chunks. A body that never finishes, and concurrency between requests, are not modelled.
- `PORT` taken from the environment, `server.listen` and `printMenu` with its coloured console output: configuration and I/O with no effect on the answers. The source falls back to 3000 only when `PORT` is unset or empty, not when it is invalid.
