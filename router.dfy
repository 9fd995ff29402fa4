/** The request dispatcher: exact comparisons of the method and the pathname,
    and for `POST /submit` the presence check of the `name` and `email` form
    fields. */
module Router {

  datatype Option<T> = None | Some(value: T)

  /** What the server answers, before it is rendered: a status code and the
      three texts of the page. */
  datatype Response = Response(status: int, title: string, heading: string, paragraph: string)

  /** The outcome of decoding the URL-encoded body: its fields, or the
      exception the decoder threw. */
  datatype ParsedBody = Form(fields: map<string, string>) | ParseError

  /** Either the answer is known from method and pathname alone, or the body
      has to be read first. */
  datatype Decision = Respond(response: Response) | ReadBody

  const Home := Response(200, "Home", "Home", "Welcome to the Home Page")
  const About := Response(200, "About", "About", "Learn more about us")
  const Contact := Response(200, "Contact", "Contact", "Get in touch")
  const NotFound := Response(404, "404", "Page Not Found", "Page Not Found")
  const MethodNotAllowed := Response(405, "405", "Method Not Allowed", "Method Not Allowed")
  const InvalidForm := Response(400, "400", "Invalid form data", "Invalid form data")
  const ServerError := Response(500, "Error 500", "Server Error", "Server Error")

  /** A form field is usable when it is present and not the empty string:
      exactly the values JavaScript treats as true here. */
  predicate Truthy(fields: map<string, string>, key: string)
  {
    key in fields && fields[key] != ""
  }

  /** The paragraph of the confirmation page: both values on their own line,
      embedded verbatim. */
  function Confirmation(name: string, email: string): string
  {
    "Name: " + name + "\nEmail: " + email
  }

  /** The routing branches of the request handler, in the source's order. */
  function Route(verb: string, pathname: string): (d: Decision)
    ensures d.ReadBody? <==> verb == "POST" && pathname == "/submit"
    ensures d.Respond? ==> d.response.status in {200, 404, 405}
    ensures d.Respond? && d.response.status == 405 <==> verb != "GET" && verb != "POST"
    ensures d.Respond? && d.response.status == 200 ==> verb == "GET"
  {
    if verb == "GET" then
      if pathname == "/" then Respond(Home)
      else if pathname == "/about" then Respond(About)
      else if pathname == "/contact" then Respond(Contact)
      else Respond(NotFound)
    else if verb == "POST" then
      if pathname != "/submit" then Respond(NotFound)
      else ReadBody
    else Respond(MethodNotAllowed)
  }

  /** The `end` handler of `POST /submit`: validate the two fields of the
      decoded body. */
  function Submit(form: ParsedBody): (r: Response)
    ensures r.status == 500 <==> form.ParseError?
    ensures r.status == 200 <==> form.Form? && Truthy(form.fields, "name") && Truthy(form.fields, "email")
    ensures r.status in {200, 400, 500}
    ensures r.status == 200 ==> r.paragraph == Confirmation(form.fields["name"], form.fields["email"])
  {
    match form
    case ParseError => ServerError
    case Form(fields) =>
      if !Truthy(fields, "name") || !Truthy(fields, "email") then InvalidForm
      else Response(200, "Form Submitted", "Form Submitted", Confirmation(fields["name"], fields["email"]))
  }

  /** The whole decision for one request whose URL could be parsed; `form` is
      the decoded body, and is looked at only for `POST /submit`. */
  function Dispatch(verb: string, pathname: string, form: ParsedBody): (r: Response)
    ensures r.status == 405 <==> verb != "GET" && verb != "POST"
    ensures r.status == 404 <==>
      || (verb == "GET" && pathname != "/" && pathname != "/about" && pathname != "/contact")
      || (verb == "POST" && pathname != "/submit")
    ensures r.status == 400 <==>
      (verb == "POST" && pathname == "/submit" && form.Form?
       && !(Truthy(form.fields, "name") && Truthy(form.fields, "email")))
    ensures r.status == 500 <==> verb == "POST" && pathname == "/submit" && form.ParseError?
    ensures r.status == 200 || r.status == 400 || r.status == 404 || r.status == 405 || r.status == 500
  {
    match Route(verb, pathname)
    case Respond(response) => response
    case ReadBody => Submit(form)
  }

  lemma GetStaticPages(form: ParsedBody)
    ensures Dispatch("GET", "/", form) == Response(200, "Home", "Home", "Welcome to the Home Page")
    ensures Dispatch("GET", "/about", form) == Response(200, "About", "About", "Learn more about us")
    ensures Dispatch("GET", "/contact", form) == Response(200, "Contact", "Contact", "Get in touch")
  {
  }

  lemma GetUnknownPath(pathname: string, form: ParsedBody)
    requires pathname != "/" && pathname != "/about" && pathname != "/contact"
    ensures Dispatch("GET", pathname, form) == Response(404, "404", "Page Not Found", "Page Not Found")
  {
  }

  lemma PostUnknownPath(pathname: string, form: ParsedBody)
    requires pathname != "/submit"
    ensures Dispatch("POST", pathname, form) == Response(404, "404", "Page Not Found", "Page Not Found")
  {
  }

  lemma OtherMethod(verb: string, pathname: string, form: ParsedBody)
    requires verb != "GET" && verb != "POST"
    ensures Dispatch(verb, pathname, form) == Response(405, "405", "Method Not Allowed", "Method Not Allowed")
  {
  }

  lemma SubmitMissingField(fields: map<string, string>)
    requires "name" !in fields || fields["name"] == "" || "email" !in fields || fields["email"] == ""
    ensures Dispatch("POST", "/submit", Form(fields)) == Response(400, "400", "Invalid form data", "Invalid form data")
  {
  }

  lemma SubmitAccepted(fields: map<string, string>)
    requires "name" in fields && fields["name"] != ""
    requires "email" in fields && fields["email"] != ""
    ensures Dispatch("POST", "/submit", Form(fields))
      == Response(200, "Form Submitted", "Form Submitted", "Name: " + fields["name"] + "\nEmail: " + fields["email"])
  {
  }

  lemma SubmitParseFailure()
    ensures Dispatch("POST", "/submit", ParseError) == Response(500, "Error 500", "Server Error", "Server Error")
  {
  }

  /** Only `POST /submit` depends on the body. */
  lemma FormOnlyReadBySubmit(verb: string, pathname: string, f: ParsedBody, g: ParsedBody)
    requires !(verb == "POST" && pathname == "/submit")
    ensures Dispatch(verb, pathname, f) == Dispatch(verb, pathname, g)
  {
  }

  /** The dispatcher as an ordered decision table: the first row whose
      method and path patterns both match decides. */
  datatype Pattern = Exactly(text: string) | Anything

  predicate Matches(p: Pattern, s: string)
  {
    p.Anything? || p.text == s
  }

  datatype Rule = Rule(verb: Pattern, path: Pattern, decision: Decision)

  predicate Fires(rule: Rule, verb: string, pathname: string)
  {
    Matches(rule.verb, verb) && Matches(rule.path, pathname)
  }

  const RouteTable: seq<Rule> := [
    Rule(Exactly("GET"), Exactly("/"), Respond(Home)),
    Rule(Exactly("GET"), Exactly("/about"), Respond(About)),
    Rule(Exactly("GET"), Exactly("/contact"), Respond(Contact)),
    Rule(Exactly("GET"), Anything, Respond(NotFound)),
    Rule(Exactly("POST"), Exactly("/submit"), ReadBody),
    Rule(Exactly("POST"), Anything, Respond(NotFound)),
    Rule(Anything, Anything, Respond(MethodNotAllowed))
  ]

  /** Rule `k` matches and no earlier rule does. */
  predicate FirstFiring(rules: seq<Rule>, k: int, verb: string, pathname: string)
  {
    && 0 <= k < |rules|
    && Fires(rules[k], verb, pathname)
    && forall j :: 0 <= j < k ==> !Fires(rules[j], verb, pathname)
  }

  /** The decision of the first matching rule, if any rule matches. */
  function FirstMatch(rules: seq<Rule>, verb: string, pathname: string): (d: Option<Decision>)
    ensures d.None? <==> forall k :: 0 <= k < |rules| ==> !Fires(rules[k], verb, pathname)
    ensures d.Some? ==> exists k :: FirstFiring(rules, k, verb, pathname) && d.value == rules[k].decision
  {
    if rules == [] then None
    else if Fires(rules[0], verb, pathname) then Some(rules[0].decision)
    else FirstMatch(rules[1..], verb, pathname)
  }

  /** The handler's chain of comparisons decides exactly as the table does,
      for every method and pathname. */
  lemma {:induction false} RouteFollowsTable(verb: string, pathname: string)
    ensures FirstMatch(RouteTable, verb, pathname) == Some(Route(verb, pathname))
  {
    var t := RouteTable;
    assert FirstMatch(t[6..], verb, pathname) == Some(Respond(MethodNotAllowed));
    assert FirstMatch(t[5..], verb, pathname) == if verb == "POST" then Some(Respond(NotFound)) else FirstMatch(t[6..], verb, pathname);
    assert FirstMatch(t[4..], verb, pathname) == if verb == "POST" && pathname == "/submit" then Some(ReadBody) else FirstMatch(t[5..], verb, pathname);
    assert FirstMatch(t[3..], verb, pathname) == if verb == "GET" then Some(Respond(NotFound)) else FirstMatch(t[4..], verb, pathname);
    assert FirstMatch(t[2..], verb, pathname) == if verb == "GET" && pathname == "/contact" then Some(Respond(Contact)) else FirstMatch(t[3..], verb, pathname);
    assert FirstMatch(t[1..], verb, pathname) == if verb == "GET" && pathname == "/about" then Some(Respond(About)) else FirstMatch(t[2..], verb, pathname);
  }
}
