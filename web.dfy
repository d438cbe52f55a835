/** The browser services the client layer touches: `localStorage`, `fetch`,
    the `cora-navigation` event and `window.location.reload`.  The network is
    an oracle: the `n`-th fetch of a session with request `req` yields
    `server(req, n)`. */
module Web {
  import opened Js
  import opened Text

  /** What `fetch(url, options)` sends: the method, the header object and the
      JSON document that `JSON.stringify` turned into the body. */
  datatype Request = Request(url: string, httpMethod: string, headers: map<string, string>, body: Option<Json>)

  /** A response body: its raw text and what `response.json()` makes of it
      (the parsed document, or the `SyntaxError` it rejects with). */
  datatype Payload = Payload(text: string, parsed: Result<Json>)

  datatype Response = Response(status: int, statusText: string, headers: map<string, string>, body: Payload)
  {
    /** `response.ok` */
    predicate Ok() {
      200 <= status <= 299
    }
  }

  /** A fetch resolves with a response or rejects with an error (a network failure). */
  datatype FetchOutcome = Delivered(response: Response) | Rejected(error: JsError)

  type Server = (Request, nat) -> FetchOutcome

  /** Everything the client layer can observe or change in the browser. */
  datatype World = World(storage: map<string, string>, requests: seq<Request>, navigations: seq<string>, reloads: nat)

  /** `localStorage.getItem(key)`; `None` is `null`. */
  function StoredItem(w: World, key: string): (v: Option<string>)
    ensures v.Some? <==> key in w.storage
    ensures v.Some? ==> v.value == w.storage[key]
  {
    if key in w.storage then Some(w.storage[key]) else None
  }

  /** `localStorage.setItem(key, value)` */
  function WithItem(w: World, key: string, value: string): World {
    w.(storage := w.storage[key := value])
  }

  /** `localStorage.removeItem(key)` */
  function WithoutItem(w: World, key: string): World {
    w.(storage := w.storage - {key})
  }

  /** `fetch`: the request is logged and the oracle answers it. */
  function FetchStep(server: Server, w: World, req: Request): (FetchOutcome, World) {
    (server(req, |w.requests|), w.(requests := w.requests + [req]))
  }

  /** Reading a key back after writing it gives the written value; other keys are untouched. */
  lemma GetAfterSet(w: World, key: string, value: string, other: string)
    ensures StoredItem(WithItem(w, key, value), key) == Some(value)
    ensures other != key ==> StoredItem(WithItem(w, key, value), other) == StoredItem(w, other)
  {
  }

  /** A removed key reads back as `null`; other keys are untouched. */
  lemma GetAfterRemove(w: World, key: string, other: string)
    ensures StoredItem(WithoutItem(w, key), key) == None
    ensures other != key ==> StoredItem(WithoutItem(w, key), other) == StoredItem(w, other)
  {
  }

  /** `JSON.stringify` of a document (numbers are integers). */
  function Stringify(j: Json): (s: string)
    ensures |s| > 0
    decreases j, 0
  {
    match j
    case Null => "null"
    case Bool(b) => if b then "true" else "false"
    case Num(n) => IntToString(n)
    case Str(s) => Quote(s)
    case Arr(items) => "[" + StringifyItems(items) + "]"
    case Obj(fields) => "{" + StringifyFields(fields) + "}"
  }

  function StringifyItems(items: seq<Json>): string
    decreases items, 1
  {
    if |items| == 0 then ""
    else if |items| == 1 then Stringify(items[0])
    else Stringify(items[0]) + "," + StringifyItems(items[1..])
  }

  function StringifyFields(fields: seq<Field>): string
    decreases fields, 1
  {
    if |fields| == 0 then ""
    else
      var f := fields[0];
      var member := Quote(f.key) + ":" + Stringify(f.value);
      if |fields| == 1 then member else member + "," + StringifyFields(fields[1..])
  }

  /** A JSON string literal: quotes, backslashes and control characters escaped. */
  function Quote(s: string): (q: string)
    ensures |q| >= 2 && q[0] == '"' && q[|q| - 1] == '"'
  {
    "\"" + EscapeChars(s) + "\""
  }

  function EscapeChars(s: string): string {
    if |s| == 0 then "" else EscapeChar(s[0]) + EscapeChars(s[1..])
  }

  function EscapeChar(c: char): string {
    if c == '"' then "\\\""
    else if c == '\\' then "\\\\"
    else if c == '\U{8}' then "\\b"
    else if c == '\U{C}' then "\\f"
    else if c == '\n' then "\\n"
    else if c == '\r' then "\\r"
    else if c == '\t' then "\\t"
    else if c < ' ' then "\\u00" + [HexDigit(c as int / 16), HexDigit(c as int % 16)]
    else [c]
  }

  function HexDigit(d: nat): char
    requires d < 16
  {
    "0123456789abcdef"[d]
  }

  /** `new Response(JSON.stringify(doc), { status, headers: { "Content-Type": "application/json" } })` */
  function JsonResponse(status: int, doc: Json): (r: Response)
    ensures r.status == status && r.body.parsed == Ok(doc)
    ensures r.headers == map["Content-Type" := "application/json"]
  {
    Response(status, "", map["Content-Type" := "application/json"], Payload(Stringify(doc), Ok(doc)))
  }

  /** The browser: its storage, the log of everything fetched, the navigation
      events dispatched and the page reloads requested. */
  class Browser {
    var storage: map<string, string>
    var requests: seq<Request>
    var navigations: seq<string>
    var reloads: nat
    const server: Server

    function State(): World
      reads this
    {
      World(storage, requests, navigations, reloads)
    }

    constructor (server: Server, storage: map<string, string>)
      ensures State() == World(storage, [], [], 0)
      ensures this.server == server
    {
      this.server := server;
      this.storage := storage;
      requests := [];
      navigations := [];
      reloads := 0;
    }

    method GetItem(key: string) returns (v: Option<string>)
      ensures v == StoredItem(State(), key)
    {
      v := if key in storage then Some(storage[key]) else None;
    }

    method SetItem(key: string, value: string)
      modifies this
      ensures State() == WithItem(old(State()), key, value)
    {
      storage := storage[key := value];
    }

    method RemoveItem(key: string)
      modifies this
      ensures State() == WithoutItem(old(State()), key)
    {
      storage := storage - {key};
    }

    method Fetch(req: Request) returns (outcome: FetchOutcome)
      modifies this
      ensures (outcome, State()) == FetchStep(server, old(State()), req)
    {
      outcome := server(req, |requests|);
      requests := requests + [req];
    }

    /** `document.dispatchEvent(new CustomEvent('cora-navigation', { detail: { path } }))` */
    method DispatchNavigation(path: string)
      modifies this
      ensures State() == old(State()).(navigations := old(navigations) + [path])
    {
      navigations := navigations + [path];
    }

    /** `window.location.reload()` */
    method Reload()
      modifies this
      ensures State() == old(State()).(reloads := old(reloads) + 1)
    {
      reloads := reloads + 1;
    }
  }
}
