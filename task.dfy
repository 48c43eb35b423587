/** The single task resource served at `/api/task`: the record itself, the
    requests and responses of its handler, the ordered PUT validation
    pipeline, and the effect of one request on the stored task. */
module Tasks {
  import opened Options

  /** Go strings are byte strings; a title is kept as its bytes, so that
      its length is Go's `len`. */
  newtype byte = x: int | 0 <= x < 256

  datatype Task = Task(title: seq<byte>, completed: bool)

  /** Longest title, in bytes, that a PUT may store. */
  const MaxTitleBytes := 100

  /** The task the process starts with: "Learn Dagger" (ASCII), not completed. */
  const InitialTask := Task([76, 101, 97, 114, 110, 32, 68, 97, 103, 103, 101, 114], false)

  const MethodGet := "GET"
  const MethodPut := "PUT"
  const MethodOptions := "OPTIONS"

  const StatusOK := 200
  const StatusAccepted := 202
  const StatusBadRequest := 400
  const StatusMethodNotAllowed := 405
  const StatusRequestEntityTooLarge := 413
  const StatusUnsupportedMediaType := 415
  const StatusInternalServerError := 500

  const MediaTypeJson := "application/json"

  /** The three library calls the handler makes, taken as given functions:
      `unmarshal` is json.Unmarshal into a Task (None when it reports an
      error), `marshal` is json.Marshal of a Task (None when it reports an
      error), `detectContentType` is http.DetectContentType. */
  datatype Library = Library(
    unmarshal: seq<byte> -> Option<Task>,
    marshal: Task -> Option<seq<byte>>,
    detectContentType: seq<byte> -> string)

  /** The request body as io.ReadAll delivers it: the bytes, or a read error. */
  datatype Body = Body(bytes: seq<byte>) | ReadError

  /** A request to the route: its method, the first Content-Type header
      value ("" when there is none), and its body. */
  datatype Request = Request(verb: string, contentType: string, body: Body)

  /** A response: status code, header entries in the order they were added,
      and body. */
  datatype Response = Response(status: int, header: seq<(string, string)>, body: seq<byte>)

  /** The CORS entries added to every response of the route, in order. */
  const CorsHeader: seq<(string, string)> := [
    ("Access-Control-Allow-Origin", "*"),
    ("Vary", "Origin"),
    ("Vary", "Access-Control-Request-Method"),
    ("Vary", "Access-Control-Request-Headers"),
    ("Access-Control-Allow-Headers", "Content-Type, Origin, Accept, token"),
    ("Access-Control-Allow-Methods", "GET,PUT")
  ]

  /** A title the handler will store: non-empty and at most 100 bytes. */
  predicate TitleFits(title: seq<byte>) {
    0 < |title| <= MaxTitleBytes
  }

  /** The declared Content-Type when non-empty, otherwise the sniffed one. */
  function ResolveContentType(lib: Library, declared: string, body: seq<byte>): string {
    if declared != "" then declared else lib.detectContentType(body)
  }

  /** The outcome of the PUT checks: the task to store, or the status of
      the first check that failed. */
  datatype Verdict = Accept(task: Task) | Reject(status: int)

  /** The PUT validation pipeline, checks in source order: content type
      (415), empty body (400), unmarshal error (400), empty title (400),
      title over 100 bytes (413). The contract characterises each outcome
      by the inputs alone; together the clauses say that the first failing
      check decides the status. */
  function ValidatePut(lib: Library, declared: string, body: seq<byte>): (v: Verdict)
    ensures v.Accept? <==>
      ResolveContentType(lib, declared, body) == MediaTypeJson && |body| > 0
      && lib.unmarshal(body).Some? && TitleFits(lib.unmarshal(body).value.title)
    ensures v.Accept? ==> lib.unmarshal(body) == Some(v.task) && TitleFits(v.task.title)
    ensures v == Reject(StatusUnsupportedMediaType) <==>
      ResolveContentType(lib, declared, body) != MediaTypeJson
    ensures v == Reject(StatusBadRequest) <==>
      ResolveContentType(lib, declared, body) == MediaTypeJson
      && (|body| == 0 || lib.unmarshal(body).None? || lib.unmarshal(body).value.title == [])
    ensures v == Reject(StatusRequestEntityTooLarge) <==>
      ResolveContentType(lib, declared, body) == MediaTypeJson && |body| > 0
      && lib.unmarshal(body).Some? && |lib.unmarshal(body).value.title| > MaxTitleBytes
  {
    if ResolveContentType(lib, declared, body) != MediaTypeJson then
      Reject(StatusUnsupportedMediaType)
    else if |body| <= 0 then
      Reject(StatusBadRequest)
    else match lib.unmarshal(body)
      case None => Reject(StatusBadRequest)
      case Some(task) =>
        if task.title == [] then Reject(StatusBadRequest)
        else if |task.title| > MaxTitleBytes then Reject(StatusRequestEntityTooLarge)
        else Accept(task)
  }

  /** Whether `req` is a PUT that passes every check, whatever is stored. */
  predicate AcceptedPut(lib: Library, req: Request) {
    req.verb == MethodPut && req.body.Body?
    && ValidatePut(lib, req.contentType, req.body.bytes).Accept?
  }

  /** What one request does: the response and the task stored afterwards. */
  datatype Outcome = Outcome(response: Response, next: Task)

  /** The handler of the route on one request, with `current` stored. Only
      an accepted PUT (202) changes the stored task, and then to exactly the
      decoded task; a rejected PUT answers the status of the check that
      failed, a PUT whose body cannot be read answers 500; every response
      starts with the CORS entries, and every response other than 200 has
      only those and an empty body. */
  function Serve(lib: Library, current: Task, req: Request): (out: Outcome)
    ensures |out.response.header| >= |CorsHeader|
      && out.response.header[..|CorsHeader|] == CorsHeader
    ensures out.response.status in {StatusOK, StatusAccepted, StatusBadRequest,
      StatusMethodNotAllowed, StatusRequestEntityTooLarge, StatusUnsupportedMediaType,
      StatusInternalServerError}
    ensures out.response.status != StatusAccepted ==> out.next == current
    ensures out.response.status != StatusOK ==>
      out.response == Response(out.response.status, CorsHeader, [])
    ensures out.response.status == StatusAccepted <==> AcceptedPut(lib, req)
    ensures out.response.status == StatusAccepted ==>
      out.next == ValidatePut(lib, req.contentType, req.body.bytes).task
      && out.response.body == []
    ensures (req.verb == MethodPut && req.body.Body?
             && ValidatePut(lib, req.contentType, req.body.bytes).Reject?) ==>
      out.response == Response(ValidatePut(lib, req.contentType, req.body.bytes).status, CorsHeader, [])
    ensures req.verb == MethodPut && req.body.ReadError? ==>
      out.response == Response(StatusInternalServerError, CorsHeader, [])
    ensures out.response.status == StatusMethodNotAllowed <==>
      req.verb !in {MethodGet, MethodPut, MethodOptions}
  {
    if req.verb == MethodOptions then
      Outcome(Response(StatusOK, CorsHeader, []), current)
    else if req.verb == MethodGet then
      match lib.marshal(current)
      case None => Outcome(Response(StatusInternalServerError, CorsHeader, []), current)
      case Some(data) =>
        Outcome(Response(StatusOK, CorsHeader + [("Content-Type", MediaTypeJson)], data), current)
    else if req.verb == MethodPut then
      match req.body
      case ReadError => Outcome(Response(StatusInternalServerError, CorsHeader, []), current)
      case Body(bytes) =>
        match ValidatePut(lib, req.contentType, bytes)
        case Accept(task) => Outcome(Response(StatusAccepted, CorsHeader, []), task)
        case Reject(status) => Outcome(Response(status, CorsHeader, []), current)
    else
      Outcome(Response(StatusMethodNotAllowed, CorsHeader, []), current)
  }

  /** The stored task after a sequence of requests handled one at a time. */
  function Run(lib: Library, current: Task, reqs: seq<Request>): Task
    decreases |reqs|
  {
    if reqs == [] then current
    else Run(lib, Serve(lib, current, reqs[0]).next, reqs[1..])
  }

  /** The task of the last accepted PUT in `reqs`, if any. */
  function LastAccepted(lib: Library, reqs: seq<Request>): Option<Task>
    decreases |reqs|
  {
    if reqs == [] then None
    else
      var last := reqs[|reqs| - 1];
      if AcceptedPut(lib, last) then Some(ValidatePut(lib, last.contentType, last.body.bytes).task)
      else LastAccepted(lib, reqs[..|reqs| - 1])
  }

  // ---------------------------------------------------------------------
  // Properties of one request

  /** A PUT of a well-typed JSON body whose title has 1 to 100 bytes is
      accepted and replaces both fields; a GET that follows answers 200 with
      the marshalled form of exactly that task. */
  lemma PutThenGet(lib: Library, current: Task, declared: string, body: seq<byte>, t: Task)
    requires ResolveContentType(lib, declared, body) == MediaTypeJson && |body| > 0
    requires lib.unmarshal(body) == Some(t) && TitleFits(t.title)
    requires lib.marshal(t).Some?
    ensures var put := Serve(lib, current, Request(MethodPut, declared, Body(body)));
      put.response.status == StatusAccepted && put.next == t
      && var get := Serve(lib, put.next, Request(MethodGet, "", Body([])));
      get.response.status == StatusOK && get.next == t
      && get.response.body == lib.marshal(t).value
  {
  }

  /** The boundaries of the title checks: 0 bytes is 400, 100 bytes is 202,
      101 bytes is 413; in the two rejected cases the task is kept. */
  lemma TitleBoundaries(lib: Library, current: Task, body: seq<byte>, t: Task)
    requires |body| > 0 && lib.unmarshal(body) == Some(t)
    ensures var out := Serve(lib, current, Request(MethodPut, MediaTypeJson, Body(body)));
      (|t.title| == 0 ==> out.response.status == StatusBadRequest && out.next == current)
      && (|t.title| == 100 ==> out.response.status == StatusAccepted && out.next == t)
      && (|t.title| == 101 ==>
            out.response.status == StatusRequestEntityTooLarge && out.next == current)
  {
  }

  /** A non-empty Content-Type header decides alone: the sniffer is never
      consulted, so two libraries that differ only in it give the same
      outcome; and any declared type other than exactly application/json
      is refused with 415, whatever the body holds. */
  lemma DeclaredTypeTakesPrecedence(lib: Library, sniff: seq<byte> -> string,
                                    current: Task, req: Request)
    requires req.contentType != ""
    ensures Serve(lib, current, req)
         == Serve(lib.(detectContentType := sniff), current, req)
    ensures req.verb == MethodPut && req.body.Body? && req.contentType != MediaTypeJson ==>
      Serve(lib, current, req) == Outcome(Response(StatusUnsupportedMediaType, CorsHeader, []), current)
  {
  }

  /** Without a Content-Type header the sniffed type is used, and it too
      must be exactly application/json. */
  lemma SniffedTypeWhenUndeclared(lib: Library, current: Task, bytes: seq<byte>)
    ensures var out := Serve(lib, current, Request(MethodPut, "", Body(bytes)));
      (lib.detectContentType(bytes) != MediaTypeJson ==>
         out.response.status == StatusUnsupportedMediaType && out.next == current)
      && (lib.detectContentType(bytes) == MediaTypeJson ==>
         out == Serve(lib, current, Request(MethodPut, MediaTypeJson, Body(bytes))))
  {
  }

  /** GET and OPTIONS answer 200 (GET unless marshalling fails, then 500)
      and never change the stored task; GET's body is the marshalled task
      with Content-Type application/json. */
  lemma ReadsAreSafe(lib: Library, current: Task, declared: string, body: Body)
    ensures var out := Serve(lib, current, Request(MethodOptions, declared, body));
      out.response == Response(StatusOK, CorsHeader, []) && out.next == current
    ensures var out := Serve(lib, current, Request(MethodGet, declared, body));
      out.next == current
      && (lib.marshal(current).Some? ==>
            out.response == Response(StatusOK, CorsHeader + [("Content-Type", MediaTypeJson)],
                                     lib.marshal(current).value))
      && (lib.marshal(current).None? ==> out.response.status == StatusInternalServerError)
  {
  }

  // ---------------------------------------------------------------------
  // Properties of a sequence of requests

  /** Replacement is whole-value and last-writer-wins: after any sequence
      of requests the stored task is the one of the last accepted PUT, or
      the starting task when no PUT was accepted. */
  lemma {:induction false} RunIsLastAccepted(lib: Library, start: Task, reqs: seq<Request>)
    ensures Run(lib, start, reqs) ==
      match LastAccepted(lib, reqs)
      case Some(t) => t
      case None => start
    decreases |reqs|
  {
    if reqs != [] {
      var first := Serve(lib, start, reqs[0]).next;
      RunIsLastAccepted(lib, first, reqs[1..]);
      LastAcceptedCons(lib, reqs);
      if LastAccepted(lib, reqs[1..]).None? {
        if AcceptedPut(lib, reqs[0]) {
          assert first == ValidatePut(lib, reqs[0].contentType, reqs[0].body.bytes).task;
        } else {
          assert first == start;
        }
      }
    }
  }

  /** LastAccepted looks at the whole sequence from the back; seen from the
      front, the tail decides unless it has no accepted PUT. */
  lemma {:induction false} LastAcceptedCons(lib: Library, reqs: seq<Request>)
    requires reqs != []
    ensures LastAccepted(lib, reqs) ==
      match LastAccepted(lib, reqs[1..])
      case Some(t) => Some(t)
      case None =>
        if AcceptedPut(lib, reqs[0])
        then Some(ValidatePut(lib, reqs[0].contentType, reqs[0].body.bytes).task)
        else None
    decreases |reqs|
  {
    if |reqs| > 1 {
      var init := reqs[..|reqs| - 1];
      assert init[1..] == reqs[1..][..|reqs[1..]| - 1];
      assert reqs[1..][|reqs[1..]| - 1] == reqs[|reqs| - 1];
      assert init[0] == reqs[0];
      LastAcceptedCons(lib, init);
    } else {
      assert reqs[..0] == [];
      assert reqs[1..] == [];
    }
  }

  /** The stored title always has 1 to 100 bytes, starting from the
      initial task, whatever requests arrive. */
  lemma {:induction false} RunKeepsTitleFits(lib: Library, start: Task, reqs: seq<Request>)
    requires TitleFits(start.title)
    ensures TitleFits(Run(lib, start, reqs).title)
    decreases |reqs|
  {
    if reqs != [] {
      RunKeepsTitleFits(lib, Serve(lib, start, reqs[0]).next, reqs[1..]);
    }
  }
}
