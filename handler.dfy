/** The handler registered for `/api/task`, as the object it really is: one
    task stored in place and replaced by accepted PUTs, requests handled one
    at a time. */
module TaskHandler {
  import opened Options
  import opened Tasks

  class TaskServer {
    /** The process-wide task, `InMemoryTask` in the service. */
    var task: Task
    /** The JSON and content-sniffing calls the handler makes. */
    const lib: Library

    /** The stored title always has 1 to 100 bytes. */
    ghost predicate Valid()
      reads this
    {
      TitleFits(task.title)
    }

    /** The process starts with "Learn Dagger", not completed. */
    constructor (lib: Library)
      ensures this.lib == lib && task == InitialTask && Valid()
    {
      this.lib := lib;
      task := InitialTask;
    }

    /** Handles one request: the CORS entries first, then a switch on the
        method. Only an accepted PUT assigns the task, and it assigns the
        decoded task whole; every other outcome leaves it as it was. */
    method Handle(req: Request) returns (resp: Response)
      requires Valid()
      modifies this
      ensures Valid()
      ensures resp == Serve(lib, old(task), req).response
      ensures task == Serve(lib, old(task), req).next
      ensures resp.status != StatusAccepted ==> task == old(task)
      ensures resp.status == StatusAccepted ==> Some(task) == lib.unmarshal(req.body.bytes)
    {
      var header: seq<(string, string)> := [];
      header := header + [("Access-Control-Allow-Origin", "*")];
      header := header + [("Vary", "Origin")];
      header := header + [("Vary", "Access-Control-Request-Method")];
      header := header + [("Vary", "Access-Control-Request-Headers")];
      header := header + [("Access-Control-Allow-Headers", "Content-Type, Origin, Accept, token")];
      header := header + [("Access-Control-Allow-Methods", "GET,PUT")];

      if req.verb == MethodOptions {
        resp := Response(StatusOK, header, []);
      } else if req.verb == MethodGet {
        var data := lib.marshal(task);
        if data.None? {
          resp := Response(StatusInternalServerError, header, []);
          return;
        }
        header := header + [("Content-Type", MediaTypeJson)];
        resp := Response(StatusOK, header, data.value);
      } else if req.verb == MethodPut {
        if req.body.ReadError? {
          resp := Response(StatusInternalServerError, header, []);
          return;
        }
        var verdict := ValidatePut(lib, req.contentType, req.body.bytes);
        if verdict.Reject? {
          resp := Response(verdict.status, header, []);
          return;
        }
        task := verdict.task;
        resp := Response(StatusAccepted, header, []);
      } else {
        resp := Response(StatusMethodNotAllowed, header, []);
      }
    }
  }

  /** "Buy milk" (ASCII), the title of the example exchange below. */
  const BuyMilk := Task([66, 117, 121, 32, 109, 105, 108, 107], true)

  /** The example exchange of the service: a fresh process answers GET with
      the initial task, accepts a PUT of `{"title":"Buy milk","completed":true}`
      sent as application/json, and then answers GET with exactly that task. */
  method Exchange(lib: Library, body: seq<byte>) returns (first: Response, put: Response, second: Response)
    requires |body| > 0 && lib.unmarshal(body) == Some(BuyMilk)
    requires lib.marshal(InitialTask).Some? && lib.marshal(BuyMilk).Some?
    ensures first.status == StatusOK && first.body == lib.marshal(InitialTask).value
    ensures put.status == StatusAccepted && put.body == []
    ensures second.status == StatusOK && second.body == lib.marshal(BuyMilk).value
  {
    var server := new TaskServer(lib);
    first := server.Handle(Request(MethodGet, "", Body([])));
    put := server.Handle(Request(MethodPut, MediaTypeJson, Body(body)));
    second := server.Handle(Request(MethodGet, "", Body([])));
  }
}
