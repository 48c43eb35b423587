# Task service: a verified model of the `/api/task` handler

The service keeps one task in memory: a title and a completion flag. It starts
as `{"title": "Learn Dagger", "completed": false}`. It answers four kinds of
request on `/api/task`:

- OPTIONS (the CORS preflight) gets 200.
- GET gets 200 and the task as JSON.
- PUT replaces the whole task once the body passes an ordered series of checks.
- Any other method gets 405.

Every response carries the same six CORS header entries. The listen port comes
from the `PORT` environment value. When that value does not parse as a positive
integer, the port is 8080.

The model has four modules:

- `Options` (options.dfy): the `Option` datatype.
- `Tasks` (task.dfy): the values and the specification. That means the `Task`
  record, requests, responses and the library calls the handler makes. It also
  holds the PUT validation pipeline `ValidatePut`, the effect of one request
  `Serve`, the effect of a sequence of requests `Run`, and the lemmas about them.
- `TaskHandler` (handler.dfy): the handler as an object. Class `TaskServer`
  stores the task in a field. Its `Handle` method follows the source's switch:
  the CORS entries are added first, then come the method cases with their early
  returns. Only an accepted PUT assigns the field. `Handle` is proved to agree
  with `Serve`.
- `PortSelection` (port.dfy): Go's `strconv.Atoi` for a 64-bit `int`, and the
  port rule built on it.

The handler calls three library functions: `json.Unmarshal`, `json.Marshal` and
`http.DetectContentType`. Their internals are not modelled. Each is a field of
the `Library` datatype, an arbitrary total function passed in, so every property
below holds for any behaviour of those calls. Go strings are byte strings and
Go's `len` counts bytes. So titles and bodies are byte sequences, and the
100-byte limit is a limit on bytes. The request method and the Content-Type
value are only ever compared for equality with ASCII constants. They are kept
as Dafny strings.

## Model

| member | source | states |
|---|---|---|
| `Tasks.ValidatePut` | backend/main.go:69-103 | Each PUT outcome is characterised by the inputs alone. The result is 415 exactly when the resolved type is not exactly application/json. It is 400 exactly when the type is JSON and the body is empty, fails to unmarshal or has an empty title. It is 413 exactly when all of those pass and the title is over 100 bytes. Otherwise it accepts exactly the unmarshalled task. So the first failing check decides. |
| `Tasks.Serve` | backend/main.go:33-110 | Every response starts with the six CORS entries, and its status is one of the handler's seven codes. Every response other than 200 carries only the CORS entries and an empty body. The task changes only on 202, and then to exactly the validated task. 202 happens exactly for a readable PUT that passes validation. A rejected PUT answers the status of the check that failed, with only the CORS entries and an empty body. A PUT whose body cannot be read answers 500. 405 happens exactly for a method other than GET, PUT and OPTIONS. |
| `Tasks.PutThenGet` | backend/main.go:43-107 | A JSON PUT whose title has 1 to 100 bytes returns 202 and stores both fields. A following GET returns 200 and the marshalled form of exactly that task. |
| `Tasks.TitleBoundaries` | backend/main.go:94-103 | A title of 0 bytes gives 400, 100 bytes gives 202 and 101 bytes gives 413. Both rejections keep the stored task. |
| `Tasks.DeclaredTypeTakesPrecedence` | backend/main.go:69-80 | A non-empty Content-Type is used as it is. The outcome does not depend on the sniffer at all. A declared type other than exactly application/json gives 415 and keeps the task, whatever the body. |
| `Tasks.SniffedTypeWhenUndeclared` | backend/main.go:69-80 | Without a Content-Type the sniffed type decides. A sniffed type other than application/json gives 415 and keeps the task. A sniffed JSON type behaves exactly like a declared one. |
| `Tasks.ReadsAreSafe` | backend/main.go:43-58 | OPTIONS returns 200 with only the CORS entries and an empty body. GET returns 200, Content-Type application/json and the marshalled task, or 500 if marshalling fails. Neither changes the task. |
| `Tasks.RunIsLastAccepted` | backend/main.go:106 | After any sequence of requests, the stored task is the task of the last accepted PUT, or the starting task when no PUT was accepted. Replacement is whole-value and last-writer-wins. |
| `Tasks.LastAcceptedCons` | backend/main.go:106 | The last accepted PUT of a non-empty sequence is the one in its tail. If the tail has none, it is the first request when that request is an accepted PUT. |
| `Tasks.RunKeepsTitleFits` | backend/main.go:94-106 | Starting from a task whose title has 1 to 100 bytes, every sequence of requests leaves a title of 1 to 100 bytes. |
| `TaskHandler.TaskServer.constructor` | backend/main.go:21-24 | The stored task starts as "Learn Dagger", not completed, and satisfies the title invariant. |
| `TaskHandler.TaskServer.Handle` | backend/main.go:33-110 | The response and the new stored task are those of `Serve`, and the title invariant is kept. A non-202 response leaves the task untouched. A 202 stores exactly what the body unmarshals to. |
| `TaskHandler.Exchange` | backend/main.go:42-107 | A fresh server answers GET with the initial task. It then accepts a JSON PUT of "Buy milk", completed. A second GET returns exactly the new task. |
| `PortSelection.Atoi` | backend/main.go:119 | A string parses exactly when it is an optional sign followed by one or more digits whose signed decimal value fits Go's 64-bit `int`. The value is then the digits' decimal value, negated after a '-'. |
| `PortSelection.LeadingZeroValue` | backend/main.go:119 | A leading zero does not change the value of a digit string. |
| `PortSelection.LeadingZeroPort` | backend/main.go:116-122 | A leading zero is accepted: "0" followed by the decimal spelling of n selects n, so "08080" selects 8080. |
| `PortSelection.OutOfRangeFallsBack` | backend/main.go:119-121 | A decimal spelling of a number above Go's largest `int` is a range error, so the port is 8080. |
| `PortSelection.NonDigitFallsBack` | backend/main.go:119-121 | A string with any character that is neither a digit nor a leading sign is a syntax error, so the port is 8080. |
| `PortSelection.UnsetFallsBack` | backend/main.go:118-121 | An unset (empty) PORT selects 8080. |
| `PortSelection.SelectPort` | backend/main.go:116-122 | The port is always positive. It is the parsed PORT value exactly when that value parses and is positive, and 8080 otherwise. No upper bound is applied. |
| `PortSelection.DecimalValue` | backend/main.go:119 | The decimal spelling of n consists of digits whose value is n. |
| `PortSelection.PortRoundTrip` | backend/main.go:116-122 | Setting PORT to the decimal spelling of any positive 64-bit integer selects exactly that port. |
| `PortSelection.SignedSpellings` | backend/main.go:116-122 | "+N" selects N. "-N" falls back to 8080. |

## Left out

- The HTTP server, path routing (`/api/task` mounted on a second mux), the server's timeouts, the serving goroutine, the interrupt signal and the 3-second graceful shutdown are left out. They are I/O and concurrency plumbing.
- Requests are handled one at a time, each as one atomic step. The unsynchronised access to the stored task by concurrent requests is not modelled.
- Logging through `slog` is left out. It only observes and never changes a response.
- The internals of `json.Unmarshal`, `json.Marshal` and `http.DetectContentType` are left out. They are arbitrary functions in `Library`. Go's sniffer never reports `application/json`, so in practice a PUT without a Content-Type header always gets 415. The model does not capture this, because it allows any sniffer.
- The headers Go's server adds on its own (`Date`, `Content-Length`) are left out. So is the canonicalisation of header names. The model keeps the entries the handler adds, in order.
- A failed write of the GET response body is left out. The source only logs it.
- A body read failure is an input (`Body.ReadError`) rather than a fault of the I/O layer.
- Header lookup is left out. The model takes the first Content-Type value, or "" when there is none, as `Request.contentType`.
- `strconv.Atoi` belongs to Go's standard library; `PortSelection.Atoi` follows its documented base-10 behaviour on a 64-bit platform.
- `PortSelection.SelectPort`: the server's failure to bind a port above 65535 happens in `ListenAndServe`, which is not modelled.
