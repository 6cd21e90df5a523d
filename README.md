# Graceful shutdown of an HTTP service, modelled in Dafny

The service under model is a small Go HTTP server that shuts down gracefully.
When it gets SIGINT or SIGTERM it stops listening for further signals. It then
sets a process-wide "shutting down" flag, so that its readiness endpoint starts
answering 503. It waits 5 seconds so load balancers can notice. Then it drains
the HTTP server under a 15-second deadline and cancels the context of the
requests still running. Only if the drain failed does it wait a further 3
seconds before returning. The OpenTelemetry provider keeps a list of cleanup
functions (tracer provider, meter provider); the API server has a list too,
run by `ShutdownResources`. Each runs its list in order under one context and
joins all the errors with `errors.Join`. `NewAPIServer` registers the logger
sync and the telemetry shutdown, but the server it returns does not keep them
(see Findings).

The project has one module per source file, plus three shared modules:

- `Wrappers`: `Option` and `Result`.
- `Http`: the status codes of RFC 9110 (200 in section 15.3.1, 500 in section
  15.6.1, 503 in section 15.6.4), `GET`, and the timer-or-cancel race of the
  hello-world handler.
- `Errors` (error.go): the `APIError` record and its `Error()` rendering,
  with a parser that reads the rendering back. It also models Go errors as a
  datatype, `errors.Join` (nested join values, nil when every argument is
  nil) and `errors.As` (a depth-first search for the first `APIError`).
- `Cleanups`: the loop shared by the two registries. `Accumulate` is the
  value of `err` after `err = errors.Join(err, fn(ctx))` has run over the
  results in order. Lemmas show it is nil iff every result is nil, and that
  it holds exactly the non-nil results, in call order.
- `Otel` (otel.go): class `OTelProvider`. Its `Shutdown` runs the list and
  then empties it, so a second call does nothing. `NewOTelProvider` registers
  the tracer provider's cleanup before the meter provider's.
- `Api` (api.go): class `APIServer` with the flag, the cleanup list and a
  ghost call log; the readiness and hello-world routes; and
  `makeHTTPHandlerFunc`'s choice of error response.
- `Shutdown` (main.go): class `Coordinator`. It has a `phase` (Running,
  Draining, Terminating, Exited), the flag, the cancellation of the request
  context and a ghost log of what `main` did. The log records the sleeps with
  their durations, the drain with its deadline and time taken, and `main`'s
  deferred calls. Lemmas over the log cover:
  - the flag is written once, right after `stop()`;
  - the phases run in a fixed order;
  - the hard wait happens iff the drain failed;
  - the total time is at most 5 + 15 + 3 = 23 seconds.

I/O and library calls become inputs. Inputs:

- what `server.Shutdown` did (time taken, error);
- what each cleanup returns for a context (a function `Ctx -> Option<Err>`);
- which `select` case a handler takes;
- the outcome of each construction step.

Four behaviours of the code worth knowing:

- main.go runs no cleanup registry after the drain. Its only cleanup is the
  deferred `logger.Sync()`, which comes last among the deferred calls.
- The request context is cancelled after `server.Shutdown` returns
  (main.go:88-89), not when the drain starts.
- Only the OpenTelemetry registry is idempotent. `APIServer.ShutdownResources`
  keeps its list and runs it again on every call.
- The readiness endpoint of main.go answers "shutting down", and the one of
  api.go answers the `APIError` 503 "the server is shutting down".

## Model

| member | source | states |
|---|---|---|
| `Errors.Render` | error.go:10-12 | the rendering starts with "api error: code=", and its length is that of the fixed parts, the decimal code and the message; the message is its verbatim suffix |
| `Errors.IntToDecimalRoundTrip` | error.go:11 | the `%d` rendering of any integer, negative ones included, parses back to that integer |
| `Errors.RenderRoundTrip` | error.go:11 | splitting a rendering at its first ", message=" gives back exactly the code and the message |
| `Errors.RenderInjective` | error.go:10-12 | the rendering depends only on code and message, and two different APIErrors never render to the same text |
| `Errors.AsApiErrorIsFirstLeaf` | api.go:34-35 | `errors.As` with an `APIError` target finds the first APIError among the errors an error wraps, in depth-first order |
| `Cleanups.AccumulateNilIff` | api.go:121-126 | the joined error of the cleanup loop is nil if and only if every cleanup returned nil |
| `Cleanups.AccumulateKeepsAllErrors` | otel.go:62-66 | the joined error holds exactly the errors of the failed cleanups, in call order; none is dropped after a failure |
| `Cleanups.OnlyTheFailureIsReported` | api.go:121-126 | with cleanups A, B, C where only B fails, all three are called once, in order, with the same context, and the aggregate holds B's error only |
| `Otel.OTelProvider.Shutdown` | otel.go:62-70 | every registered cleanup is called once, in list order, with the same ctx; the result is their joined errors; the list is empty afterwards whatever they returned |
| `Otel.ShutdownTwice` | otel.go:62-70 | a second Shutdown calls nothing and returns nil |
| `Otel.NewOTelProvider` | otel.go:27-51 | a tracer-provider failure returns its error before the meter provider is built; a meter-provider failure returns its error; on success the list is the tracer's cleanup, then the meter's |
| `Otel.OTelProvider.constructor` | otel.go:45-50 | the provider holds the given cleanup list and has made no calls |
| `Api.ErrorResponse` | api.go:30-46 | a handler error is answered with the APIError `errors.As` finds, under its own code, or else with status 500 and "internal server error" |
| `Api.Serve` | api.go:30-46 | the wrapper writes nothing after a nil error and exactly one error response after a non-nil one |
| `Api.ErrorStatusByLeaves` | api.go:33-43 | the status of an error response is the code of the first APIError the error holds, or 500 when it holds none |
| `Api.APIServer.InitiateShutdown` | api.go:111-113 | the flag is true afterwards; only true is ever stored, so repeated calls change nothing |
| `Api.APIServer.ShutdownResources` | api.go:121-127 | every registered function is called once, in slice order, with the same ctx; the result is their joined errors; the list is not cleared |
| `Api.ShutdownResourcesTwice` | api.go:121-127 | because the list is kept, a second call calls every function again, in the same order, with the same ctx; with callbacks that return the same result every time it returns the same aggregate |
| `Api.APIServer.HandleReadiness` | api.go:129-135 | GET is served by the readiness check; any other method returns a plain "method not allowed" error |
| `Api.APIServer.HandleGetReadiness` | api.go:137-153 | no error iff not shutting down; then 200 with message "ok" is written; otherwise nothing is written and APIError{503, "the server is shutting down"} is returned |
| `Api.APIServer.HandleHelloWorld` | api.go:155-161 | GET is served by the greeting; any other method returns a plain "method not allowed" error |
| `Api.APIServer.HandleGetHelloWorld` | api.go:163-175 | timer first: 200 "Hello, World!" and nil; request context done first: nothing written and APIError{503, "request canceled"} |
| `Api.ReadinessRoute` | api.go:129-153 | a client of /healthz gets 200 "ok" while the flag is false, the 503 APIError once it is true, and 500 (not 405) for a method other than GET |
| `Api.HelloWorldRoute` | api.go:155-175 | a client of / gets the greeting, the 503 "request canceled" APIError, or 500 for a method other than GET |
| `Api.APIServer.constructor` | api.go:86-89 | the server literal has the flag false and an empty cleanup list |
| `Api.APIServer.WithCleanups` | api.go:59-90 | a server built with a cleanup list holds that list, with the flag false |
| `Api.NewAPIServer` | api.go:59-90 | a config or logger error is returned with nothing registered; a telemetry failure panics after the logger's cleanup is registered; on success the logger's cleanup is registered first and the telemetry shutdown second, but the returned server holds no cleanups |
| `Api.RegisteredCleanupsAreLost` | api.go:84-89 | after a successful NewAPIServer, ShutdownResources calls nothing and returns nil, although the logger sync and the telemetry shutdown were registered |
| `Api.NewAPIServerKeepingCleanups` | api.go:59-90 | corrected constructor: the same error and panic cases, and on success the server holds the logger's cleanup, then the telemetry shutdown |
| `Api.KeptCleanupsRun` | api.go:121-127 | with the list kept, ShutdownResources syncs the logger, then shuts telemetry down, with the same ctx, and joins their errors |
| `Shutdown.ReadinessReply` | main.go:23-31 | 200 "ok" if and only if the flag is false; 503 "shutting down" if and only if it is true |
| `Shutdown.Coordinator.ReadinessHandler` | main.go:23-31 | 200 "ok" if and only if the process-wide flag is false; 503 "shutting down" if and only if it is true |
| `Shutdown.HelloWorldReply` | main.go:33-42 | 200 "Hello, World!" if and only if the 2-second timer fires first; 503 "request canceled" when the request context is done first |
| `Shutdown.ServePanics` | main.go:69-74 | the serving goroutine panics if and only if ListenAndServe fails with an error other than http.ErrServerClosed |
| `Shutdown.Coordinator.constructor` | main.go:44-74 | before the signal the phase is Running, the flag is false, no request context is cancelled and nothing is logged |
| `Shutdown.Coordinator.ReceiveSignal` | main.go:76-83 | on the signal: stop signal delivery, then set the flag, then sleep the 5-second readiness delay; phase Running to Draining |
| `Shutdown.Coordinator.DrainServer` | main.go:85-89 | server.Shutdown under the 15-second deadline, then cancellation of the request context whatever it returned; phase Draining to Terminating |
| `Shutdown.Coordinator.Exit` | main.go:90-96 | the 3-second hard sleep only if the drain returned an error, then the deferred cancel, stop and logger sync, last registered first; phase Terminating to Exited |
| `Shutdown.Coordinator.Run` | main.go:76-96 | from the signal onwards main performs exactly the timeline of its drain result and returns the drain's error |
| `Shutdown.FlagStoredOnceAfterStop` | main.go:76-79 | the flag is stored exactly once, right after the signal wait returns and stop() is called |
| `Shutdown.ShutdownOrder` | main.go:79-89 | flag, then the readiness sleep, then server.Shutdown with the 15-second deadline, then cancellation of the request context |
| `Shutdown.HardWaitIffDrainFailed` | main.go:88-93 | the hard sleep happens if and only if server.Shutdown returned an error |
| `Shutdown.ShutdownDuration` | main.go:82-93 | the time from signal to return is 5 seconds plus the drain time, plus 3 seconds exactly when the drain failed |
| `Shutdown.ShutdownWithinBudget` | main.go:16-18 | if server.Shutdown keeps to its deadline, main returns at most 5 + 15 + 3 = 23 seconds after the signal |
| `Shutdown.ReadinessFollowsPhase` | main.go:23-31 | the readiness endpoint answers 200 exactly while the coordinator is Running, and 503 in every later phase |

## Left out

- HTTP serving itself is not modelled: `APIServer.Run`, `ListenAndServe`, the `ServeMux` routes, the `otelhttp` wrapper (api.go:92-108) and main.go's server set-up. Handlers are modelled by what they write and return.
- `WriteJSON` and JSON encoding (api.go:24-28) are not modelled: a response is its status and the value encoded, with no bytes or headers.
- `APIServer.Shutdown` (api.go:116-118) only forwards to `http.Server.Shutdown`, which is library code. What the drain did is an input, `Shutdown.DrainResult`. The nil `server` field it dereferences when `Run` was never called is not modelled.
- Signals, goroutines and `atomic.Bool` are not modelled. The flag is a plain boolean field, and the signal is a call to `ReceiveSignal`.
- A second signal after `stop()` reaches the OS default action and kills the process. That path bypasses `main`, and the model has no state for it.
- Real time is not modelled. Sleeps are log events carrying seconds. How long the drain blocked is an input. The hello-world timer against request cancellation is a `Race` input.
- A context is its deadline only. Context expiry and the cancellation seen by a running request are not modelled.
- The cleanup callbacks' bodies (`logger.Sync`, the tracer and meter providers' `Shutdown`) are foreign calls. Each is a function from context to an optional error. A stateful callback called twice through a func value is not captured. OTelProvider's own `Shutdown` is modelled with its state.
- The construction of the exporters and providers, the propagator and global registration (`newTracerProvider`, `newMeterProvider`, `newPropagator`, `Setup`, otel.go:54-145) are not modelled. Their outcome is an input to `NewOTelProvider` and `NewAPIServer`. The 0.1 sampling ratio is a float and is left out.
- logger.go (the zap configuration and trace-ID lookup) and config.go (environment parsing by `envconfig`) are not part of this model.
- Logging calls (`logger.Info`, `logger.Error`) are not events in the log.
- The text of a joined error (`joinError.Error`) and of `fmt.Errorf` errors beyond their message is not modelled.
- Api.ShutdownResourcesTwice: the two results are equal only because a callback here returns the same result every time it is called with the same context. The registered telemetry cleanup, `OTelProvider.Shutdown`, empties its own list (otel.go:67), so in the source a second call returns nil after a first call that failed.
- `http.ErrServerClosed` is compared by identity in Go. Here it is its own case of `ServeExit`.
- `APIError.Code` is a Go `int`. Here it is an unbounded integer, and the rendering is proved for all values.

## Findings

| source | as written | input that shows it | evidently intended | confidence | as-written member | corrected member |
|---|---|---|---|---|---|---|
| api.go:86-89 | NewAPIServer appends the logger's Sync and the telemetry provider's Shutdown to a local list, then returns an APIServer without that list, so `shutdownFuncs` is empty | any successful NewAPIServer followed by ShutdownResources(ctx): nothing is called and nil is returned, so the logger is never synced and telemetry is never flushed | the returned server holds the list, and ShutdownResources runs the logger sync then the telemetry shutdown | high; not executed | `Api.RegisteredCleanupsAreLost` | `Api.KeptCleanupsRun` |
