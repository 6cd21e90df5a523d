/** The telemetry provider of otel.go, reduced to its cleanup list: the
    tracer provider's and the meter provider's Shutdown, registered in that
    order by NewOTelProvider and run once by OTelProvider.Shutdown. */
module Otel {
  import opened Wrappers
  import opened Errors
  import opened Cleanups

  /** A provider NewOTelProvider tried to build. */
  datatype Step = BuildTracerProvider | BuildMeterProvider

  /** The `(*OTelProvider, error)` pair NewOTelProvider returns. */
  datatype Created = Created(provider: OTelProvider) | NotCreated(err: Err)

  class OTelProvider {
    /** The registered cleanups; Shutdown sets the list to nil. */
    var shutdownFuncs: seq<Cleanup>
    /** Every cleanup invocation this provider has made. */
    ghost var calls: seq<Call>

    constructor (fns: seq<Cleanup>)
      ensures shutdownFuncs == fns && calls == []
    {
      shutdownFuncs := fns;
      calls := [];
    }

    /** Runs every registered cleanup once, in order, with the same ctx,
        joins their errors without stopping at the first, and empties the
        list whatever the results. */
    method Shutdown(ctx: Ctx) returns (err: Option<Err>)
      modifies this
      ensures err == Accumulate(Outcomes(old(shutdownFuncs), ctx))
      ensures calls == old(calls) + Invocations(old(shutdownFuncs), ctx)
      ensures shutdownFuncs == []
    {
      err := None;
      var i := 0;
      while i < |shutdownFuncs|
        invariant 0 <= i <= |shutdownFuncs|
        invariant shutdownFuncs == old(shutdownFuncs)
        invariant err == Accumulate(Outcomes(shutdownFuncs[..i], ctx))
        invariant calls == old(calls) + Invocations(shutdownFuncs[..i], ctx)
      {
        var fn := shutdownFuncs[i];
        err := Join([err, fn.run(ctx)]);
        calls := calls + [Call(fn.name, ctx)];
        i := i + 1;
        assert Outcomes(shutdownFuncs[..i], ctx)[..i - 1] == Outcomes(shutdownFuncs[..i - 1], ctx);
      }
      assert shutdownFuncs[..i] == shutdownFuncs;
      shutdownFuncs := [];
    }
  }

  /** NewOTelProvider, given what building each provider returns (its
      Shutdown as a cleanup, or the error): a tracer failure returns before
      the meter provider is built; on success the tracer's cleanup is
      registered before the meter's. */
  method NewOTelProvider(tracer: Result<Cleanup, Err>, meter: Result<Cleanup, Err>)
    returns (r: Created, ghost steps: seq<Step>)
    ensures tracer.Failure? ==> r == NotCreated(tracer.error) && steps == [BuildTracerProvider]
    ensures tracer.Success? ==> steps == [BuildTracerProvider, BuildMeterProvider]
    ensures tracer.Success? && meter.Failure? ==> r == NotCreated(meter.error)
    ensures tracer.Success? && meter.Success? ==>
      r.Created? && fresh(r.provider) &&
      r.provider.shutdownFuncs == [tracer.value, meter.value] && r.provider.calls == []
  {
    steps := [BuildTracerProvider];
    if tracer.Failure? {
      return NotCreated(tracer.error), steps;
    }
    steps := steps + [BuildMeterProvider];
    if meter.Failure? {
      return NotCreated(meter.error), steps;
    }
    var fns := [];
    fns := fns + [tracer.value];
    fns := fns + [meter.value];
    var p := new OTelProvider(fns);
    r := Created(p);
  }

  /** Shutdown is idempotent: a second call invokes nothing and returns nil. */
  method ShutdownTwice(p: OTelProvider, ctx: Ctx) returns (first: Option<Err>, second: Option<Err>)
    modifies p
    ensures first == Accumulate(Outcomes(old(p.shutdownFuncs), ctx))
    ensures second == None
    ensures p.calls == old(p.calls) + Invocations(old(p.shutdownFuncs), ctx)
    ensures p.shutdownFuncs == []
  {
    first := p.Shutdown(ctx);
    ghost var afterFirst := p.calls;
    second := p.Shutdown(ctx);
    assert p.calls == afterFirst;
  }
}
