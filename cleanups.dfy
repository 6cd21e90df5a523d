/** The cleanup-registry pattern shared by APIServer.ShutdownResources
    (api.go) and OTelProvider.Shutdown (otel.go): a list of
    `func(context.Context) error` run in order under one context, their
    errors folded together with errors.Join. */
module Cleanups {
  import opened Wrappers
  import opened Errors

  /** The context.Context handed to every cleanup of one run. */
  datatype Ctx = Ctx(deadline: nat)

  /** A registered cleanup function; the name only labels the call log. */
  datatype Cleanup = Cleanup(name: string, run: Ctx -> Option<Err>)

  /** One invocation of a cleanup, as recorded in a call log. */
  datatype Call = Call(name: string, ctx: Ctx)

  /** What each cleanup returns when called with ctx, in list order. */
  function Outcomes(fns: seq<Cleanup>, ctx: Ctx): (os: seq<Option<Err>>)
    ensures |os| == |fns|
    ensures forall i :: 0 <= i < |fns| ==> os[i] == fns[i].run(ctx)
  {
    seq(|fns|, i requires 0 <= i < |fns| => fns[i].run(ctx))
  }

  /** One call per cleanup, in list order, all with the same ctx. */
  function Invocations(fns: seq<Cleanup>, ctx: Ctx): (calls: seq<Call>)
    ensures |calls| == |fns|
    ensures forall i :: 0 <= i < |fns| ==> calls[i] == Call(fns[i].name, ctx)
  {
    seq(|fns|, i requires 0 <= i < |fns| => Call(fns[i].name, ctx))
  }

  /** The error the loop `err = errors.Join(err, fn(ctx))` holds after
      seeing the results os, starting from a nil err. */
  function Accumulate(os: seq<Option<Err>>): Option<Err> {
    if |os| == 0 then None
    else Join([Accumulate(os[..|os| - 1]), os[|os| - 1]])
  }

  lemma PresentOfPair(x: Option<Err>, y: Option<Err>)
    ensures Present([x, y]) == (if x.Some? then [x.value] else []) + (if y.Some? then [y.value] else [])
  {
    assert [x, y][..1] == [x];
    assert [x][..0] == [];
  }

  lemma {:induction false} FlattenAllAppend(a: seq<Err>, b: seq<Err>)
    ensures FlattenAll(a + b) == FlattenAll(a) + FlattenAll(b)
  {
    if |a| == 0 {
      assert a + b == b;
    } else {
      assert (a + b)[0] == a[0];
      assert (a + b)[1..] == a[1..] + b;
      FlattenAllAppend(a[1..], b);
    }
  }

  lemma FlattenAllSingle(e: Err)
    ensures FlattenAll([e]) == Flatten(e)
  {
    assert [e][1..] == [];
  }

  /** The aggregate is nil exactly when every cleanup returned nil. */
  lemma {:induction false} AccumulateNilIff(os: seq<Option<Err>>)
    ensures Accumulate(os) == None <==> forall i :: 0 <= i < |os| ==> os[i] == None
  {
    if |os| > 0 {
      var init, last := os[..|os| - 1], os[|os| - 1];
      AccumulateNilIff(init);
      PresentOfPair(Accumulate(init), last);
      if forall i :: 0 <= i < |init| ==> init[i] == None {
        assert forall i :: 0 <= i < |os| - 1 ==> os[i] == init[i];
      }
    }
  }

  /** No error is dropped or reordered: the errors inside the aggregate are
      those inside the non-nil results, in call order. */
  lemma {:induction false} AccumulateKeepsAllErrors(os: seq<Option<Err>>)
    ensures FlattenOpt(Accumulate(os)) == FlattenAll(Present(os))
  {
    if |os| > 0 {
      var init, last := os[..|os| - 1], os[|os| - 1];
      var acc := Accumulate(init);
      AccumulateKeepsAllErrors(init);
      PresentOfPair(acc, last);
      var accPart: seq<Err> := if acc.Some? then [acc.value] else [];
      var lastPart: seq<Err> := if last.Some? then [last.value] else [];
      if acc.Some? || last.Some? {
        FlattenAllAppend(accPart, lastPart);
        if acc.Some? { FlattenAllSingle(acc.value); }
        if last.Some? { FlattenAllSingle(last.value); }
      }
      FlattenAllAppend(Present(init), lastPart);
      if last.Some? { FlattenAllSingle(last.value); }
    }
  }

  /** With three cleanups of which only the second fails, all three run in
      order and the aggregate holds the second one's error and nothing else. */
  lemma OnlyTheFailureIsReported(a: Cleanup, b: Cleanup, c: Cleanup, ctx: Ctx, e: Err)
    requires a.run(ctx) == None && b.run(ctx) == Some(e) && c.run(ctx) == None
    requires !e.Joined?
    ensures Invocations([a, b, c], ctx) == [Call(a.name, ctx), Call(b.name, ctx), Call(c.name, ctx)]
    ensures Accumulate(Outcomes([a, b, c], ctx)).Some?
    ensures FlattenOpt(Accumulate(Outcomes([a, b, c], ctx))) == [e]
  {
    var os := Outcomes([a, b, c], ctx);
    assert os == [None, Some(e), None];
    AccumulateKeepsAllErrors(os);
    assert os[..2] == [None, Some(e)];
    assert os[..1] == [None];
    assert os[..0] == [];
    assert Present(os[..1]) == [];
    assert Present(os[..2]) == [e];
    assert Present(os) == [e];
    FlattenAllSingle(e);
    AccumulateNilIff(os);
  }
}
