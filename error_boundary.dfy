/**
 * `ErrorBoundary`: a one-bit latch.  A render pass in which a descendant
 * throws sets `hasError`; nothing clears it, and while it is set the
 * boundary shows a fixed apology instead of its children.
 */
module Boundary {

  const ApologyText: string := "Something went wrong. Please try again later."

  /** What the boundary shows. */
  datatype Shown<C> = Fallback(message: string) | Children(content: C)

  /** One render pass of the boundary's descendants: their output, or a throw. */
  datatype ChildPass<C> = Rendered(content: C) | Threw

  /** `hasError` after a pass: `getDerivedStateFromError` sets it, nothing resets it. */
  function Latch<C>(hasError: bool, pass: ChildPass<C>): (after: bool)
    ensures after <==> hasError || pass.Threw?
  {
    if pass.Threw? then true else hasError
  }

  /** What a pass shows: the apology once the latch is set, the children otherwise. */
  function Output<C>(hasError: bool, pass: ChildPass<C>): (r: Shown<C>)
    ensures r.Fallback? <==> Latch(hasError, pass)
    ensures r.Fallback? ==> r.message == ApologyText
    ensures r.Children? ==> pass == Rendered(r.content)
  {
    if Latch(hasError, pass) then Fallback(ApologyText) else Children(pass.content)
  }

  /** What a sequence of passes shows, one entry per pass. */
  function Outputs<C>(hasError: bool, passes: seq<ChildPass<C>>): (out: seq<Shown<C>>)
    ensures |out| == |passes|
    decreases |passes|
  {
    if passes == [] then []
    else [Output(hasError, passes[0])] + Outputs(Latch(hasError, passes[0]), passes[1..])
  }

  /** `hasError` after a sequence of passes. */
  function LatchAll<C>(hasError: bool, passes: seq<ChildPass<C>>): bool
    decreases |passes|
  {
    if passes == [] then hasError else LatchAll(Latch(hasError, passes[0]), passes[1..])
  }

  /** Starting clear, the latch ends set exactly when some pass threw. */
  lemma {:induction false} LatchAllIff<C>(hasError: bool, passes: seq<ChildPass<C>>)
    ensures LatchAll(hasError, passes) <==> hasError || exists k :: 0 <= k < |passes| && passes[k].Threw?
    decreases |passes|
  {
    if passes != [] {
      LatchAllIff(Latch(hasError, passes[0]), passes[1..]);
      if exists k :: 0 <= k < |passes[1..]| && passes[1..][k].Threw? {
        var k :| 0 <= k < |passes[1..]| && passes[1..][k].Threw?;
        assert passes[k + 1].Threw?;
      }
      if exists k :: 0 <= k < |passes| && passes[k].Threw? {
        var k :| 0 <= k < |passes| && passes[k].Threw?;
        if k > 0 {
          assert passes[1..][k - 1].Threw?;
        }
      }
    }
  }

  /** Once set, the latch stays set and every later pass shows the apology. */
  lemma {:induction false} LatchedStaysApology<C>(passes: seq<ChildPass<C>>)
    ensures LatchAll(true, passes)
    ensures forall j :: 0 <= j < |passes| ==> Outputs(true, passes)[j] == Fallback(ApologyText)
    decreases |passes|
  {
    if passes != [] {
      LatchedStaysApology(passes[1..]);
      var out := Outputs(true, passes);
      assert out == [Fallback(ApologyText)] + Outputs(true, passes[1..]);
      forall j | 0 <= j < |passes| ensures out[j] == Fallback(ApologyText) {
        if j > 0 {
          assert out[j] == Outputs(true, passes[1..])[j - 1];
        }
      }
    }
  }

  /** A pass that throws switches the view to the apology from that pass on. */
  lemma {:induction false} ThrowIsTerminal<C>(hasError: bool, passes: seq<ChildPass<C>>, k: nat)
    requires k < |passes| && passes[k].Threw?
    ensures forall j :: k <= j < |passes| ==> Outputs(hasError, passes)[j] == Fallback(ApologyText)
    decreases |passes|
  {
    var out := Outputs(hasError, passes);
    var tail := Outputs(Latch(hasError, passes[0]), passes[1..]);
    assert out == [Output(hasError, passes[0])] + tail;
    if k == 0 {
      LatchedStaysApology(passes[1..]);
    } else {
      ThrowIsTerminal(Latch(hasError, passes[0]), passes[1..], k - 1);
    }
    forall j | k <= j < |passes| ensures out[j] == Fallback(ApologyText) {
      if j > 0 {
        assert out[j] == tail[j - 1];
      }
    }
  }

  class ErrorBoundary {
    var hasError: bool

    /** `state = { hasError: false }`. */
    constructor ()
      ensures !hasError
    {
      hasError := false;
    }

    /** The state update of `getDerivedStateFromError`. */
    method GetDerivedStateFromError()
      modifies this
      ensures hasError
    {
      hasError := true;
    }

    /** `render`: the apology while `hasError` is set, the children otherwise. */
    function Render<C>(children: C): (r: Shown<C>)
      reads this
      ensures r.Fallback? <==> hasError
      ensures r.Fallback? ==> r.message == ApologyText
      ensures r.Children? ==> r.content == children
    {
      if hasError then Fallback(ApologyText) else Children(children)
    }

    /** A render pass: a throw from below is caught by setting the latch, then the boundary renders. */
    method RenderPass<C>(pass: ChildPass<C>) returns (shown: Shown<C>)
      modifies this
      ensures hasError == Latch(old(hasError), pass)
      ensures shown == Output(old(hasError), pass)
    {
      if pass.Threw? {
        GetDerivedStateFromError();
        shown := Fallback(ApologyText);
      } else {
        shown := Render(pass.content);
      }
    }
  }

}
