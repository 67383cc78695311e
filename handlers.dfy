/**
  `handlers.forEach(h => h(...))` over a JavaScript Set of handlers. Handlers are
  opaque; the model only knows, per message, which of them throw. An exception ends
  the forEach: the handlers after the throwing one are not called.
*/
module Handlers {
  import opened Js

  /** The handlers called, in insertion order, when the handlers in `throwing` throw. */
  function CalledUntilThrow(hs: seq<HandlerId>, throwing: set<HandlerId>): seq<HandlerId> {
    if hs == [] then []
    else if hs[0] in throwing then [hs[0]]
    else [hs[0]] + CalledUntilThrow(hs[1..], throwing)
  }

  predicate AnyThrows(hs: seq<HandlerId>, throwing: set<HandlerId>) {
    exists i | 0 <= i < |hs| :: hs[i] in throwing
  }

  /** When no handler throws, every handler is called once, in insertion order. */
  lemma {:induction false} NoThrowCallsAll(hs: seq<HandlerId>, throwing: set<HandlerId>)
    requires !AnyThrows(hs, throwing)
    ensures CalledUntilThrow(hs, throwing) == hs
  {
    if hs != [] {
      assert hs[0] !in throwing;
      assert !AnyThrows(hs[1..], throwing) by {
        forall i | 0 <= i < |hs[1..]| ensures hs[1..][i] !in throwing {
          assert hs[1..][i] == hs[i + 1];
        }
      }
      NoThrowCallsAll(hs[1..], throwing);
    }
  }

  /** The first throwing handler is the last one called. */
  lemma {:induction false} ThrowStopsAtFirst(hs: seq<HandlerId>, throwing: set<HandlerId>, k: nat)
    requires k < |hs| && hs[k] in throwing
    requires forall i | 0 <= i < k :: hs[i] !in throwing
    ensures CalledUntilThrow(hs, throwing) == hs[..k + 1]
  {
    if k > 0 {
      assert hs[0] !in throwing;
      ThrowStopsAtFirst(hs[1..], throwing, k - 1);
      assert [hs[0]] + hs[1..][..k] == hs[..k + 1];
    }
  }

  /** The forEach loop itself: `called` are the handlers invoked, `threw` whether an
      exception escaped it. */
  method Dispatch(hs: seq<HandlerId>, throwing: set<HandlerId>) returns (called: seq<HandlerId>, threw: bool)
    ensures called == CalledUntilThrow(hs, throwing)
    ensures threw <==> AnyThrows(hs, throwing)
    ensures !threw ==> called == hs
  {
    called, threw := [], false;
    var i := 0;
    while i < |hs| && !threw
      invariant 0 <= i <= |hs|
      invariant called == hs[..i]
      invariant !threw ==> forall k | 0 <= k < i :: hs[k] !in throwing
      invariant threw ==> 0 < i && hs[i - 1] in throwing && forall k | 0 <= k < i - 1 :: hs[k] !in throwing
    {
      called := called + [hs[i]];
      threw := hs[i] in throwing;
      i := i + 1;
    }
    if threw {
      ThrowStopsAtFirst(hs, throwing, i - 1);
    } else {
      NoThrowCallsAll(hs, throwing);
    }
  }
}
