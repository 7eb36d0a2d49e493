/** The "first defined answer wins" search that both dispatch loops perform: the engine's loop
    over its request handlers (src/json_rpc/client.ts:41-50) and the per-method loop of the
    session's request dispatcher (src/client.ts:17-22). A handler answers `None` for
    `undefined`; any `Some`, `Some(Null)` included, stops the search. */
module Handlers {
  import opened Wrappers

  /** The position of the first handler whose answer on `x` is defined, or `|hs|` when no
      handler defines one. The handlers at positions up to and including it are the ones
      the loop calls. */
  function FirstDefinedIndex<A, B>(hs: seq<A -> Option<B>>, x: A): (k: nat)
    ensures k <= |hs|
    ensures forall j :: 0 <= j < k ==> hs[j](x).None?
    ensures k < |hs| ==> hs[k](x).Some?
  {
    if |hs| == 0 then 0
    else if hs[0](x).Some? then 0
    else 1 + FirstDefinedIndex(hs[1..], x)
  }

  /** The answer of the search: the first defined answer, or `None`. */
  function FirstDefined<A, B>(hs: seq<A -> Option<B>>, x: A): Option<B> {
    var k := FirstDefinedIndex(hs, x);
    if k < |hs| then hs[k](x) else None
  }

  /** The two properties of the index pin it down: a position after only undefined answers
      and at a defined one (or at the end) is the index. */
  lemma FirstDefinedIndexIs<A, B>(hs: seq<A -> Option<B>>, x: A, i: nat)
    requires i <= |hs|
    requires forall j :: 0 <= j < i ==> hs[j](x).None?
    requires i < |hs| ==> hs[i](x).Some?
    ensures FirstDefinedIndex(hs, x) == i
  {
  }

  /** The answer is defined exactly when some handler defines one, and then it is the answer
      of a handler that every earlier handler passed over. */
  lemma FirstDefinedMeaning<A, B>(hs: seq<A -> Option<B>>, x: A)
    ensures FirstDefined(hs, x).Some? <==> exists j :: 0 <= j < |hs| && hs[j](x).Some?
    ensures FirstDefined(hs, x).Some? ==>
      exists j :: 0 <= j < |hs| && hs[j](x) == FirstDefined(hs, x)
                  && forall i :: 0 <= i < j ==> hs[i](x).None?
  {
    var k := FirstDefinedIndex(hs, x);
    if k < |hs| {
      assert hs[k](x) == FirstDefined(hs, x);
    }
  }

  /** Appending a handler never changes a search that already had an answer; otherwise the new
      handler's answer is the answer. Subscribing late cannot pre-empt earlier handlers. */
  lemma FirstDefinedAppend<A, B>(hs: seq<A -> Option<B>>, h: A -> Option<B>, x: A)
    ensures FirstDefined(hs + [h], x) == if FirstDefined(hs, x).Some? then FirstDefined(hs, x) else h(x)
  {
    var k := FirstDefinedIndex(hs, x);
    var hs' := hs + [h];
    assert forall j :: 0 <= j < k ==> hs'[j](x) == hs[j](x);
    if k < |hs| {
      assert hs'[k](x) == hs[k](x);
      FirstDefinedIndexIs(hs', x, k);
    } else if h(x).Some? {
      FirstDefinedIndexIs(hs', x, k);
    } else {
      FirstDefinedIndexIs(hs', x, k + 1);
    }
  }
}
