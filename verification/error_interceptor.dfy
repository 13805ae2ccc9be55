/** The error-wrapping stage at the head of the interceptor chain
    (`ErrorInterceptor.kt`), over a finite upstream: a sequence of items
    followed by completion or an error. */
module ErrorInterceptor {
  import opened Common
  import AnnotationProcessor

  /** The part of the call's instruction the stage reads. */
  datatype CacheInstruction = CacheInstruction(responseClass: ClassRef, operation: AnnotationProcessor.Operation)

  /** The call's instruction token, threaded unchanged through the stage. */
  datatype CacheToken = CacheToken(instruction: CacheInstruction)

  /** Disk, network and total call durations. */
  datatype Duration = Duration(disk: int, network: int, total: int)

  /** `CacheMetadata`: the token, the converted exception if any, and timings. */
  datatype CacheMetadata<E> = CacheMetadata(cacheToken: CacheToken, exception: Option<E>, callDuration: Duration)

  /** `ResponseWrapper`: the response class, the response (null for an error)
      and its metadata. */
  datatype ResponseWrapper<V, E> = ResponseWrapper(responseClass: ClassRef, response: Option<V>, metadata: CacheMetadata<E>)

  /** An upstream emission: a wrapper produced further up, or a raw response.
      The value of `Raw` is never itself a wrapper: the stage's type test lets
      every wrapper through as `Wrapped`. */
  datatype Emission<V, E> = Wrapped(wrapper: ResponseWrapper<V, E>) | Raw(value: V)

  /** How a finite stream ends. */
  datatype Termination<X> = Complete | Error(throwable: X)

  /** A finite reactive stream: its items, then one terminal event. */
  datatype Stream<T, X> = Stream(items: seq<T>, end: Termination<X>)

  /** `Duration(0, 0, 0)`, the timings of every wrapper the stage builds. */
  const ZeroDuration := Duration(0, 0, 0)

  /** Rx `map`: every item transformed in order, the terminal event kept. */
  function Map<A, B, X>(f: A -> B, s: Stream<A, X>): (r: Stream<B, X>)
    ensures |r.items| == |s.items| && r.end == s.end
    ensures forall i :: 0 <= i < |s.items| ==> r.items[i] == f(s.items[i])
  {
    Stream(seq(|s.items|, i requires 0 <= i < |s.items| => f(s.items[i])), s.end)
  }

  /** Rx `onErrorResumeNext`: an error is replaced by the stream the handler
      builds from it; a completed stream is left alone. */
  function OnErrorResumeNext<T, X>(s: Stream<T, X>, resume: X -> Stream<T, X>): (r: Stream<T, X>)
    ensures s.end.Complete? ==> r == s
    ensures s.end.Error? ==> r.items == s.items + resume(s.end.throwable).items && r.end == resume(s.end.throwable).end
  {
    match s.end
    case Complete => s
    case Error(t) => Stream(s.items + resume(t).items, resume(t).end)
  }

  /** The stage's `map`: a wrapper passes through, a raw response is wrapped. */
  function WrapEmission<V, E>(token: CacheToken, emission: Emission<V, E>): ResponseWrapper<V, E> {
    match emission
    case Wrapped(w) => w
    case Raw(v) => ResponseWrapper(token.instruction.responseClass, Some(v), CacheMetadata(token, None, ZeroDuration))
  }

  /** The stage's error handler: one wrapper with no response and the
      converted exception, then completion. */
  function WrapError<V, E, X>(token: CacheToken, errorFactory: X -> E, t: X): Stream<ResponseWrapper<V, E>, X> {
    Stream([ResponseWrapper(token.instruction.responseClass, None, CacheMetadata(token, Some(errorFactory(t)), ZeroDuration))],
           Complete)
  }

  /** A wrapper built by this stage from a raw response. */
  ghost predicate WrapsResponse<V, E>(w: ResponseWrapper<V, E>, token: CacheToken, v: V) {
    && w.responseClass == token.instruction.responseClass
    && w.response == Some(v)
    && w.metadata.cacheToken == token
    && w.metadata.exception == None
    && w.metadata.callDuration == ZeroDuration
  }

  /** A wrapper built by this stage from an upstream error. */
  ghost predicate WrapsError<V, E>(w: ResponseWrapper<V, E>, token: CacheToken, e: E) {
    && w.responseClass == token.instruction.responseClass
    && w.response == None
    && w.metadata.cacheToken == token
    && w.metadata.exception == Some(e)
    && w.metadata.callDuration == ZeroDuration
  }

  /** `apply`: the upstream mapped to wrappers, with an upstream error turned
      into one trailing error wrapper followed by normal completion. */
  function Apply<V, E, X>(token: CacheToken, errorFactory: X -> E, upstream: Stream<Emission<V, E>, X>)
    : (r: Stream<ResponseWrapper<V, E>, X>)
    ensures r.end == Complete
    ensures |r.items| == |upstream.items| + (if upstream.end.Error? then 1 else 0)
    ensures forall i :: 0 <= i < |upstream.items| && upstream.items[i].Wrapped? ==>
      r.items[i] == upstream.items[i].wrapper
    ensures forall i :: 0 <= i < |upstream.items| && upstream.items[i].Raw? ==>
      WrapsResponse(r.items[i], token, upstream.items[i].value)
    ensures upstream.end.Error? ==>
      WrapsError(r.items[|upstream.items|], token, errorFactory(upstream.end.throwable))
  {
    OnErrorResumeNext(Map(e => WrapEmission(token, e), upstream), t => WrapError(token, errorFactory, t))
  }

  /** Every wrapper the stage creates carries its token: only wrappers that
      arrived already built can carry another. */
  lemma CreatedWrappersCarryToken<V, E, X>(token: CacheToken, errorFactory: X -> E, upstream: Stream<Emission<V, E>, X>)
    ensures var out := Apply(token, errorFactory, upstream);
      forall i :: 0 <= i < |out.items| && out.items[i].metadata.cacheToken != token ==>
        i < |upstream.items| && upstream.items[i].Wrapped? && upstream.items[i].wrapper == out.items[i]
  {
  }

  /** The stage treats items one at a time: the output for a stream split
      anywhere is the output for its completed front followed by the output
      for the rest. */
  lemma ApplySplits<V, E, X>(token: CacheToken, errorFactory: X -> E,
                         front: seq<Emission<V, E>>, back: seq<Emission<V, E>>, end: Termination<X>)
    ensures Apply(token, errorFactory, Stream(front + back, end)).items
         == Apply(token, errorFactory, Stream(front, Complete)).items + Apply(token, errorFactory, Stream(back, end)).items
  {
  }

  /** The items of a stage's output, re-emitted upstream. */
  function AsEmissions<V, E, X>(s: Stream<ResponseWrapper<V, E>, X>): Stream<Emission<V, E>, X> {
    Map(w => Wrapped(w), s)
  }

  /** Running the stage on its own output changes nothing: everything it
      emits is already a wrapper, and it never ends with an error. */
  lemma ApplyIdempotent<V, E, X>(token: CacheToken, errorFactory: X -> E, upstream: Stream<Emission<V, E>, X>)
    ensures var out := Apply(token, errorFactory, upstream);
      Apply(token, errorFactory, AsEmissions(out)) == out
  {
  }
}
