/** Resolution of a call's cache annotations into at most one cache
    `Operation` (`AnnotationProcessor.kt`). */
module AnnotationProcessor {
  import opened Common

  /** The reactive type a call returns. */
  datatype RxType = OBSERVABLE | SINGLE | COMPLETABLE

  /** Simple name of the RxJava class behind an Rx type. */
  function RxClassName(rx: RxType): string {
    match rx
    case OBSERVABLE => "Observable"
    case SINGLE => "Single"
    case COMPLETABLE => "Completable"
  }

  /** `RxType.getTypedName`: the Rx class name, parameterised by the response
      class except for `Completable`, which carries no response. */
  function GetTypedName(rx: RxType, responseClass: ClassRef): (r: string)
    ensures |RxClassName(rx)| <= |r| && r[..|RxClassName(rx)|] == RxClassName(rx)
    ensures rx == COMPLETABLE <==> |r| == |RxClassName(rx)|
  {
    if rx == COMPLETABLE then RxClassName(rx)
    else RxClassName(rx) + "<" + responseClass.SimpleName() + ">"
  }

  /** Reads a typed name back into its Rx type and, unless it is
      `Completable`, the response class's simple name. */
  function ParseTypedName(s: string): Option<(RxType, Option<string>)> {
    if s == "Completable" then Some((COMPLETABLE, None))
    else if 12 <= |s| && s[..11] == "Observable<" && s[|s| - 1] == '>' then
      Some((OBSERVABLE, Some(s[11..|s| - 1])))
    else if 8 <= |s| && s[..7] == "Single<" && s[|s| - 1] == '>' then
      Some((SINGLE, Some(s[7..|s| - 1])))
    else None
  }

  /** The typed-name format can be read back: an Rx class name followed by
      `<name>` yields that Rx type and that name, whatever the name is. */
  lemma TypedNameParses(rx: RxType, name: string)
    requires rx != COMPLETABLE
    ensures ParseTypedName(RxClassName(rx) + "<" + name + ">") == Some((rx, Some(name)))
  {
    var s := RxClassName(rx) + "<" + name + ">";
    match rx
    case OBSERVABLE =>
      assert s[..11] == "Observable<";
      assert s[11..|s| - 1] == name;
      assert s != "Completable" by { assert |s| != 11; }
    case SINGLE =>
      assert s[..7] == "Single<";
      assert s[7..|s| - 1] == name;
      assert s != "Completable" by { assert s[0] != 'C'; }
      assert !(12 <= |s| && s[..11] == "Observable<") by { assert s[0] != 'O'; }
  }

  /** A typed name determines the Rx type and the response class's simple
      name, so the duplicate-annotation message names the call unambiguously. */
  lemma TypedNameRoundTrip(rx: RxType, responseClass: ClassRef)
    ensures ParseTypedName(GetTypedName(rx, responseClass))
         == Some((rx, if rx == COMPLETABLE then None else Some(responseClass.SimpleName())))
  {
    if rx != COMPLETABLE {
      TypedNameParses(rx, responseClass.SimpleName());
    }
  }

  /** An annotation on a call: one of the six cache annotations, with the
      attributes the processor reads, or any other annotation. A nullable
      Boolean attribute is its `OptionalBoolean` value. */
  datatype Annotation =
    | CacheAnnotation(durationInMillis: Int64, connectivityTimeoutInMillis: Int64, freshOnly: bool,
                      mergeOnNextOnError: Option<bool>, encrypt: Option<bool>, compress: Option<bool>)
    | RefreshAnnotation(durationInMillis: Int64, connectivityTimeoutInMillis: Int64, freshOnly: bool,
                        mergeOnNextOnError: Option<bool>)
    | OfflineAnnotation(freshOnly: bool, mergeOnNextOnError: Option<bool>)
    | InvalidateAnnotation(typeToInvalidate: ClassRef)
    | ClearAnnotation(typeToClear: ClassRef, clearStaleEntriesOnly: bool)
    | DoNotCacheAnnotation
    | OtherAnnotation(name: string)

  /** `Operation.Type`. */
  datatype OperationType = CACHE | REFRESH | OFFLINE | INVALIDATE | CLEAR | DO_NOT_CACHE

  /** The cache instruction for one call; `None` class targets mean "no class". */
  datatype Operation =
    | Cache(durationInMillis: Int64, connectivityTimeoutInMillis: Int64, freshOnly: bool,
            mergeOnNextOnError: Option<bool>, encrypt: Option<bool>, compress: Option<bool>)
    | Refresh(durationInMillis: Int64, connectivityTimeoutInMillis: Int64, freshOnly: bool,
              mergeOnNextOnError: Option<bool>)
    | Offline(freshOnly: bool, mergeOnNextOnError: Option<bool>)
    | Invalidate(typeToInvalidate: Option<ClassRef>)
    | Clear(typeToClear: Option<ClassRef>, clearStaleEntriesOnly: bool)
    | DoNotCache
  {
    function Type(): OperationType {
      match this
      case Cache(_, _, _, _, _, _) => CACHE
      case Refresh(_, _, _, _) => REFRESH
      case Offline(_, _) => OFFLINE
      case Invalidate(_) => INVALIDATE
      case Clear(_, _) => CLEAR
      case DoNotCache => DO_NOT_CACHE
    }
  }

  /** The two configured defaults the processor substitutes for the sentinel. */
  datatype Defaults = Defaults(cacheDurationInMillis: Int64, connectivityTimeoutInMillis: Int64)

  /** A `CacheException` of type ANNOTATION; its message names the call's typed
      name, the annotation found and the one already seen. */
  datatype CacheException = AnnotationException(typedName: string, found: OperationType, existing: OperationType)

  /** The `when` in `process` that recognises cache annotations. */
  function AnnotationType(a: Annotation): (r: Option<OperationType>)
    ensures r.None? <==> a.OtherAnnotation?
  {
    match a
    case CacheAnnotation(_, _, _, _, _, _) => Some(CACHE)
    case DoNotCacheAnnotation => Some(DO_NOT_CACHE)
    case InvalidateAnnotation(_) => Some(INVALIDATE)
    case RefreshAnnotation(_, _, _, _) => Some(REFRESH)
    case OfflineAnnotation(_, _) => Some(OFFLINE)
    case ClearAnnotation(_, _) => Some(CLEAR)
    case OtherAnnotation(_) => None
  }

  /** `swapWhen`: the replacement when the condition is exactly true, the
      receiver otherwise (false or null). */
  function SwapWhen<T>(self: Option<T>, ifTrue: Option<T>, condition: Option<T> -> Option<bool>): (r: Option<T>)
    ensures condition(self) == Some(true) ==> r == ifTrue
    ensures condition(self) != Some(true) ==> r == self
  {
    if condition(self) == Some(true) then ifTrue else self
  }

  /** The private `Long.swapWhenDefaultLong`: the sentinel -1 becomes the
      default; every other value, 0 and other negatives included, is kept. */
  function SwapWhenDefaultLong(self: Int64, ifDefault: Int64): (r: Option<Int64>)
    ensures r.Some?
    ensures self == -1 ==> r.value == ifDefault
    ensures self != -1 ==> r.value == self
  {
    SwapWhen(Some(self), Some(ifDefault), x => Some(x == Some(-1)))
  }

  /** The private `Class<*>.swapWhenDefaultClass`: `Any` becomes "no class",
      every other class is kept. */
  function SwapWhenDefaultClass(self: ClassRef): (r: Option<ClassRef>)
    ensures r.None? <==> self == AnyClass
    ensures r.Some? ==> r.value == self
  {
    SwapWhen(Some(self), None, x => Some(x == Some(AnyClass)))
  }

  /** The operation one annotation stands for (the `with(annotation)` block of
      `getOperation`); nothing for an unrelated annotation. */
  function OperationFor(a: Annotation, d: Defaults): (r: Option<Operation>)
    ensures r.None? <==> a.OtherAnnotation?
    ensures r.Some? ==> AnnotationType(a) == Some(r.value.Type())
    ensures a.CacheAnnotation? ==>
      && r.Some? && r.value.Cache?
      && r.value.freshOnly == a.freshOnly && r.value.mergeOnNextOnError == a.mergeOnNextOnError
      && r.value.encrypt == a.encrypt && r.value.compress == a.compress
    ensures a.RefreshAnnotation? ==>
      && r.Some? && r.value.Refresh?
      && r.value.freshOnly == a.freshOnly && r.value.mergeOnNextOnError == a.mergeOnNextOnError
    ensures a.CacheAnnotation? || a.RefreshAnnotation? ==>
      && r.Some? && (r.value.Cache? || r.value.Refresh?)
      && r.value.durationInMillis == (if a.durationInMillis == -1 then d.cacheDurationInMillis else a.durationInMillis)
      && r.value.connectivityTimeoutInMillis
         == (if a.connectivityTimeoutInMillis == -1 then d.connectivityTimeoutInMillis else a.connectivityTimeoutInMillis)
    ensures a.OfflineAnnotation? ==>
      r.Some? && r.value.Offline? && r.value.freshOnly == a.freshOnly && r.value.mergeOnNextOnError == a.mergeOnNextOnError
    ensures a.InvalidateAnnotation? ==>
      && r.Some? && r.value.Invalidate?
      && (r.value.typeToInvalidate.None? <==> a.typeToInvalidate == AnyClass)
      && (r.value.typeToInvalidate.Some? ==> r.value.typeToInvalidate.value == a.typeToInvalidate)
    ensures a.ClearAnnotation? ==>
      && r.Some? && r.value.Clear?
      && (r.value.typeToClear.None? <==> a.typeToClear == AnyClass)
      && (r.value.typeToClear.Some? ==> r.value.typeToClear.value == a.typeToClear)
      && r.value.clearStaleEntriesOnly == a.clearStaleEntriesOnly
    ensures a.DoNotCacheAnnotation? ==> r == Some(DoNotCache)
  {
    match a
    case CacheAnnotation(duration, timeout, freshOnly, merge, encrypt, compress) =>
      Some(Cache(SwapWhenDefaultLong(duration, d.cacheDurationInMillis).value,
                 SwapWhenDefaultLong(timeout, d.connectivityTimeoutInMillis).value,
                 freshOnly, merge, encrypt, compress))
    case RefreshAnnotation(duration, timeout, freshOnly, merge) =>
      Some(Refresh(SwapWhenDefaultLong(duration, d.cacheDurationInMillis).value,
                   SwapWhenDefaultLong(timeout, d.connectivityTimeoutInMillis).value,
                   freshOnly, merge))
    case OfflineAnnotation(freshOnly, merge) => Some(Offline(freshOnly, merge))
    case InvalidateAnnotation(target) => Some(Invalidate(SwapWhenDefaultClass(target)))
    case ClearAnnotation(target, staleOnly) => Some(Clear(SwapWhenDefaultClass(target), staleOnly))
    case DoNotCacheAnnotation => Some(DoNotCache)
    case OtherAnnotation(_) => None
  }

  /** `getOperation`: a cache annotation met after an operation was already
      resolved is an error naming both; otherwise the annotation's operation. */
  function GetOperation(current: Option<Operation>, rx: RxType, responseClass: ClassRef,
                        found: OperationType, a: Annotation, d: Defaults): (r: Result<Option<Operation>, CacheException>)
    ensures r.Failure? <==> current.Some?
    ensures r.Failure? ==> r.error == AnnotationException(GetTypedName(rx, responseClass), found, current.value.Type())
    ensures r.Success? ==> r.value == OperationFor(a, d)
  {
    if current.Some? then
      Failure(AnnotationException(GetTypedName(rx, responseClass), found, current.value.Type()))
    else
      Success(OperationFor(a, d))
  }

  /** The `forEach` of `process`: threads the operation found so far through
      the remaining annotations, stopping at the first exception. */
  function Scan(annotations: seq<Annotation>, operation: Option<Operation>, rx: RxType,
                responseClass: ClassRef, d: Defaults): Result<Option<Operation>, CacheException>
    decreases |annotations|
  {
    if |annotations| == 0 then Success(operation)
    else
      match AnnotationType(annotations[0])
      case None => Scan(annotations[1..], operation, rx, responseClass, d)
      case Some(found) =>
        match GetOperation(operation, rx, responseClass, found, annotations[0], d)
        case Failure(e) => Failure(e)
        case Success(next) => Scan(annotations[1..], next, rx, responseClass, d)
  }

  /** The cache annotations among `annotations`, in order. */
  function CacheAnnotations(annotations: seq<Annotation>): (r: seq<Annotation>)
    ensures |r| <= |annotations|
    ensures forall i :: 0 <= i < |r| ==> AnnotationType(r[i]).Some?
  {
    if |annotations| == 0 then []
    else (if annotations[0].OtherAnnotation? then [] else [annotations[0]]) + CacheAnnotations(annotations[1..])
  }

  /** Keeping the cache annotations distributes over concatenation. */
  lemma {:induction false} CacheAnnotationsConcat(a: seq<Annotation>, b: seq<Annotation>)
    ensures CacheAnnotations(a + b) == CacheAnnotations(a) + CacheAnnotations(b)
    decreases |a|
  {
    if |a| == 0 {
      assert a + b == b;
    } else {
      assert (a + b)[1..] == a[1..] + b;
      CacheAnnotationsConcat(a[1..], b);
    }
  }

  /** Keeping the cache annotations twice is keeping them once. */
  lemma {:induction false} CacheAnnotationsIdempotent(a: seq<Annotation>)
    ensures CacheAnnotations(CacheAnnotations(a)) == CacheAnnotations(a)
    decreases |a|
  {
    if |a| != 0 {
      var head := if a[0].OtherAnnotation? then [] else [a[0]];
      CacheAnnotationsConcat(head, CacheAnnotations(a[1..]));
      CacheAnnotationsIdempotent(a[1..]);
      if !a[0].OtherAnnotation? {
        assert head[1..] == [];
      }
    }
  }

  /** Once an operation is resolved, the next cache annotation raises an error
      naming it as found and the resolved one as existing. */
  lemma {:induction false} ScanAfterOperation(annotations: seq<Annotation>, op: Operation, rx: RxType,
                                              responseClass: ClassRef, d: Defaults)
    ensures var cached := CacheAnnotations(annotations);
      Scan(annotations, Some(op), rx, responseClass, d)
      == if |cached| == 0 then Success(Some(op))
         else Failure(AnnotationException(GetTypedName(rx, responseClass), AnnotationType(cached[0]).value, op.Type()))
    decreases |annotations|
  {
    if |annotations| != 0 && annotations[0].OtherAnnotation? {
      ScanAfterOperation(annotations[1..], op, rx, responseClass, d);
    }
  }

  /** The outcome `process` promises, stated over the cache annotations only:
      none gives no operation, one gives its operation, more than one gives
      the duplicate error for the first two. */
  function Expected(annotations: seq<Annotation>, rx: RxType, responseClass: ClassRef, d: Defaults)
    : Result<Option<Operation>, CacheException>
  {
    var cached := CacheAnnotations(annotations);
    if |cached| == 0 then Success(None)
    else if |cached| == 1 then Success(OperationFor(cached[0], d))
    else Failure(AnnotationException(GetTypedName(rx, responseClass),
                                     AnnotationType(cached[1]).value, AnnotationType(cached[0]).value))
  }

  lemma {:induction false} ScanMatchesExpected(annotations: seq<Annotation>, rx: RxType,
                                               responseClass: ClassRef, d: Defaults)
    ensures Scan(annotations, None, rx, responseClass, d) == Expected(annotations, rx, responseClass, d)
    decreases |annotations|
  {
    if |annotations| != 0 {
      var rest := annotations[1..];
      if annotations[0].OtherAnnotation? {
        ScanMatchesExpected(rest, rx, responseClass, d);
      } else {
        var op := OperationFor(annotations[0], d).value;
        ScanAfterOperation(rest, op, rx, responseClass, d);
        assert CacheAnnotations(annotations) == [annotations[0]] + CacheAnnotations(rest);
      }
    }
  }

  /** `process`: the single operation the call's annotations ask for, none, or
      the exception for a second cache annotation (a repeat of the same kind
      included). */
  function Process(annotations: seq<Annotation>, rx: RxType, responseClass: ClassRef, d: Defaults)
    : (r: Result<Option<Operation>, CacheException>)
    ensures r.Failure? <==> |CacheAnnotations(annotations)| >= 2
    ensures |CacheAnnotations(annotations)| == 0 ==> r == Success(None)
    ensures |CacheAnnotations(annotations)| == 1 ==>
      r.Success? && r.value.Some? && AnnotationType(CacheAnnotations(annotations)[0]) == Some(r.value.value.Type())
      && r.value == OperationFor(CacheAnnotations(annotations)[0], d)
    ensures r.Failure? ==>
      && r.error.typedName == GetTypedName(rx, responseClass)
      && Some(r.error.existing) == AnnotationType(CacheAnnotations(annotations)[0])
      && Some(r.error.found) == AnnotationType(CacheAnnotations(annotations)[1])
  {
    ScanMatchesExpected(annotations, rx, responseClass, d);
    Scan(annotations, None, rx, responseClass, d)
  }

  /** `process` depends on the cache annotations alone. */
  lemma ProcessDependsOnCacheAnnotations(a: seq<Annotation>, b: seq<Annotation>, rx: RxType,
                                         responseClass: ClassRef, d: Defaults)
    requires CacheAnnotations(a) == CacheAnnotations(b)
    ensures Process(a, rx, responseClass, d) == Process(b, rx, responseClass, d)
  {
  }

  lemma {:induction false} InsertingUnrelatedKeepsCacheAnnotations(annotations: seq<Annotation>, k: nat, n: string)
    requires k <= |annotations|
    ensures CacheAnnotations(annotations[..k] + [OtherAnnotation(n)] + annotations[k..]) == CacheAnnotations(annotations)
  {
    var front, back, other := annotations[..k], annotations[k..], [OtherAnnotation(n)];
    assert CacheAnnotations(other) == [] by {
      assert other[1..] == [];
    }
    CacheAnnotationsConcat(front + other, back);
    CacheAnnotationsConcat(front, other);
    CacheAnnotationsConcat(front, back);
    assert CacheAnnotations(front + other) == CacheAnnotations(front);
    assert front + back == annotations;
  }

  /** Unrelated annotations never change the outcome: `process` sees only the
      cache annotations, wherever the others sit. */
  lemma {:induction false} ProcessIgnoresUnrelated(annotations: seq<Annotation>, k: nat, n: string, rx: RxType,
                                responseClass: ClassRef, d: Defaults)
    requires k <= |annotations|
    ensures Process(annotations, rx, responseClass, d) == Process(CacheAnnotations(annotations), rx, responseClass, d)
    ensures Process(annotations[..k] + [OtherAnnotation(n)] + annotations[k..], rx, responseClass, d)
         == Process(annotations, rx, responseClass, d)
  {
    CacheAnnotationsIdempotent(annotations);
    ProcessDependsOnCacheAnnotations(annotations, CacheAnnotations(annotations), rx, responseClass, d);
    var withOther := annotations[..k] + [OtherAnnotation(n)] + annotations[k..];
    InsertingUnrelatedKeepsCacheAnnotations(annotations, k, n);
    ProcessDependsOnCacheAnnotations(withOther, annotations, rx, responseClass, d);
  }
}
