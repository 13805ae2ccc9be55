/** The nullable-value combinators of the library's `Utils.kt`. A Kotlin
    lambda over a nullable receiver is a total Dafny function over `Option`;
    a `Boolean?` condition counts as true only when it is `Some(true)`. */
module Utils {
  import opened Common

  /** `isAnyNullable`: whether the receiver is non-null and `matches` holds
      of one of the values. The values are tried in order and the scan stops at
      the first hit; `evaluated` is the number of times `matches` ran. */
  method IsAnyNullable<T, V>(receiver: Option<T>, matches: Option<V> -> bool, values: seq<Option<V>>)
    returns (r: bool, evaluated: nat)
    ensures r <==> receiver.Some? && exists i :: 0 <= i < |values| && matches(values[i])
    ensures receiver.None? ==> evaluated == 0
    ensures r ==> 0 < evaluated <= |values| && matches(values[evaluated - 1])
    ensures forall i :: 0 <= i < evaluated - 1 && i < |values| ==> !matches(values[i])
    ensures receiver.Some? && !r ==> evaluated == |values|
  {
    r, evaluated := false, 0;
    if receiver.Some? {
      var i := 0;
      while i < |values|
        invariant 0 <= i <= |values|
        invariant evaluated == i
        invariant forall j :: 0 <= j < i ==> !matches(values[j])
      {
        evaluated := evaluated + 1;
        if matches(values[i]) {
          r := true;
          return;
        }
        i := i + 1;
      }
    }
  }

  /** `swapLambdaWhen(condition: (T?) -> Boolean?, ifTrue)`. */
  function SwapLambdaWhen<T>(self: Option<T>, condition: Option<T> -> Option<bool>, ifTrue: Option<T> -> Option<T>): (r: Option<T>)
    ensures condition(self) == Some(true) ==> r == ifTrue(self)
    ensures condition(self) == Some(false) ==> r == self
    ensures condition(self) == None ==> r == self
  {
    if condition(self) == Some(true) then ifTrue(self) else self
  }

  /** `swapLambdaWhen(condition: Boolean?, ifTrue)`, which forwards to the
      lambda overload with a condition that ignores its argument. */
  function SwapLambdaWhenFlag<T>(self: Option<T>, condition: Option<bool>, ifTrue: Option<T> -> Option<T>): (r: Option<T>)
    ensures condition == Some(true) ==> r == ifTrue(self)
    ensures condition != Some(true) ==> r == self
  {
    SwapLambdaWhen(self, _ => condition, ifTrue)
  }

  /** `swapValueWhen(ifTrue, condition)`, which forwards to `swapLambdaWhen`
      with a lambda returning the replacement. */
  function SwapValueWhen<T>(self: Option<T>, ifTrue: Option<T>, condition: Option<T> -> Option<bool>): (r: Option<T>)
    ensures condition(self) == Some(true) ==> r == ifTrue
    ensures condition(self) != Some(true) ==> r == self
  {
    SwapLambdaWhen(self, condition, _ => ifTrue)
  }

  /** The two overloads of `swapLambdaWhen` agree: the Boolean one is the lambda
      one with a constant condition, and `swapValueWhen` is `swapLambdaWhen`
      with a constant lambda. */
  lemma SwapOverloadsAgree<T>(self: Option<T>, condition: Option<bool>, ifTrue: Option<T>)
    ensures SwapLambdaWhenFlag(self, condition, _ => ifTrue) == SwapValueWhen(self, ifTrue, _ => condition)
  {
  }

  /** `Long?.swapWhenDefaultLong(ifDefault)`: null and the sentinel -1 become
      the default; the `!!` that follows cannot fail, so the result is a plain
      `Long`. */
  function SwapWhenDefaultLong(self: Option<Int64>, ifDefault: Int64): (r: Int64)
    ensures self == None ==> r == ifDefault
    ensures self == Some(-1) ==> r == ifDefault
    ensures self.Some? && self.value != -1 ==> r == self.value
  {
    var swapped := SwapValueWhen(self, Some(ifDefault), x => Some(x == None || x == Some(-1)));
    assert swapped.Some?;
    swapped.value
  }

  /** `Class<*>.swapWhenDefaultClass()` as written in `Utils.kt`: the swap
      turns `Any` into null and the `!!` that follows throws, so `Any` never
      becomes "no class" here; every other class comes back unchanged. */
  function SwapWhenDefaultClass(self: ClassRef): (r: Result<ClassRef, NullPointerException>)
    ensures r.Failure? <==> self == AnyClass
    ensures r.Success? ==> r.value == self
  {
    NotNull(SwapValueWhen(Some(self), None, x => Some(x == Some(AnyClass))))
  }

  /** The input that shows the `!!` defeats the swap: for `Any` the Utils
      version never yields "no class", it throws. */
  lemma SwapWhenDefaultClassThrowsOnAny()
    ensures SwapWhenDefaultClass(AnyClass) == Failure(NullPointerException)
  {
  }
}
