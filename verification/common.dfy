/** Kotlin and JVM notions shared by every module of the model: nullable
    values, the failure of `!!`, the fixed-width integer types and class
    references. */
module Common {

  /** Kotlin's nullable type `T?`: `None` stands for `null`. */
  datatype Option<+T> = None | Some(value: T) {

    /** Kotlin's elvis operator `this ?: default`. */
    function GetOr(default: T): (r: T)
      ensures Some? ==> r == value
      ensures None? ==> r == default
    {
      match this
      case Some(v) => v
      case None => default
    }
  }

  /** A computation that either yields a value or throws. */
  datatype Result<+T, +E> = Success(value: T) | Failure(error: E)

  /** What Kotlin's `!!` throws on a null receiver. */
  datatype NullPointerException = NullPointerException

  /** Kotlin's `x!!`: the value when there is one, a thrown exception otherwise. */
  function NotNull<T>(x: Option<T>): (r: Result<T, NullPointerException>)
    ensures r.Success? <==> x.Some?
    ensures r.Success? ==> r.value == x.value
  {
    match x
    case Some(v) => Success(v)
    case None => Failure(NullPointerException)
  }

  /** JVM `byte`, `short`, `int` and `long`. */
  type Int8 = x: int | -0x80 <= x < 0x80
  type Int16 = x: int | -0x8000 <= x < 0x8000
  type Int32 = x: int | -0x8000_0000 <= x < 0x8000_0000
  type Int64 = x: int | -0x8000_0000_0000_0000 <= x < 0x8000_0000_0000_0000

  /** The part of a qualified name after its last dot: the whole name when
      it has no dot. */
  function AfterLastDot(s: string): (r: string)
    ensures |r| <= |s| && r == s[|s| - |r|..]
    ensures '.' !in r
    ensures |r| < |s| ==> s[|s| - |r| - 1] == '.'
  {
    if |s| == 0 then s
    else if s[|s| - 1] == '.' then ""
    else AfterLastDot(s[..|s| - 1]) + [s[|s| - 1]]
  }

  /** The fully qualified (canonical) name of a class other than
      `java.lang.Object`, which `Any::class.java` denotes. */
  type OtherClassName = q: string | q != "java.lang.Object" witness ""

  /** A JVM class object: `Any::class.java` (java.lang.Object), or any other
      class, known by its fully qualified name. Each class has exactly one
      encoding. */
  datatype ClassRef = AnyClass | NamedClass(qualifiedName: OtherClassName) {

    /** `Class.getSimpleName()`: the qualified name without its package and
        enclosing classes. */
    function SimpleName(): string {
      match this
      case AnyClass => "Object"
      case NamedClass(q) => AfterLastDot(q)
    }
  }
}
