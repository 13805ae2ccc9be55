/** The configuration builder (`CacheConfiguration.kt`): documented defaults,
    setters that each write one field, and `build`, which copies the fields
    into the immutable configuration. */
module Configuration {
  import opened Common

  /** A logging sink: the silent one `noLog` installs, or one the caller supplies. */
  datatype Logger = SilentLogger | CustomLogger(id: nat)

  /** The JSON serialiser: the library's own default or one the caller supplies. */
  datatype Gson = DefaultGson | CustomGson(id: nat)

  /** The builder's mutable state, as a value. */
  datatype Builder = Builder(
    logger: Option<Logger>,
    gson: Option<Gson>,
    requestTimeOutInSeconds: Int32,
    connectivityTimeoutInMillis: Int64,
    cacheDurationInMillis: Int64,
    isCacheEnabled: bool,
    compressData: bool,
    encryptData: bool,
    mergeOnNextOnError: bool,
    allowNonFinalForSingle: bool,
    cacheAllByDefault: bool)

  /** `CacheConfiguration`: the configuration `build` constructs
      (`CacheConfiguration.kt:190-203`) before handing it on. */
  datatype CacheConfiguration = CacheConfiguration(
    logger: Logger,
    gson: Gson,
    isCacheEnabled: bool,
    encrypt: bool,
    compress: bool,
    mergeOnNextOnError: bool,
    allowNonFinalForSingle: bool,
    requestTimeOutInSeconds: Int32,
    connectivityTimeoutInMillis: Int64,
    cacheDurationInMillis: Int64,
    cacheAllByDefault: bool)

  /** A fresh builder, with the documented defaults. */
  function NewBuilder(): (b: Builder)
    ensures b.logger == None && b.gson == None
    ensures b.requestTimeOutInSeconds == 15
    ensures b.connectivityTimeoutInMillis == 0
    ensures b.cacheDurationInMillis == 3_600_000
    ensures b.isCacheEnabled && !b.compressData && !b.encryptData
    ensures !b.mergeOnNextOnError && !b.allowNonFinalForSingle
    ensures b.cacheAllByDefault
  {
    Builder(None, None, 15, 0, 60 * 60 * 1000, true, false, false, false, false, true)
  }

  /** One call of a builder setter, with its argument. */
  datatype Setter =
    | SetLogger(logger: Logger)
    | SetGson(gson: Gson)
    | SetRequestTimeOutInSeconds(seconds: Int32)
    | SetConnectivityTimeoutInMillis(millis: Int64)
    | SetCacheDurationInMillis(millis: Int64)
    | SetCacheEnabled(flag: bool)
    | SetCompressData(flag: bool)
    | SetEncryptData(flag: bool)
    | SetMergeOnNextOnError(flag: bool)
    | SetAllowNonFinalForSingle(flag: bool)
    | SetCacheAllByDefault(flag: bool)

  /** The builder's fields, named so that a setter's footprint can be stated. */
  datatype Field =
    | LoggerField | GsonField | RequestTimeOutField | ConnectivityTimeoutField | CacheDurationField
    | CacheEnabledField | CompressField | EncryptField | MergeOnNextOnErrorField
    | AllowNonFinalForSingleField | CacheAllByDefaultField

  /** The value held in a field. */
  datatype FieldValue =
    | LoggerValue(logger: Option<Logger>)
    | GsonValue(gson: Option<Gson>)
    | NumberValue(number: int)
    | FlagValue(flag: bool)

  /** The content of one field of a builder. */
  function Read(b: Builder, f: Field): FieldValue {
    match f
    case LoggerField => LoggerValue(b.logger)
    case GsonField => GsonValue(b.gson)
    case RequestTimeOutField => NumberValue(b.requestTimeOutInSeconds)
    case ConnectivityTimeoutField => NumberValue(b.connectivityTimeoutInMillis)
    case CacheDurationField => NumberValue(b.cacheDurationInMillis)
    case CacheEnabledField => FlagValue(b.isCacheEnabled)
    case CompressField => FlagValue(b.compressData)
    case EncryptField => FlagValue(b.encryptData)
    case MergeOnNextOnErrorField => FlagValue(b.mergeOnNextOnError)
    case AllowNonFinalForSingleField => FlagValue(b.allowNonFinalForSingle)
    case CacheAllByDefaultField => FlagValue(b.cacheAllByDefault)
  }

  /** The field a setter writes. */
  function FieldOf(s: Setter): Field {
    match s
    case SetLogger(_) => LoggerField
    case SetGson(_) => GsonField
    case SetRequestTimeOutInSeconds(_) => RequestTimeOutField
    case SetConnectivityTimeoutInMillis(_) => ConnectivityTimeoutField
    case SetCacheDurationInMillis(_) => CacheDurationField
    case SetCacheEnabled(_) => CacheEnabledField
    case SetCompressData(_) => CompressField
    case SetEncryptData(_) => EncryptField
    case SetMergeOnNextOnError(_) => MergeOnNextOnErrorField
    case SetAllowNonFinalForSingle(_) => AllowNonFinalForSingleField
    case SetCacheAllByDefault(_) => CacheAllByDefaultField
  }

  /** The value a setter writes into its field. */
  function Written(s: Setter): FieldValue {
    match s
    case SetLogger(l) => LoggerValue(Some(l))
    case SetGson(g) => GsonValue(Some(g))
    case SetRequestTimeOutInSeconds(n) => NumberValue(n)
    case SetConnectivityTimeoutInMillis(n) => NumberValue(n)
    case SetCacheDurationInMillis(n) => NumberValue(n)
    case SetCacheEnabled(v) => FlagValue(v)
    case SetCompressData(v) => FlagValue(v)
    case SetEncryptData(v) => FlagValue(v)
    case SetMergeOnNextOnError(v) => FlagValue(v)
    case SetAllowNonFinalForSingle(v) => FlagValue(v)
    case SetCacheAllByDefault(v) => FlagValue(v)
  }

  /** Calling a setter (each one is `apply { this.field = value }`): its own
      field now holds the argument. */
  function Set(b: Builder, s: Setter): (r: Builder)
    ensures Read(r, FieldOf(s)) == Written(s)
  {
    match s
    case SetLogger(l) => b.(logger := Some(l))
    case SetGson(g) => b.(gson := Some(g))
    case SetRequestTimeOutInSeconds(n) => b.(requestTimeOutInSeconds := n)
    case SetConnectivityTimeoutInMillis(n) => b.(connectivityTimeoutInMillis := n)
    case SetCacheDurationInMillis(n) => b.(cacheDurationInMillis := n)
    case SetCacheEnabled(v) => b.(isCacheEnabled := v)
    case SetCompressData(v) => b.(compressData := v)
    case SetEncryptData(v) => b.(encryptData := v)
    case SetMergeOnNextOnError(v) => b.(mergeOnNextOnError := v)
    case SetAllowNonFinalForSingle(v) => b.(allowNonFinalForSingle := v)
    case SetCacheAllByDefault(v) => b.(cacheAllByDefault := v)
  }

  /** A setter writes its own field and leaves every other field unchanged. */
  lemma SetterFootprint(b: Builder, s: Setter, f: Field)
    ensures f == FieldOf(s) ==> Read(Set(b, s), f) == Written(s)
    ensures f != FieldOf(s) ==> Read(Set(b, s), f) == Read(b, f)
  {
  }

  /** `noLog()`: installs the silent logger. */
  function NoLog(b: Builder): (r: Builder)
    ensures r.logger == Some(SilentLogger)
  {
    Set(b, SetLogger(SilentLogger))
  }

  /** Two builders holding the same value in every field are the same builder. */
  lemma BuilderExtensional(b1: Builder, b2: Builder)
    requires forall f :: Read(b1, f) == Read(b2, f)
    ensures b1 == b2
  {
    assert Read(b1, LoggerField) == Read(b2, LoggerField);
    assert Read(b1, GsonField) == Read(b2, GsonField);
    assert Read(b1, RequestTimeOutField) == Read(b2, RequestTimeOutField);
    assert Read(b1, ConnectivityTimeoutField) == Read(b2, ConnectivityTimeoutField);
    assert Read(b1, CacheDurationField) == Read(b2, CacheDurationField);
    assert Read(b1, CacheEnabledField) == Read(b2, CacheEnabledField);
    assert Read(b1, CompressField) == Read(b2, CompressField);
    assert Read(b1, EncryptField) == Read(b2, EncryptField);
    assert Read(b1, MergeOnNextOnErrorField) == Read(b2, MergeOnNextOnErrorField);
    assert Read(b1, AllowNonFinalForSingleField) == Read(b2, AllowNonFinalForSingleField);
    assert Read(b1, CacheAllByDefaultField) == Read(b2, CacheAllByDefaultField);
  }

  /** Repeated calls of the same setter: the last one wins. */
  lemma LastWriteWins(b: Builder, first: Setter, second: Setter)
    requires FieldOf(first) == FieldOf(second)
    ensures Set(Set(b, first), second) == Set(b, second)
  {
  }

  /** Per field, setters of different fields commute. */
  lemma DistinctSettersCommuteOn(b: Builder, s1: Setter, s2: Setter, f: Field)
    requires FieldOf(s1) != FieldOf(s2)
    ensures Read(Set(Set(b, s1), s2), f) == Read(Set(Set(b, s2), s1), f)
  {
    SetterFootprint(Set(b, s1), s2, f);
    SetterFootprint(Set(b, s2), s1, f);
    SetterFootprint(b, s1, f);
    SetterFootprint(b, s2, f);
  }

  /** Setters of different fields do not interfere, so their order is irrelevant. */
  lemma DistinctSettersCommute(b: Builder, s1: Setter, s2: Setter)
    requires FieldOf(s1) != FieldOf(s2)
    ensures Set(Set(b, s1), s2) == Set(Set(b, s2), s1)
  {
    forall f
      ensures Read(Set(Set(b, s1), s2), f) == Read(Set(Set(b, s2), s1), f)
    {
      DistinctSettersCommuteOn(b, s1, s2, f);
    }
    BuilderExtensional(Set(Set(b, s1), s2), Set(Set(b, s2), s1));
  }

  /** A chain of setter calls, applied left to right. */
  function SetAll(b: Builder, setters: seq<Setter>): Builder
    decreases |setters|
  {
    if |setters| == 0 then b else SetAll(Set(b, setters[0]), setters[1..])
  }

  /** What a field holds after a chain of setters: the value of the last
      setter of that field, or its earlier content if none touches it. */
  function LastWritten(setters: seq<Setter>, f: Field, otherwise: FieldValue): FieldValue
    decreases |setters|
  {
    if |setters| == 0 then otherwise
    else if FieldOf(setters[|setters| - 1]) == f then Written(setters[|setters| - 1])
    else LastWritten(setters[..|setters| - 1], f, otherwise)
  }

  /** A chain of setter calls leaves every field with the last value written
      to it, and fields no setter touches keep their value. */
  lemma {:induction false} SetAllLastWriteWins(b: Builder, setters: seq<Setter>, f: Field)
    ensures Read(SetAll(b, setters), f) == LastWritten(setters, f, Read(b, f))
    decreases |setters|
  {
    if |setters| != 0 {
      var rest := setters[1..];
      SetAllLastWriteWins(Set(b, setters[0]), rest, f);
      SetterFootprint(b, setters[0], f);
      LastWrittenFront(setters[0], rest, f, Read(b, f));
      assert setters == [setters[0]] + rest;
    }
  }

  /** Peeling the first setter off a chain. */
  lemma {:induction false} LastWrittenFront(first: Setter, rest: seq<Setter>, f: Field, otherwise: FieldValue)
    ensures LastWritten([first] + rest, f, otherwise)
         == LastWritten(rest, f, if FieldOf(first) == f then Written(first) else otherwise)
    decreases |rest|
  {
    if |rest| != 0 {
      var all := [first] + rest;
      assert all[..|all| - 1] == [first] + rest[..|rest| - 1];
      LastWrittenFront(first, rest[..|rest| - 1], f, otherwise);
    } else {
      assert [first] + rest == [first];
    }
  }

  /** The configuration `build` constructs: every field copied into the
      configuration field of the same meaning (`encryptData` to `encrypt`,
      `compressData` to `compress`), the silent logger when none was set and
      the default Gson when none was set. */
  function Build(b: Builder): (c: CacheConfiguration)
    ensures b.logger.None? ==> c.logger == SilentLogger
    ensures b.logger.Some? ==> c.logger == b.logger.value
    ensures b.gson.None? ==> c.gson == DefaultGson
    ensures b.gson.Some? ==> c.gson == b.gson.value
    ensures c.encrypt == b.encryptData && c.compress == b.compressData
    ensures c.isCacheEnabled == b.isCacheEnabled
    ensures c.mergeOnNextOnError == b.mergeOnNextOnError
    ensures c.allowNonFinalForSingle == b.allowNonFinalForSingle
    ensures c.requestTimeOutInSeconds == b.requestTimeOutInSeconds
    ensures c.connectivityTimeoutInMillis == b.connectivityTimeoutInMillis
    ensures c.cacheDurationInMillis == b.cacheDurationInMillis
    ensures c.cacheAllByDefault == b.cacheAllByDefault
  {
    CacheConfiguration(
      b.logger.GetOr(SilentLogger),
      b.gson.GetOr(DefaultGson),
      b.isCacheEnabled,
      b.encryptData,
      b.compressData,
      b.mergeOnNextOnError,
      b.allowNonFinalForSingle,
      b.requestTimeOutInSeconds,
      b.connectivityTimeoutInMillis,
      b.cacheDurationInMillis,
      b.cacheAllByDefault)
  }

  /** Leaving the logger unset and calling `noLog()` build the same configuration. */
  lemma NoLogSameAsUnset(b: Builder)
    requires b.logger.None?
    ensures Build(NoLog(b)) == Build(b)
  {
  }

  /** The configuration a builder yields when no setter was called. */
  lemma DefaultConfiguration()
    ensures Build(NewBuilder())
         == CacheConfiguration(SilentLogger, DefaultGson, true, false, false, false, false, 15, 0, 3_600_000, true)
  {
  }
}
