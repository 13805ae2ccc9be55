# DejaVu cache instructions, error wrapping and wiring decisions in Dafny

DejaVu is a response cache for Retrofit and RxJava clients on Android. Each call
carries a cache instruction (an `Operation`): cache, refresh, offline, invalidate,
clear or do-not-cache. The pipeline reads that instruction and decides whether to
serve stored data, call the network, or both. This project models the logic
around that engine that can be checked without it:

- **Annotation resolution** (`annotation_processor.dfy`). A call's annotations
  become at most one `Operation`. A second cache annotation is a `CacheException`
  of type ANNOTATION. On Cache and Refresh, the sentinel `-1` on the duration and
  the connectivity timeout is replaced by the configured default. On Invalidate
  and Clear, the class `Any` becomes "no class".
- **Nullable combinators** (`utils.dfy`). These are `isAnyNullable`,
  `swapLambdaWhen` (both overloads), `swapValueWhen`, `swapWhenDefaultLong` and
  `swapWhenDefaultClass`. Kotlin's `T?` is `Option<T>`, and `!!` is a `Result`
  that fails with `NullPointerException`.
- **Error-wrapping stage** (`error_interceptor.dfy`). The stage turns a finite
  upstream into a stream of `ResponseWrapper`s. Wrappers pass through, raw
  responses are wrapped, and an upstream error becomes one trailing error
  wrapper followed by normal completion.
- **Configuration builder** (`configuration.dfy`). It covers the documented
  defaults, the setters (each writes only its own field), `noLog`, and the
  configuration that `build` constructs from the fields.
- **Backend selection** (`base_cache_module.dfy`). The persistence manager is
  chosen by the rule picker, then cache directory, then database. The database
  is opened only when neither a picker nor a directory is set. The statistics
  compiler is chosen by a matching rule.
- **Column-map flattening** (`cache_module.dfy`). `mapToContentValues` keeps only
  the entries whose value has a type a database row can store.

`common.dfy` holds the shared notions. These are nullable values, the failure
of `!!`, the JVM integer widths (`Int8` up to `Int64`) and class references.

The source's `Operation` (`AnnotationProcessor.kt:121-149`) shapes the model's:

- `Cache` and `Refresh` carry a connectivity timeout as well as a duration.
- `Invalidate` and `Clear` carry an optional target class.
- `Clear` carries `clearStaleEntriesOnly`.

A class is identified by its fully qualified name, and `java.lang.Object` has
only the encoding `Any`. Its simple name, which is
all that appears in the duplicate-annotation message, is derived from it.

`AnnotationProcessor` reads its two defaults from `DejaVuConfiguration`, which is
not part of this model. The two values are passed in as `Defaults`.

## Model

| member | source | states |
|---|---|---|
| Utils.IsAnyNullable | cache_interceptor/src/main/java/dev/pthomain/android/dejavu/utils/Utils.kt:26-34 | false for a null receiver. For a non-null receiver, true iff some value satisfies the predicate. The values are tried in order and the scan stops at the first hit: the predicate ran exactly up to and including that value, or over all values when none matches |
| Utils.SwapLambdaWhen | cache_interceptor/src/main/java/dev/pthomain/android/dejavu/utils/Utils.kt:53-55 | the lambda applied to the receiver when the condition is true. The receiver unchanged when the condition is false or null |
| Utils.SwapLambdaWhenFlag | cache_interceptor/src/main/java/dev/pthomain/android/dejavu/utils/Utils.kt:49-51 | Boolean overload: the lambda applied when the flag is true, the receiver otherwise (false or null) |
| Utils.SwapValueWhen | cache_interceptor/src/main/java/dev/pthomain/android/dejavu/utils/Utils.kt:57-59 | the replacement value when the condition holds, the receiver otherwise |
| Utils.SwapOverloadsAgree | cache_interceptor/src/main/java/dev/pthomain/android/dejavu/utils/Utils.kt:49-59 | the Boolean overload with a constant lambda equals `swapValueWhen` with a constant condition |
| Utils.SwapWhenDefaultLong | cache_interceptor/src/main/java/dev/pthomain/android/dejavu/utils/Utils.kt:61-62 | null and -1 become the default. Every other value is kept. The result is never null, so the `!!` never throws |
| Utils.SwapWhenDefaultClass | cache_interceptor/src/main/java/dev/pthomain/android/dejavu/utils/Utils.kt:64-65 | as written: throws iff the class is `Any`. Otherwise returns the class unchanged |
| Utils.SwapWhenDefaultClassThrowsOnAny | cache_interceptor/src/main/java/dev/pthomain/android/dejavu/utils/Utils.kt:64-65 | the input `Any` makes the Utils version throw `NullPointerException` instead of yielding "no class" |
| AnnotationProcessor.GetTypedName | cache_interceptor/src/main/java/dev/pthomain/android/dejavu/retrofit/annotations/AnnotationProcessor.kt:169-171 | the name starts with the Rx class's simple name. It is exactly that name iff the type is COMPLETABLE |
| AnnotationProcessor.TypedNameParses | cache_interceptor/src/main/java/dev/pthomain/android/dejavu/retrofit/annotations/AnnotationProcessor.kt:169-171 | for OBSERVABLE and SINGLE, the form `Rx<name>` reads back as that Rx type and exactly that name, for every name |
| AnnotationProcessor.TypedNameRoundTrip | cache_interceptor/src/main/java/dev/pthomain/android/dejavu/retrofit/annotations/AnnotationProcessor.kt:169-171 | the typed name parses back into its Rx type and, except for COMPLETABLE, the response class's simple name. So the form is `Rx<Response>` for OBSERVABLE and SINGLE and the bare name for COMPLETABLE |
| AnnotationProcessor.AnnotationType | cache_interceptor/src/main/java/dev/pthomain/android/dejavu/retrofit/annotations/AnnotationProcessor.kt:63-72 | an annotation has an operation type iff it is one of the six cache annotations |
| AnnotationProcessor.SwapWhen | cache_interceptor/src/main/java/dev/pthomain/android/dejavu/retrofit/annotations/AnnotationProcessor.kt:176-178 | the replacement when the condition is exactly true. The receiver when it is false or null |
| AnnotationProcessor.SwapWhenDefaultLong | cache_interceptor/src/main/java/dev/pthomain/android/dejavu/retrofit/annotations/AnnotationProcessor.kt:180-181 | never null. Exactly -1 becomes the default. Every other value is kept, including 0 and other negatives |
| AnnotationProcessor.SwapWhenDefaultClass | cache_interceptor/src/main/java/dev/pthomain/android/dejavu/retrofit/annotations/AnnotationProcessor.kt:183-184 | "no class" iff the class is `Any`. Every other class is kept |
| AnnotationProcessor.OperationFor | cache_interceptor/src/main/java/dev/pthomain/android/dejavu/retrofit/annotations/AnnotationProcessor.kt:119-155 | no operation iff the annotation is unrelated. Otherwise, the variant matching the annotation's type. Cache carries freshOnly, merge, encrypt and compress. Refresh and Offline carry freshOnly and merge. Cache and Refresh replace a -1 duration or timeout by the configured one and keep any other value. Invalidate and Clear map `Any` to no class and keep other classes. Clear keeps `clearStaleEntriesOnly` |
| AnnotationProcessor.GetOperation | cache_interceptor/src/main/java/dev/pthomain/android/dejavu/retrofit/annotations/AnnotationProcessor.kt:103-156 | throws iff an operation was already resolved. The exception names the typed name, the type found and the existing type. Otherwise, the annotation's operation |
| AnnotationProcessor.ScanAfterOperation | cache_interceptor/src/main/java/dev/pthomain/android/dejavu/retrofit/annotations/AnnotationProcessor.kt:109-117 | once an operation is held, the next cache annotation, of any kind and including a repeat of the same kind, raises the ANNOTATION exception. With no further cache annotation the held operation is returned |
| AnnotationProcessor.ScanMatchesExpected | cache_interceptor/src/main/java/dev/pthomain/android/dejavu/retrofit/annotations/AnnotationProcessor.kt:61-83 | the annotation loop equals the reference outcome stated over the cache annotations alone: none gives null, one gives its operation, two or more give the exception for the first two |
| AnnotationProcessor.Process | cache_interceptor/src/main/java/dev/pthomain/android/dejavu/retrofit/annotations/AnnotationProcessor.kt:57-84 | fails iff there are at least two cache annotations. Null when there are none. With exactly one, its operation, of the matching type. On failure, the exception's existing and found types are those of the first and second cache annotations |
| AnnotationProcessor.ProcessIgnoresUnrelated | cache_interceptor/src/main/java/dev/pthomain/android/dejavu/retrofit/annotations/AnnotationProcessor.kt:63-80 | the result equals the result for the cache annotations alone. Inserting an unrelated annotation anywhere never changes it |
| ErrorInterceptor.Apply | cache_interceptor/src/main/java/dev/pthomain/android/dejavu/interceptors/error/ErrorInterceptor.kt:69-96 | the output always completes normally. It has one wrapper per upstream item, in order, plus one more iff upstream ended in error. Upstream wrappers pass unchanged. A raw item is wrapped with the token's response class, the item, the token, no exception and zero durations. The trailing wrapper has no response and `errorFactory(error)` as its exception |
| ErrorInterceptor.CreatedWrappersCarryToken | cache_interceptor/src/main/java/dev/pthomain/android/dejavu/interceptors/error/ErrorInterceptor.kt:76-95 | a wrapper that does not carry the stage's token is one that arrived already built from upstream |
| ErrorInterceptor.ApplySplits | cache_interceptor/src/main/java/dev/pthomain/android/dejavu/interceptors/error/ErrorInterceptor.kt:71-85 | items map one by one. The output for a stream split anywhere is the output for its front followed by the output for the rest |
| ErrorInterceptor.ApplyIdempotent | cache_interceptor/src/main/java/dev/pthomain/android/dejavu/interceptors/error/ErrorInterceptor.kt:72-74 | feeding the stage its own output returns that output unchanged |
| Configuration.NewBuilder | cache_interceptor/src/main/java/uk/co/glass_software/android/dejavu/configuration/CacheConfiguration.kt:65-77 | defaults: no logger, no Gson, 15 s request timeout, connectivity timeout 0, cache duration 3 600 000 ms. Cache enabled, no compression or encryption, no merge-on-error, no non-final Singles, cache all by default |
| Configuration.Set | cache_interceptor/src/main/java/uk/co/glass_software/android/dejavu/configuration/CacheConfiguration.kt:95-176 | after a setter call, the setter's own field holds its argument |
| Configuration.SetterFootprint | cache_interceptor/src/main/java/uk/co/glass_software/android/dejavu/configuration/CacheConfiguration.kt:95-176 | a setter writes its own field and leaves every other field unchanged |
| Configuration.NoLog | cache_interceptor/src/main/java/uk/co/glass_software/android/dejavu/configuration/CacheConfiguration.kt:82 | `noLog` installs the silent logger |
| Configuration.LastWriteWins | cache_interceptor/src/main/java/uk/co/glass_software/android/dejavu/configuration/CacheConfiguration.kt:105-176 | two calls of setters of the same field equal the last call alone |
| Configuration.DistinctSettersCommute | cache_interceptor/src/main/java/uk/co/glass_software/android/dejavu/configuration/CacheConfiguration.kt:95-176 | setters of different fields commute |
| Configuration.SetAllLastWriteWins | cache_interceptor/src/main/java/uk/co/glass_software/android/dejavu/configuration/CacheConfiguration.kt:95-176 | after any chain of setter calls, each field holds the value of the last setter of that field. A field no setter touched keeps its value |
| Configuration.Build | cache_interceptor/src/main/java/uk/co/glass_software/android/dejavu/configuration/CacheConfiguration.kt:181-203 | in the configuration `build` constructs, each builder field goes to the configuration field of the same meaning (`encryptData` to `encrypt`, `compressData` to `compress`). The silent logger and the default Gson are used when none was set |
| Configuration.NoLogSameAsUnset | cache_interceptor/src/main/java/uk/co/glass_software/android/dejavu/configuration/CacheConfiguration.kt:182 | leaving the logger unset and calling `noLog` build the same configuration, with the silent logger standing for any instance `getSilentLogger()` returns |
| Configuration.DefaultConfiguration | cache_interceptor/src/main/java/uk/co/glass_software/android/dejavu/configuration/CacheConfiguration.kt:68-77 | the configuration built without any setter call holds the documented defaults and the silent logger |
| BaseCacheModule.UsesDatabaseCacheManager | cache_interceptor/src/main/java/dev/pthomain/android/dejavu/injection/module/BaseCacheModule.kt:419-420 | true iff neither a persistence-manager picker nor a cache directory is configured: exactly the configuration with both entries null |
| BaseCacheModule.ProvideSqlOpenHelperCallback | cache_interceptor/src/main/java/dev/pthomain/android/dejavu/injection/module/BaseCacheModule.kt:158-165 | a callback, with the schema version, iff neither a picker nor a cache directory is configured |
| BaseCacheModule.ProvideDatabase | cache_interceptor/src/main/java/dev/pthomain/android/dejavu/injection/module/DefaultCacheModule.kt:47-58 | an SQL open helper for `dejavu.db` exists iff there is a callback (`DefaultCacheModule.kt:47-58`), and the database is that helper's writable database, absent with the helper (`sqlOpenHelper?.writableDatabase`, `BaseCacheModule.kt:170-171`) |
| BaseCacheModule.ProvideDatabasePersistenceManager | cache_interceptor/src/main/java/dev/pthomain/android/dejavu/injection/module/BaseCacheModule.kt:189-204 | a database manager over the database iff there is one |
| BaseCacheModule.ProvideDatabaseStatisticsCompiler | cache_interceptor/src/main/java/dev/pthomain/android/dejavu/injection/module/BaseCacheModule.kt:206-217 | a database statistics compiler iff there is a database |
| BaseCacheModule.ProvidePersistenceManager | cache_interceptor/src/main/java/dev/pthomain/android/dejavu/injection/module/BaseCacheModule.kt:181-187 | the picker's manager if it yields one. Else the file manager for the cache directory. Else the database manager, where an absent one throws |
| BaseCacheModule.ProvideStatisticsCompiler | cache_interceptor/src/main/java/dev/pthomain/android/dejavu/injection/module/BaseCacheModule.kt:231-237 | the file compiler when a cache directory is set, the database compiler otherwise |
| BaseCacheModule.DatabaseOnlyWithoutPickerOrDirectory | cache_interceptor/src/main/java/dev/pthomain/android/dejavu/injection/module/BaseCacheModule.kt:419-420 | the database of the wired module graph exists iff no picker and no cache directory are configured |
| BaseCacheModule.PersistenceManagerPriority | cache_interceptor/src/main/java/dev/pthomain/android/dejavu/injection/module/BaseCacheModule.kt:183-187 | wired end to end, the priority is picker, then directory, then database. It fails iff a picker yields null and no directory is set, because no database was opened for that configuration |
| BaseCacheModule.StatisticsCompilerSelection | cache_interceptor/src/main/java/dev/pthomain/android/dejavu/injection/module/BaseCacheModule.kt:233-237 | wired end to end, the compiler is the file one with a directory and the database one with neither directory nor picker. It is absent iff a picker is set and no directory is |
| CacheModule.MapToContentValues | cache_interceptor/src/main/java/dev/pthomain/android/dejavu/injection/module/CacheModule.kt:197-213 | an entry is copied under the same key with the same value iff its value is Boolean, Float, Double, Long, Int, Byte, ByteArray, Short or String. Null values and other types are dropped. The result's keys are a subset of the input's |
| CacheModule.FlatteningIsDetermined | cache_interceptor/src/main/java/dev/pthomain/android/dejavu/injection/module/CacheModule.kt:198-212 | any result meeting that contract is the map of storable entries. An empty input gives an empty result, and flattening a result again changes nothing |

## Findings

| source | as written | input that shows it | evidently intended | confidence | as-written member | corrected member |
|---|---|---|---|---|---|---|
| cache_interceptor/src/main/java/dev/pthomain/android/dejavu/utils/Utils.kt:64-65 | `swapValueWhen(null) { it == Any::class.java }!!` swaps `Any` to null and then applies `!!` to that null | `Any::class.java.swapWhenDefaultClass()` throws `NullPointerException` | `Any` becomes "no class" (null) and every other class is kept. This is what the private copy in `AnnotationProcessor.kt:183-184` does | medium, not executed | Utils.SwapWhenDefaultClass, Utils.SwapWhenDefaultClassThrowsOnAny | AnnotationProcessor.SwapWhenDefaultClass |

## Left out

- The cache engine is not part of this model: the cache manager, metadata manager, hasher, serialisation and the persistence stores. Their sources are not available, so no freshness, expiry or serialisation behaviour is modelled.
- Dependency-injection wiring that makes no decision is left out. This covers the remaining `provide*` methods of `BaseCacheModule.kt` and `CacheModule.kt`, `InterceptorModule.kt`, `FilePersistence.kt`, `MemoryModule.kt`, `DefaultCacheModule.kt` beyond its SQL helper, and the integration test modules.
- `StatisticsModule.kt` is left out: its statistics compiler always returns an error. Only the choice of statistics compiler in `BaseCacheModule.kt` is modelled.
- Foreign libraries are left out: Snappy compression, encryption, Gson serialisation, SQLite/Requery, Android `Context`, `Uri` and `ContentValues` internals, and the `RxAndroidPlugins` call in `build`. Gson and loggers are opaque identities: one constant stands for the silent logger and one for the default Gson.
- RxJava schedulers, subscriptions, threads and cancellation are left out. The error stage is modelled over a finite upstream of items followed by one terminal event.
- Logging is left out: `logAndThrow` logging before it throws, and the debug log in `build`.
- The exception message text is left out. `CacheException` is modelled by the three parts its message names: the typed name, the found type and the existing type.
- `isAny` and `isAnyInstance` in `Utils.kt` are left out. They depend on JVM reflection and on how Kotlin passes a vararg array without the spread operator.
- The `OptionalBoolean` attributes of the annotations are modelled as the nullable Boolean `value` they expose. The enum itself is not part of this model.
- Float and Double column values are carried as bit patterns. No floating-point behaviour is modelled.
- Context classes are left out: the demo UI, `CachedList`, and the unit tests, which are mock-based.
- Configuration.Build: the model stops at the configuration `build` constructs. The stored `context.applicationContext` and `errorFactory` fields are dropped, and neither the `componentProvider` call on the configuration nor the `DejaVu` that `build` returns is modelled.
- BaseCacheModule: the picker and cache directory that the selection reads come from the configuration class `BaseCacheModule.kt` imports, which is not part of this model. The builder in `CacheConfiguration.kt` has neither field, so `Configuration.Build` never produces them.
- ErrorInterceptor.Apply: the error factory is assumed not to throw. It is a total function in the model. In the source it runs inside RxJava's `onErrorResumeNext` (`ErrorInterceptor.kt:86-95`), and if it threw, the stream would end with an error combining both throwables instead of completing normally.
- ErrorInterceptor.Apply: the token is reduced to its instruction (response class and operation). The token's other fields pass through the stage untouched and are not modelled.
- Configuration.NoLogSameAsUnset: the two configurations are equal up to behaviour, not as objects. `getSilentLogger()` (`CacheConfiguration.kt:84-90`) creates a new logger on every call, and `gson ?: Gson()` (`CacheConfiguration.kt:194`) creates a new Gson on every `build`. Under the data class's `==` two such configurations differ; the model uses one constant for each.
