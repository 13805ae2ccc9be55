/** Selection of the persistence backend and of the statistics compiler
    (`BaseCacheModule.kt`), with the database opened only when neither a
    persistence-manager picker nor a cache directory is configured. */
module BaseCacheModule {
  import opened Common

  const DATABASE_NAME: string := "dejavu.db"
  const DATABASE_VERSION: int := 1

  /** The writable database the SQLite helper opens. */
  datatype Database = Database(name: string, version: int)

  /** The open-helper callback, which carries the schema version. */
  datatype SqlOpenHelperCallback = SqlOpenHelperCallback(version: int)

  /** A persistence manager: one a caller-supplied picker returned (known here
      by a name), the file manager for a directory, or the database manager. */
  datatype PersistenceManager =
    | PickedManager(name: string)
    | FilePersistenceManager(cacheDirectory: string)
    | DatabasePersistenceManager(database: Database)

  /** The statistics compiler backing the cache statistics. */
  datatype StatisticsCompiler = FileStatisticsCompiler | DatabaseStatisticsCompiler(database: Database)

  /** A persistence-manager picker, given by what it returns for the
      configuration (possibly null). */
  datatype Picker = Picker(picked: Option<PersistenceManager>)

  /** The two configuration entries the selection reads. They belong to the
      configuration class `BaseCacheModule.kt` imports, which is not part of
      this model; the builder in `CacheConfiguration.kt` has neither field. */
  datatype ModuleConfiguration = ModuleConfiguration(persistenceManagerPicker: Option<Picker>, cacheDirectory: Option<string>)

  /** `usesDatabaseCacheManager`: the database backend serves exactly the
      configuration that sets neither a picker nor a cache directory. */
  function UsesDatabaseCacheManager(c: ModuleConfiguration): (r: bool)
    ensures r <==> c == ModuleConfiguration(None, None)
  {
    c.persistenceManagerPicker.None? && c.cacheDirectory.None?
  }

  /** `provideSqlOpenHelperCallback`: a callback only for the database backend. */
  function ProvideSqlOpenHelperCallback(c: ModuleConfiguration): (r: Option<SqlOpenHelperCallback>)
    ensures r.Some? <==> c.persistenceManagerPicker.None? && c.cacheDirectory.None?
    ensures r.Some? ==> r.value.version == DATABASE_VERSION
  {
    if UsesDatabaseCacheManager(c) then Some(SqlOpenHelperCallback(DATABASE_VERSION)) else None
  }

  /** `provideSqlOpenHelper` of the default module followed by
      `provideDatabase`: a helper for the named database exists only with a
      callback, and the database is that helper's writable database. */
  function ProvideDatabase(callback: Option<SqlOpenHelperCallback>): (r: Option<Database>)
    ensures r.Some? <==> callback.Some?
    ensures r.Some? ==> r.value.name == DATABASE_NAME && r.value.version == callback.value.version
  {
    match callback
    case Some(cb) => Some(Database(DATABASE_NAME, cb.version))
    case None => None
  }

  /** `provideDatabasePersistenceManager`: a manager over the database, if any. */
  function ProvideDatabasePersistenceManager(database: Option<Database>): (r: Option<PersistenceManager>)
    ensures r.Some? <==> database.Some?
    ensures r.Some? ==> r.value == DatabasePersistenceManager(database.value)
  {
    match database
    case Some(db) => Some(DatabasePersistenceManager(db))
    case None => None
  }

  /** `provideDatabaseStatisticsCompiler`: a compiler over the database, if any. */
  function ProvideDatabaseStatisticsCompiler(database: Option<Database>): (r: Option<StatisticsCompiler>)
    ensures r.Some? <==> database.Some?
    ensures r.Some? ==> r.value == DatabaseStatisticsCompiler(database.value)
  {
    match database
    case Some(db) => Some(DatabaseStatisticsCompiler(db))
    case None => None
  }

  /** `providePersistenceManager`: the picker's manager if it yields one, else
      the file manager for the cache directory if one is set, else the
      database manager, whose absence makes the `!!` throw. */
  function ProvidePersistenceManager(c: ModuleConfiguration, databaseManager: Option<PersistenceManager>)
    : (r: Result<PersistenceManager, NullPointerException>)
    ensures c.persistenceManagerPicker.Some? && c.persistenceManagerPicker.value.picked.Some? ==>
      r == Success(c.persistenceManagerPicker.value.picked.value)
    ensures (c.persistenceManagerPicker.None? || c.persistenceManagerPicker.value.picked.None?) && c.cacheDirectory.Some? ==>
      r == Success(FilePersistenceManager(c.cacheDirectory.value))
    ensures (c.persistenceManagerPicker.None? || c.persistenceManagerPicker.value.picked.None?) && c.cacheDirectory.None? ==>
      (r.Success? <==> databaseManager.Some?) && (r.Success? ==> r.value == databaseManager.value)
  {
    var picked := match c.persistenceManagerPicker
      case Some(picker) => picker.picked
      case None => None;
    if picked.Some? then Success(picked.value)
    else if c.cacheDirectory.Some? then Success(FilePersistenceManager(c.cacheDirectory.value))
    else NotNull(databaseManager)
  }

  /** `provideStatisticsCompiler`: the file compiler when a cache directory is
      set, the database compiler (possibly absent) otherwise. */
  function ProvideStatisticsCompiler(c: ModuleConfiguration, databaseCompiler: Option<StatisticsCompiler>)
    : (r: Option<StatisticsCompiler>)
    ensures c.cacheDirectory.Some? ==> r == Some(FileStatisticsCompiler)
    ensures c.cacheDirectory.None? ==> r == databaseCompiler
  {
    if c.cacheDirectory.Some? then Some(FileStatisticsCompiler) else databaseCompiler
  }

  /** The database the module graph opens for a configuration. */
  function DatabaseFor(c: ModuleConfiguration): Option<Database> {
    ProvideDatabase(ProvideSqlOpenHelperCallback(c))
  }

  /** The persistence manager the module graph provides for a configuration. */
  function PersistenceManagerFor(c: ModuleConfiguration): Result<PersistenceManager, NullPointerException> {
    ProvidePersistenceManager(c, ProvideDatabasePersistenceManager(DatabaseFor(c)))
  }

  /** The statistics compiler the module graph provides for a configuration. */
  function StatisticsCompilerFor(c: ModuleConfiguration): Option<StatisticsCompiler> {
    ProvideStatisticsCompiler(c, ProvideDatabaseStatisticsCompiler(DatabaseFor(c)))
  }

  /** The database, and with it the database path, exists exactly when
      neither a picker nor a cache directory is configured. */
  lemma DatabaseOnlyWithoutPickerOrDirectory(c: ModuleConfiguration)
    ensures DatabaseFor(c).Some? <==> c.persistenceManagerPicker.None? && c.cacheDirectory.None?
    ensures DatabaseFor(c).Some? ==> DatabaseFor(c).value == Database(DATABASE_NAME, DATABASE_VERSION)
  {
  }

  /** The priority picker, then cache directory, then database; the only
      failure is a picker that yields null with no cache directory, because
      the database was never opened for that configuration. */
  lemma PersistenceManagerPriority(c: ModuleConfiguration)
    ensures c.persistenceManagerPicker.Some? && c.persistenceManagerPicker.value.picked.Some? ==>
      PersistenceManagerFor(c) == Success(c.persistenceManagerPicker.value.picked.value)
    ensures (c.persistenceManagerPicker.None? || c.persistenceManagerPicker.value.picked.None?) && c.cacheDirectory.Some? ==>
      PersistenceManagerFor(c) == Success(FilePersistenceManager(c.cacheDirectory.value))
    ensures c.persistenceManagerPicker.None? && c.cacheDirectory.None? ==>
      PersistenceManagerFor(c) == Success(DatabasePersistenceManager(Database(DATABASE_NAME, DATABASE_VERSION)))
    ensures PersistenceManagerFor(c).Failure? <==>
      c.persistenceManagerPicker.Some? && c.persistenceManagerPicker.value.picked.None? && c.cacheDirectory.None?
  {
  }

  /** The statistics compiler is the file one with a cache directory, the
      database one without a directory or picker, and absent otherwise. */
  lemma StatisticsCompilerSelection(c: ModuleConfiguration)
    ensures c.cacheDirectory.Some? ==> StatisticsCompilerFor(c) == Some(FileStatisticsCompiler)
    ensures c.cacheDirectory.None? && c.persistenceManagerPicker.None? ==>
      StatisticsCompilerFor(c) == Some(DatabaseStatisticsCompiler(Database(DATABASE_NAME, DATABASE_VERSION)))
    ensures StatisticsCompilerFor(c).None? <==> c.cacheDirectory.None? && c.persistenceManagerPicker.Some?
  {
  }
}
