/**
 * The application state shared by the daemon: the live configuration, the
 * path it was loaded from and the active theme pool, plus the rule that
 * resolves a relative image path against that pool.
 */
module State {
  import opened Types
  import opened Paths
  import Config

  /** The sub-directory of a theme pool that usually holds its images. */
  const ImagesDir: string := "images"

  /**
   * `AppState::resolve_image_path`. `dirs` is the set of paths that exist as
   * directories (the source asks the file system whether `<pool>/images` exists).
   */
  function ResolvePath(pool: Option<string>, path: string, dirs: set<string>): (r: string)
    ensures IsAbsolute(path) || pool.None? ==> r == path
    ensures !IsAbsolute(path) && pool.Some? ==>
      r == Join(if Join(pool.value, ImagesDir) in dirs then Join(pool.value, ImagesDir) else pool.value, path)
  {
    if IsAbsolute(path) then path
    else match pool
      case Some(p) =>
        var themeImages := Join(p, ImagesDir);
        if themeImages in dirs then Join(themeImages, path) else Join(p, path)
      case None => path
  }

  /** Whatever the pool, the resolved path ends with the path that was asked for. */
  lemma ResolvePathKeepsName(pool: Option<string>, path: string, dirs: set<string>)
    ensures var r := ResolvePath(pool, path, dirs);
      |r| >= |path| && r[|r| - |path|..] == path
  {
    match pool
    case None =>
    case Some(p) =>
      var base := if Join(p, ImagesDir) in dirs then Join(p, ImagesDir) else p;
      JoinEndsWith(base, path);
  }

  /**
   * With no pool or an absolute pool, a resolved path resolves to itself:
   * resolving twice is the same as resolving once.
   */
  lemma ResolvePathIdempotent(pool: Option<string>, path: string, dirs: set<string>)
    requires pool.None? || IsAbsolute(pool.value)
    ensures ResolvePath(pool, ResolvePath(pool, path, dirs), dirs) == ResolvePath(pool, path, dirs)
  {
    if pool.Some? && !IsAbsolute(path) {
      JoinAbsolute(pool.value, ImagesDir);
      var base := if Join(pool.value, ImagesDir) in dirs then Join(pool.value, ImagesDir) else pool.value;
      JoinAbsolute(base, path);
    }
  }

  /** What a trigger sees while it holds the state lock during one evaluation. */
  datatype StateView = StateView(config: Config.Config, imagesPool: Option<string>)

  class AppState {
    var configPath: string
    var imagesPool: Option<string>
    var isPool: bool
    var config: Config.Config

    constructor (config: Config.Config, configPath: string, imagesPool: Option<string>, isPool: bool)
      ensures this.config == config && this.configPath == configPath
      ensures this.imagesPool == imagesPool && this.isPool == isPool
    {
      this.config := config;
      this.configPath := configPath;
      this.imagesPool := imagesPool;
      this.isPool := isPool;
    }

    /** `is_pool` says whether a pool is set, and the pool is the configured one. */
    predicate PoolConsistent()
      reads this
    {
      (isPool <==> imagesPool.Some?) && imagesPool == config.pool
    }

    function View(): StateView
      reads this
    {
      StateView(config, imagesPool)
    }

    function ResolveImagePath(path: string, dirs: set<string>): string
      reads this
    {
      ResolvePath(imagesPool, path, dirs)
    }

    /** `get_current_background`: the image of some background entry, if any. */
    method GetCurrentBackground() returns (image: Option<string>)
      ensures config.background.None? ==> image.None?
      ensures config.background.Some? && config.background.value == map[] ==> image.None?
      ensures config.background.Some? && config.background.value != map[] ==>
        exists k :: k in config.background.value && config.background.value[k].image == image
    {
      match config.background
      case None => image := None;
      case Some(bg) =>
        if bg == map[] {
          image := None;
        } else {
          var k :| k in bg;
          image := bg[k].image;
        }
    }

    /** `get_fill_mode`: the fill mode of some background entry, `Fill` when there is none. */
    method GetFillMode() returns (mode: Config.FillMode)
      ensures config.background.None? ==> mode == Config.Fill
      ensures config.background.Some? && config.background.value == map[] ==> mode == Config.Fill
      ensures config.background.Some? && config.background.value != map[] ==>
        exists k :: k in config.background.value && config.background.value[k].fillMode == mode
    {
      mode := Config.Fill;
      if config.background.Some? && config.background.value != map[] {
        var bg := config.background.value;
        var k :| k in bg;
        mode := bg[k].fillMode;
      }
    }

    /** `update_background`: one `"default"` entry replaces every background entry. */
    method UpdateBackground(imagePath: string, fillMode: Config.FillMode)
      modifies this
      ensures config == old(config).(background :=
        Some(map["default" := Config.BackgroundConfig(Some(imagePath), fillMode)]))
      ensures imagesPool == old(imagesPool) && isPool == old(isPool) && configPath == old(configPath)
    {
      config := config.(background := Some(map["default" := Config.BackgroundConfig(Some(imagePath), fillMode)]));
    }

    /**
     * `reload_config`. `loaded` is the result of loading the file at
     * `configPath` and merging its theme manifest (a merge failure is ignored
     * by the source, so it is already folded into `loaded`).
     */
    method ReloadConfig(loaded: Result<Config.Config>) returns (r: Result<()>)
      modifies this
      ensures loaded.Err? ==>
        r == Err(loaded.error) && config == old(config) && imagesPool == old(imagesPool) && isPool == old(isPool)
      ensures loaded.Ok? ==> r == Ok(()) && config == loaded.value && PoolConsistent()
      ensures configPath == old(configPath)
    {
      if loaded.Err? {
        return Err(loaded.error);
      }
      config := loaded.value;
      imagesPool := config.pool;
      isPool := config.pool.Some?;
      r := Ok(());
    }
  }
}
