/** The configuration singleton: a holder of the current configuration
    provider that creates a default provider on first use. The provider is
    reduced to the three settings the sample setup writes; the values a
    default provider starts with are a parameter of the holder. */
module Configurations {
  import opened Wrappers
  import opened JavaInt

  /** The settings of a provider this model follows. */
  datatype Settings = Settings(cacheMapTileCount: int, cacheMapTileOvershoot: int, osmdroidTileCache: Option<string>)

  class ConfigurationProvider {
    /** Both counts are `Short`s. */
    var cacheMapTileCount: int
    var cacheMapTileOvershoot: int
    /** The tile cache directory, or null. */
    var osmdroidTileCache: Option<string>

    function Current(): Settings
      reads this
    {
      Settings(cacheMapTileCount, cacheMapTileOvershoot, osmdroidTileCache)
    }

    constructor (initial: Settings)
      ensures Current() == initial
    {
      cacheMapTileCount := initial.cacheMapTileCount;
      cacheMapTileOvershoot := initial.cacheMapTileOvershoot;
      osmdroidTileCache := initial.osmdroidTileCache;
    }

    method SetCacheMapTileCount(count: int)
      requires IsShort(count)
      modifies this`cacheMapTileCount
      ensures cacheMapTileCount == count
    {
      cacheMapTileCount := count;
    }

    method SetCacheMapTileOvershoot(overshoot: int)
      requires IsShort(overshoot)
      modifies this`cacheMapTileOvershoot
      ensures cacheMapTileOvershoot == overshoot
    {
      cacheMapTileOvershoot := overshoot;
    }

    method SetOsmdroidTileCache(dir: Option<string>)
      modifies this`osmdroidTileCache
      ensures osmdroidTileCache == dir
    {
      osmdroidTileCache := dir;
    }
  }

  /** The `Configuration` object. */
  class Configuration {
    var ref: ConfigurationProvider?
    /** What a newly created default provider holds. */
    const defaults: Settings

    constructor (defaults: Settings)
      ensures ref == null && this.defaults == defaults
    {
      ref := null;
      this.defaults := defaults;
    }

    /** The `instance` getter: never null. A missing provider is replaced by
        a new default one, which is kept; otherwise the current one is
        returned unchanged. */
    method Instance() returns (p: ConfigurationProvider)
      modifies this`ref
      ensures ref == p
      ensures old(ref) != null ==> p == old(ref)
      ensures old(ref) == null ==> fresh(p) && p.Current() == defaults
    {
      if ref == null {
        ref := new ConfigurationProvider(defaults);
      }
      p := ref;
    }

    /** `setConfigurationProvider`: installs `instance`, null included. */
    method SetConfigurationProvider(instance: ConfigurationProvider?)
      modifies this`ref
      ensures ref == instance
    {
      ref := instance;
    }
  }

  /** Two reads with no set between them give the same provider. */
  method ReadTwice(c: Configuration) returns (p1: ConfigurationProvider, p2: ConfigurationProvider)
    modifies c
    ensures p1 == p2 && c.ref == p1
  {
    p1 := c.Instance();
    p2 := c.Instance();
  }

  /** After installing a provider, reads return it. */
  method SetThenRead(c: Configuration, provider: ConfigurationProvider) returns (p: ConfigurationProvider)
    modifies c
    ensures p == provider
  {
    c.SetConfigurationProvider(provider);
    p := c.Instance();
  }

  /** After installing null, the next read creates a new default provider
      and the read after it returns that same provider. */
  method SetNullThenRead(c: Configuration) returns (p1: ConfigurationProvider, p2: ConfigurationProvider)
    modifies c
    ensures fresh(p1) && p1.Current() == c.defaults && p2 == p1
  {
    c.SetConfigurationProvider(null);
    p1 := c.Instance();
    p2 := c.Instance();
  }
}
