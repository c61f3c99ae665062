/** The tile provider's time units and cache-expiry constants. Every time
    constant is a `Long` count of milliseconds built as a product of the
    constants before it. */
module TileProviderConstants {
  import opened JavaInt

  const MINIMUM_ZOOM_LEVEL: int := 0

  /** Appended to cached tile files so that media scanners skip them. */
  const TILE_PATH_EXTENSION: string := ".tile"

  const ONE_SECOND: int := 1000
  const ONE_MINUTE: int := ONE_SECOND * 60
  const ONE_HOUR: int := ONE_MINUTE * 60
  const ONE_DAY: int := ONE_HOUR * 24
  const ONE_WEEK: int := ONE_DAY * 7
  const ONE_YEAR: int := ONE_DAY * 365
  const DEFAULT_MAXIMUM_CACHED_FILE_AGE: int := ONE_WEEK

  /** Thirty days. The leading `1000L` makes the whole product a `Long`
      product; as an `Int` product it would not fit. */
  const TILE_EXPIRY_TIME_MILLISECONDS: int := 1000 * 60 * 60 * 24 * 30

  const HTTP_EXPIRES_HEADER: string := "Expires"
  const HTTP_CACHE_CONTROL_HEADER: string := "Cache-Control"
  const HTTP_EXPIRES_HEADER_FORMAT: string := "EEE, dd MMM yyyy HH:mm:ss z"

  /** The time units in milliseconds, and their relation to each other. */
  lemma TimeUnits()
    ensures ONE_MINUTE == 60_000 && ONE_HOUR == 3_600_000 && ONE_DAY == 86_400_000
    ensures ONE_WEEK == 604_800_000 && ONE_WEEK == 7 * ONE_DAY
    ensures ONE_YEAR == 31_536_000_000 && ONE_YEAR == 365 * ONE_DAY
    ensures DEFAULT_MAXIMUM_CACHED_FILE_AGE == ONE_WEEK
    ensures TILE_EXPIRY_TIME_MILLISECONDS == 2_592_000_000 && TILE_EXPIRY_TIME_MILLISECONDS == 30 * ONE_DAY
  {
  }

  /** Every time constant is a `Long` without wrap-around; the year and the
      expiry time are beyond `Int`, so an `Int` product would have wrapped. */
  lemma TimeUnitsFitLong()
    ensures IsLong(ONE_YEAR) && IsLong(TILE_EXPIRY_TIME_MILLISECONDS)
    ensures IsInt(ONE_WEEK) && !IsInt(ONE_YEAR) && !IsInt(TILE_EXPIRY_TIME_MILLISECONDS)
    ensures WrapInt(TILE_EXPIRY_TIME_MILLISECONDS) == -1_702_967_296
  {
  }

  /** A file is considered stale (one week) well before a tile without a
      server expiry expires (thirty days). */
  lemma CachedFileAgeBeforeExpiry()
    ensures DEFAULT_MAXIMUM_CACHED_FILE_AGE < TILE_EXPIRY_TIME_MILLISECONDS
    ensures MINIMUM_ZOOM_LEVEL == 0
    ensures TILE_PATH_EXTENSION == ".tile" && TILE_PATH_EXTENSION[0] == '.'
  {
  }
}
