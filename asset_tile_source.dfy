/** The sample asset-backed tile source and the setup that installs it: a
    tile lives at the asset path `name/z/x/y.ending`. The numbers are written the way Kotlin's string
    templates write an `Int`. The module also holds a parser that reads the
    three numbers back. The parser is the partner of the formatter: their
    round trip shows that different tiles never share a path. */
module AssetTileSource {
  import opened Wrappers
  import opened JavaInt
  import opened TileSources
  import opened Configurations
  import opened MapViews

  /** A tile's zoom level and its column and row at that zoom. */
  datatype TileCoordinates = TileCoordinates(zoom: int, x: int, y: int)

  predicate IsDigit(c: char) { '0' <= c <= '9' }

  predicate AllDigits(s: string) { forall i :: 0 <= i < |s| ==> IsDigit(s[i]) }

  function DigitChar(d: int): (c: char)
    requires 0 <= d < 10
    ensures IsDigit(c)
  {
    ('0' as int + d) as char
  }

  /** The decimal digits of `n`, most significant first, without leading zeros. */
  function NatDigits(n: nat): (s: string)
    ensures |s| >= 1 && AllDigits(s)
    ensures n >= 10 ==> s[0] != '0'
  {
    if n < 10 then [DigitChar(n)] else NatDigits(n / 10) + [DigitChar(n % 10)]
  }

  /** An `Int` as a string template renders it: decimal, with a leading '-'
      when negative. */
  function IntToString(n: int): (s: string)
    ensures |s| >= 1
    ensures '/' !in s && '.' !in s
    ensures n >= 0 <==> AllDigits(s)
  {
    var s := if n < 0 then "-" + NatDigits(-n) else NatDigits(n);
    assert n < 0 ==> !IsDigit(s[0]);
    assert forall i :: 0 <= i < |s| ==> s[i] == '-' || IsDigit(s[i]);
    s
  }

  function ParseDigits(s: string): nat
    requires AllDigits(s)
  {
    if |s| == 0 then 0 else ParseDigits(s[..|s| - 1]) * 10 + (s[|s| - 1] as int - '0' as int)
  }

  /** Reads back a number written by `IntToString`; `None` for anything that
      is not an optional '-' followed by one or more digits. */
  function ParseInt(s: string): Option<int>
  {
    if |s| >= 2 && s[0] == '-' && AllDigits(s[1..]) then Some(-(ParseDigits(s[1..]) as int))
    else if |s| >= 1 && AllDigits(s) then Some(ParseDigits(s))
    else None
  }

  lemma {:induction false} ParseNatDigits(n: nat)
    ensures ParseDigits(NatDigits(n)) == n
  {
    if n >= 10 {
      var s := NatDigits(n);
      assert s[..|s| - 1] == NatDigits(n / 10);
      ParseNatDigits(n / 10);
    }
  }

  /** Printing a number and reading it back gives the number. */
  lemma ParseIntToString(n: int)
    ensures ParseInt(IntToString(n)) == Some(n)
  {
    if n < 0 {
      var s := IntToString(n);
      assert s[1..] == NatDigits(-n);
      ParseNatDigits(-n);
    } else {
      ParseNatDigits(n);
    }
  }

  /** The position of the first `c` in `s`, if there is one. */
  function IndexOf(s: string, c: char): (r: Option<nat>)
    ensures r.Some? ==> r.value < |s| && s[r.value] == c && c !in s[..r.value]
    ensures r.None? <==> c !in s
  {
    if |s| == 0 then None
    else if s[0] == c then Some(0)
    else match IndexOf(s[1..], c)
      case None => None
      case Some(i) => Some(i + 1)
  }

  /** The relative asset path of a tile, as `getTileRelativeFilenameString`
      forms it. It begins with the source name and a '/' and ends with '.'
      and the filename ending. */
  function TileRelativeFilename(name: string, tile: TileCoordinates, ending: string): (p: string)
    ensures |p| > |name| + |ending| + 1
    ensures p[..|name| + 1] == name + "/"
    ensures p[|p| - |ending| - 1..] == "." + ending
  {
    name + "/" + IntToString(tile.zoom) + "/" + IntToString(tile.x) + "/" + IntToString(tile.y) + "." + ending
  }

  /** The inverse of `TileRelativeFilename` for a known name and ending:
      strip both, then read the three numbers between them. */
  function ParseTileRelativeFilename(name: string, ending: string, p: string): Option<TileCoordinates>
  {
    match StripAffixes(name + "/", "." + ending, p)
    case None => None
    case Some(middle) => ParseTriple(middle)
  }

  /** `p` without the given prefix and suffix, if it has both and they do not overlap. */
  function StripAffixes(prefix: string, suffix: string, p: string): (r: Option<string>)
    ensures r.Some? ==> p == prefix + r.value + suffix
  {
    if |p| < |prefix| + |suffix| || p[..|prefix|] != prefix || p[|p| - |suffix|..] != suffix then None
    else
      var middle := p[|prefix|..|p| - |suffix|];
      assert p == p[..|prefix|] + middle + p[|p| - |suffix|..];
      Some(middle)
  }

  /** Splits `z/x/y` at its first two '/'s and reads the three numbers. */
  function ParseTriple(middle: string): Option<TileCoordinates>
  {
    match IndexOf(middle, '/')
    case None => None
    case Some(i) =>
      var rest := middle[i + 1..];
      match IndexOf(rest, '/')
      case None => None
      case Some(j) =>
        match (ParseInt(middle[..i]), ParseInt(rest[..j]), ParseInt(rest[j + 1..]))
        case (Some(z), Some(x), Some(y)) => Some(TileCoordinates(z, x, y))
        case _ => None
  }

  lemma FirstSlash(a: string, b: string)
    requires '/' !in a
    ensures IndexOf(a + "/" + b, '/') == Some(|a|)
  {
    var s := a + "/" + b;
    assert s[|a|] == '/';
    assert s[..|a|] == a;
  }

  /** A string with exactly two '/'s splits into the three pieces between them. */
  lemma ParseTripleSplit(a: string, b: string, c: string)
    requires '/' !in a && '/' !in b && '/' !in c
    ensures ParseTriple(a + "/" + b + "/" + c) ==
      match (ParseInt(a), ParseInt(b), ParseInt(c))
      case (Some(z), Some(x), Some(y)) => Some(TileCoordinates(z, x, y))
      case _ => None
  {
    var middle := a + "/" + b + "/" + c;
    assert middle == a + "/" + (b + "/" + c);
    FirstSlash(a, b + "/" + c);
    assert middle[..|a|] == a;
    var rest := middle[|a| + 1..];
    assert rest == b + "/" + c;
    FirstSlash(b, c);
    assert rest[..|b|] == b && rest[|b| + 1..] == c;
  }

  lemma ParseTripleOfStrings(tile: TileCoordinates)
    ensures ParseTriple(IntToString(tile.zoom) + "/" + IntToString(tile.x) + "/" + IntToString(tile.y)) == Some(tile)
  {
    ParseTripleSplit(IntToString(tile.zoom), IntToString(tile.x), IntToString(tile.y));
    ParseIntToString(tile.zoom);
    ParseIntToString(tile.x);
    ParseIntToString(tile.y);
  }

  lemma StripAffixesOf(prefix: string, middle: string, suffix: string)
    ensures StripAffixes(prefix, suffix, prefix + middle + suffix) == Some(middle)
  {
    var p := prefix + middle + suffix;
    assert p[..|prefix|] == prefix;
    assert p[|p| - |suffix|..] == suffix;
    assert p[|prefix|..|p| - |suffix|] == middle;
  }

  /** Reading a formatted path back gives the tile that was formatted, for
      every zoom, column and row (negative ones included). */
  lemma FilenameRoundTrip(name: string, tile: TileCoordinates, ending: string)
    ensures ParseTileRelativeFilename(name, ending, TileRelativeFilename(name, tile, ending)) == Some(tile)
  {
    var middle := IntToString(tile.zoom) + "/" + IntToString(tile.x) + "/" + IntToString(tile.y);
    assert TileRelativeFilename(name, tile, ending) == (name + "/") + middle + ("." + ending);
    StripAffixesOf(name + "/", middle, "." + ending);
    ParseTripleOfStrings(tile);
  }

  /** For a fixed source name and ending, different tiles have different paths. */
  lemma FilenameInjective(name: string, ending: string, t1: TileCoordinates, t2: TileCoordinates)
    requires TileRelativeFilename(name, t1, ending) == TileRelativeFilename(name, t2, ending)
    ensures t1 == t2
  {
    FilenameRoundTrip(name, t1, ending);
    FilenameRoundTrip(name, t2, ending);
  }

  /** The asset that `getDrawable` opens: none for a null path, so a null
      path yields no drawable without touching the assets; otherwise the
      path itself. Opening and decoding it are not part of this model. */
  function AssetToOpen(filePath: Option<string>): (asset: Option<string>)
    ensures asset.None? <==> filePath.None?
    ensures filePath.Some? ==> asset == filePath
  {
    match filePath
    case None => None
    case Some(path) => Some(path)
  }

  /** The source both sample setups build: "customtiles", zoom 15 to 19,
      256-pixel tiles, "png" files. */
  function CustomTileSource(): (params: TileSourceParams)
    ensures params.zoomMinLevel <= params.zoomMaxLevel
    ensures params.name == "customtiles" && params.imageFilenameEnding == "png"
    ensures params.zoomMinLevel == 15 && params.zoomMaxLevel == 19 && params.tileSizePixels == 256
  {
    TileSourceParams("customtiles", 15, 19, 256, "png")
  }

  /** `setupCustomTilesOverlays`: through the configuration singleton (each
      read returns the same provider, creating it on the first read if there
      was none) it sets the tile cache size to `60000.toShort()`, which is
      -5536, the overshoot to 2000 and the cache directory to the app's
      external files directory; then it adds a tiles overlay over the custom
      source, with transparent loading background and lines. */
  method SetupCustomTilesOverlays(config: Configuration, mapView: MapView, externalFilesDir: Option<string>)
    modifies config, config.ref, mapView`overlays
    ensures config.ref != null
    ensures old(config.ref) != null ==> config.ref == old(config.ref)
    ensures config.ref.Current() == Settings(-5536, 2000, externalFilesDir)
    ensures mapView.overlays == old(mapView.overlays) + [TilesOverlay(CustomTileSource(), Some(TRANSPARENT), Some(TRANSPARENT))]
  {
    var provider := config.Instance();
    provider.SetCacheMapTileCount(ToShort(60000));
    provider := config.Instance();
    provider.SetCacheMapTileOvershoot(ToShort(2000));
    provider := config.Instance();
    provider.SetOsmdroidTileCache(externalFilesDir);
    var overlay := TilesOverlay(CustomTileSource(), Some(TRANSPARENT), None);
    overlay := overlay.(loadingLineColor := Some(TRANSPARENT));
    mapView.AddOverlay(overlay);
  }

  /** 60000 does not fit in a `Short`; the narrowing keeps its low 16 bits. */
  lemma TileCountNarrowing()
    ensures !IsShort(60000) && ToShort(60000) == 60000 - TWO_16 == -5536
    ensures IsShort(2000) && ToShort(2000) == 2000
  {
  }
}
