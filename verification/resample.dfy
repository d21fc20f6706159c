/**
 * The decisions `resample` takes about one raster: which scale factor to use,
 * the shape the data is read at, whether it is reprojected or only its affine
 * transform is rescaled, and which options the output is written with.
 * Reading, warping and writing pixels are done by the raster libraries; here
 * they are the answers recorded in a `RasterIo` value.
 */
module Resample {
  import opened Wrappers
  import opened Geometry

  /** The projected system in which the ground resolution is measured. */
  const REFERENCE_EPSG: int := 3857
  /** The geographic system the output is warped to when the input is in another one. */
  const OUTPUT_EPSG: int := 4326
  /** Target ground resolution of the automatic scale factor, in units of REFERENCE_EPSG. */
  const TARGET_RESOLUTION: real := 0.04
  const DEFAULT_SCALE_FACTOR: real := 0.1
  const DEFAULT_JPEG_QUALITY: int := 90

  /** A coordinate reference system; `Custom` has no EPSG code. */
  datatype Crs = Epsg(code: int) | Custom(wkt: string)

  /** `crs.to_epsg()`. */
  function ToEpsg(crs: Crs): Option<int>
  {
    match crs
    case Epsg(code) => Some(code)
    case Custom(_) => None
  }

  /** rasterio's `Resampling` methods; passed through to the read and the warp. */
  datatype Resampling =
    Nearest | Bilinear | Cubic | CubicSpline | Lanczos | Average | Mode | Gauss
    | Max | Min | Med | Q1 | Q3 | Sum | Rms

  /** What an opened input raster reports. */
  datatype Raster = Raster(crs: Crs, width: int, height: int, count: int, bounds: Bounds, transform: Affine)

  /** Rows, columns and transform of the data `rasterio.warp.reproject` returns. */
  datatype Warp = Warp(rows: int, cols: int, transform: Affine)

  /**
   * The arguments of one `rasterio.warp.reproject` call: the source system
   * and transform, the size of the array handed over, the destination system
   * (an EPSG code) and transform, and the resampling method.
   */
  datatype WarpRequest = WarpRequest(
    srcCrs: Crs,
    srcTransform: Affine,
    rows: int,
    cols: int,
    dstEpsg: int,
    dstTransform: Affine,
    resampling: Resampling)

  /**
   * The answers of the raster libraries during one call: the input bounds
   * transformed to REFERENCE_EPSG, the dtype of the array that is written, the
   * warp result for a request, and the bounds the written file reports when
   * reopened.
   */
  datatype RasterIo = RasterIo(
    projectedBounds: Bounds,
    dtype: string,
    warp: WarpRequest -> Warp,
    writtenBounds: Bounds)

  /** The `scale_factor` argument: a number, or a string that must spell 'auto'. */
  datatype ScaleFactor = Ratio(ratio: real) | Named(name: string)

  /** A call into the raster side: `resample(input, output, scale_factor)`, or `rasterio.open(path)`. */
  datatype RasterCall =
    | ResampleFile(input: string, output: string, scaleFactor: ScaleFactor)
    | OpenRaster(path: string)

  /** `(bands, rows, cols)` of an array read from the raster. */
  datatype Shape = Shape(bands: int, rows: int, cols: int)

  /** A key of the write-options dict: a keyword name, or the `jpeg_quality` argument value itself. */
  datatype OptionKey = Name(name: string) | Quality(quality: Option<int>)

  datatype OptionValue = Text(text: string) | Number(n: int) | CrsValue(crs: Crs) | TransformValue(transform: Affine)

  type WriteOptions = map<OptionKey, OptionValue>

  /**
   * `ValueError` for a bad scale factor; an empty or negative read shape, on
   * which the read or the division by `data.shape` fails; and the `TypeError`
   * of unpacking write options with a key that is not a string into keywords.
   */
  datatype ResampleError = InvalidScaleFactor | EmptyShape(shape: Shape) | NonStringKeyword

  /** The decisions of one successful call, and the bounds it returns. */
  datatype Output = Output(
    scaleFactor: real,
    readShape: Shape,
    reprojected: bool,
    transform: Affine,
    options: WriteOptions,
    bounds: Bounds)

  const BASE_KEYS: set<OptionKey> :=
    {Name("driver"), Name("height"), Name("width"), Name("count"), Name("dtype"), Name("crs"), Name("transform")}

  function LowerChar(c: char): char
  {
    if 'A' <= c <= 'Z' then (c as int + 32) as char else c
  }

  function UpperChar(c: char): char
  {
    if 'a' <= c <= 'z' then (c as int - 32) as char else c
  }

  /** `str.lower()` on the ASCII letters. */
  function Lower(s: string): (r: string)
    ensures |r| == |s| && forall i :: 0 <= i < |s| ==> r[i] == LowerChar(s[i])
  {
    seq(|s|, i requires 0 <= i < |s| => LowerChar(s[i]))
  }

  /** `str.upper()` on the ASCII letters. */
  function Upper(s: string): (r: string)
    ensures |r| == |s| && forall i :: 0 <= i < |s| ==> r[i] == UpperChar(s[i])
  {
    seq(|s|, i requires 0 <= i < |s| => UpperChar(s[i]))
  }

  /** `scale_factor.lower() == 'auto'`. */
  predicate IsAuto(s: string)
    ensures IsAuto(s) ==> |s| == 4 && LowerChar(s[0]) == 'a' && LowerChar(s[3]) == 'o'
  {
    Lower(s) == "auto"
  }

  /** The keyword is recognised whatever the case of its letters. */
  lemma AutoIgnoresCase(s: string)
    ensures IsAuto(Upper(s)) <==> IsAuto(s)
    ensures IsAuto("AUTO") && IsAuto("Auto") && !IsAuto("automatic")
  {
    assert Lower(Upper(s)) == Lower(s);
    assert Lower("AUTO") == "auto";
    assert Lower("Auto") == "auto";
  }

  /** Python's `int()` on a float: truncation toward zero. */
  function Trunc(x: real): (r: int)
    ensures 0.0 <= x ==> 0 <= r && r as real <= x < r as real + 1.0
    ensures x < 0.0 ==> r <= 0 && r as real - 1.0 < x <= r as real
  {
    if x >= 0.0 then x.Floor else -((-x).Floor)
  }

  /** The bounds the ground resolution is measured on: transformed only when the raster is not already in `reference`. */
  function GroundBounds(src: Raster, projected: Bounds, reference: int): (b: Bounds)
    ensures ToEpsg(src.crs) == Some(reference) ==> b == src.bounds
    ensures ToEpsg(src.crs) != Some(reference) ==> b == projected
  {
    if ToEpsg(src.crs) != Some(reference) then projected else src.bounds
  }

  /** `auto_scale_factor`: the finer of the two axis resolutions, divided by the target resolution. */
  function AutoScaleFactor(src: Raster, projected: Bounds, target: real, reference: int): (r: real)
    requires src.width > 0 && src.height > 0 && target != 0.0
    ensures var b := GroundBounds(src, projected, reference);
            var xs := (b.right - b.left) / (src.width as real) / target;
            var ys := (b.top - b.bottom) / (src.height as real) / target;
            (r == xs || r == ys) && (target > 0.0 ==> r <= xs && r <= ys)
  {
    var b := GroundBounds(src, projected, reference);
    var xres := (b.right - b.left) / (src.width as real);
    var yres := (b.top - b.bottom) / (src.height as real);
    var finer := if xres <= yres then xres else yres;
    assert target > 0.0 ==> finer / target <= xres / target && finer / target <= yres / target by {
      if target > 0.0 {
        DivideMonotonic(finer, xres, target);
        DivideMonotonic(finer, yres, target);
      }
    }
    finer / target
  }

  lemma DivideMonotonic(x: real, y: real, t: real)
    requires t > 0.0 && x <= y
    ensures x / t <= y / t
  {
    assert y / t - x / t == (y - x) / t;
  }

  /** A raster already in the reference system is measured on its own bounds: the transformed bounds are ignored. */
  lemma AutoScaleIgnoresProjectionInReference(src: Raster, p: Bounds, q: Bounds)
    requires src.width > 0 && src.height > 0 && ToEpsg(src.crs) == Some(REFERENCE_EPSG)
    ensures AutoScaleFactor(src, p, TARGET_RESOLUTION, REFERENCE_EPSG)
         == AutoScaleFactor(src, q, TARGET_RESOLUTION, REFERENCE_EPSG)
  {
  }

  /**
   * The scale factor `resample` goes on with: a number is used as given
   * (no clamp, no sign check); a string must spell 'auto' in any case, and the
   * automatic factor is capped at 1.0 so that it never upsamples.
   */
  function EffectiveScale(arg: ScaleFactor, src: Raster, projected: Bounds): (r: Result<real, ResampleError>)
    requires src.width > 0 && src.height > 0
    ensures arg.Ratio? ==> r == Ok(arg.ratio)
    ensures arg.Named? ==> (r.Ok? <==> IsAuto(arg.name))
    ensures r.Err? ==> r.error == InvalidScaleFactor
    ensures arg.Named? && r.Ok? ==> r.value <= 1.0
    ensures arg.Named? && r.Ok? ==>
              var raw := AutoScaleFactor(src, projected, TARGET_RESOLUTION, REFERENCE_EPSG);
              (raw <= 1.0 ==> r.value == raw) && (raw > 1.0 ==> r.value == 1.0)
  {
    match arg
    case Ratio(x) => Ok(x)
    case Named(s) =>
      if IsAuto(s) then
        var raw := AutoScaleFactor(src, projected, TARGET_RESOLUTION, REFERENCE_EPSG);
        Ok(if raw > 1.0 then 1.0 else raw)
      else Err(InvalidScaleFactor)
  }

  /** A raster whose ground pixels are at least as coarse as the target on both axes is not rescaled by 'auto'. */
  lemma AutoKeepsCoarseRasters(src: Raster, projected: Bounds, name: string)
    requires src.width > 0 && src.height > 0 && IsAuto(name)
    requires var b := GroundBounds(src, projected, REFERENCE_EPSG);
             (b.right - b.left) / (src.width as real) >= TARGET_RESOLUTION
             && (b.top - b.bottom) / (src.height as real) >= TARGET_RESOLUTION
    ensures EffectiveScale(Named(name), src, projected) == Ok(1.0)
  {
    var b := GroundBounds(src, projected, REFERENCE_EPSG);
    var xres := (b.right - b.left) / (src.width as real);
    var yres := (b.top - b.bottom) / (src.height as real);
    DivideMonotonic(TARGET_RESOLUTION, xres, TARGET_RESOLUTION);
    DivideMonotonic(TARGET_RESOLUTION, yres, TARGET_RESOLUTION);
  }

  /** `(src.count, int(src.height * scale), int(src.width * scale))`. */
  function OutShape(src: Raster, scale: real): (s: Shape)
    ensures s.bands == src.count
    ensures 0.0 <= scale && src.height >= 0 ==>
              0 <= s.rows && s.rows as real <= src.height as real * scale < s.rows as real + 1.0
    ensures 0.0 <= scale && src.width >= 0 ==>
              0 <= s.cols && s.cols as real <= src.width as real * scale < s.cols as real + 1.0
  {
    Shape(src.count, Trunc(src.height as real * scale), Trunc(src.width as real * scale))
  }

  predicate HasPixels(s: Shape)
  {
    s.rows > 0 && s.cols > 0
  }

  /** A factor in [0, 1] keeps the band count and floors each dimension, never beyond the source's. */
  lemma OutShapeWithinSource(src: Raster, scale: real)
    requires src.width >= 0 && src.height >= 0 && 0.0 <= scale <= 1.0
    ensures OutShape(src, scale).bands == src.count
    ensures OutShape(src, scale).rows == (src.height as real * scale).Floor
    ensures OutShape(src, scale).cols == (src.width as real * scale).Floor
    ensures 0 <= OutShape(src, scale).rows <= src.height
    ensures 0 <= OutShape(src, scale).cols <= src.width
  {
    ScaledAtMost(src.height, scale);
    ScaledAtMost(src.width, scale);
  }

  /** Truncating `n * scale` for a factor in [0, 1] floors it into [0, n]. */
  lemma ScaledAtMost(n: int, scale: real)
    requires n >= 0 && 0.0 <= scale <= 1.0
    ensures Trunc(n as real * scale) == (n as real * scale).Floor
    ensures 0 <= Trunc(n as real * scale) <= n
  {
    var x := n as real * scale;
    assert n as real - x == n as real * (1.0 - scale);
    assert 0.0 <= x <= n as real;
    var t := Trunc(x);
    assert t as real <= x;
  }

  /** With the default factor 1/10 each dimension is divided by ten, rounding down. */
  lemma DefaultOutShape(src: Raster)
    requires src.width >= 0 && src.height >= 0
    ensures OutShape(src, DEFAULT_SCALE_FACTOR) == Shape(src.count, src.height / 10, src.width / 10)
  {
    TenthFloor(src.height);
    TenthFloor(src.width);
  }

  lemma TenthFloor(n: int)
    requires n >= 0
    ensures Trunc(n as real * DEFAULT_SCALE_FACTOR) == n / 10
  {
    var q := n / 10;
    var x := n as real * DEFAULT_SCALE_FACTOR;
    assert 10 * q <= n < 10 * q + 10;
    assert x == n as real / 10.0;
    assert q as real <= x < q as real + 1.0;
  }

  /** `src.transform * Affine.scale(src.width / cols, src.height / rows)`. */
  function Rescaled(src: Raster, rows: int, cols: int): (t: Affine)
    requires rows != 0 && cols != 0
    // the origin stays; the pixel axes stretch by width/cols and height/rows
    ensures t.c == src.transform.c && t.f == src.transform.f
    ensures t.a == src.transform.a * (src.width as real / cols as real)
         && t.d == src.transform.d * (src.width as real / cols as real)
    ensures t.b == src.transform.b * (src.height as real / rows as real)
         && t.e == src.transform.e * (src.height as real / rows as real)
  {
    Compose(src.transform, Scale(src.width as real / cols as real, src.height as real / rows as real))
  }

  /** Output pixel (col, row) lands where source pixel (col * width/cols, row * height/rows) does. */
  lemma RescaledPixel(src: Raster, rows: int, cols: int, col: real, row: real)
    requires rows != 0 && cols != 0
    ensures Apply(Rescaled(src, rows, cols), col, row)
         == Apply(src.transform, src.width as real / cols as real * col, src.height as real / rows as real * row)
  {
    var sx, sy := src.width as real / cols as real, src.height as real / rows as real;
    assert Rescaled(src, rows, cols) == Compose(src.transform, Scale(sx, sy));
    ApplyScaled(src.transform, sx, sy, col, row);
  }

  /** The rescaled grid of cols x rows pixels spans exactly the source's extent. */
  lemma RescaledCoversSource(src: Raster, rows: int, cols: int)
    requires rows > 0 && cols > 0
    ensures Apply(Rescaled(src, rows, cols), 0.0, 0.0) == Apply(src.transform, 0.0, 0.0)
    ensures Apply(Rescaled(src, rows, cols), cols as real, rows as real)
         == Apply(src.transform, src.width as real, src.height as real)
  {
    var w, h, c, n := src.width as real, src.height as real, cols as real, rows as real;
    RescaledPixel(src, rows, cols, 0.0, 0.0);
    assert w / c * 0.0 == 0.0 && h / n * 0.0 == 0.0;
    RescaledPixel(src, rows, cols, c, n);
    var x, y := w / c * c, h / n * n;
    assert x == w && y == h;
    assert Apply(src.transform, x, y) == Apply(src.transform, w, h);
  }

  /** Lines choosing the scale factor: the number as given, or the capped automatic factor. */
  method ChooseScale(scaleFactor: ScaleFactor, src: Raster, projected: Bounds) returns (r: Result<real, ResampleError>)
    requires src.width > 0 && src.height > 0
    ensures r == EffectiveScale(scaleFactor, src, projected)
  {
    var scale: real;
    match scaleFactor {
      case Ratio(x) =>
        scale := x;
      case Named(s) =>
        if IsAuto(s) {
          scale := AutoScaleFactor(src, projected, TARGET_RESOLUTION, REFERENCE_EPSG);
          if scale > 1.0 {
            scale := 1.0;
          }
        } else {
          return Err(InvalidScaleFactor);
        }
    }
    r := Ok(scale);
  }

  /** `compress.lower() == 'jpeg'` for a given compression. */
  predicate IsJpeg(compress: Option<string>)
    ensures IsJpeg(compress) ==>
              compress.Some? && |compress.value| == 4
              && LowerChar(compress.value[0]) == 'j' && LowerChar(compress.value[3]) == 'g'
  {
    compress.Some? && Lower(compress.value) == "jpeg"
  }

  /** `**write_options` only succeeds when every key is a keyword name. */
  predicate KeywordsOnly(o: WriteOptions)
    ensures KeywordsOnly(o) ==> forall q :: Quality(q) !in o
  {
    forall k :: k in o ==> k.Name?
  }

  /**
   * What the write-options dict holds for an array of `rows` x `cols` pixels:
   * the seven keyword entries, "compress" (upper-cased) only when a compression
   * is given, and for 'jpeg' in any case one more entry whose key is the
   * `jpeg_quality` argument and whose value is that quality or 90.
   */
  predicate WriteOptionsFor(o: WriteOptions, driver: string, rows: int, cols: int, src: Raster, dtype: string,
                            transform: Affine, compress: Option<string>, jpegQuality: Option<int>)
  {
    && BASE_KEYS <= o.Keys
    && o[Name("driver")] == Text(driver)
    && o[Name("height")] == Number(rows) && o[Name("width")] == Number(cols)
    && o[Name("count")] == Number(src.count)
    && o[Name("dtype")] == Text(dtype)
    && o[Name("crs")] == CrsValue(src.crs)
    && o[Name("transform")] == TransformValue(transform)
    && (forall k :: k in o ==> k in BASE_KEYS || k == Name("compress") || k == Quality(jpegQuality))
    && (Name("compress") in o <==> compress.Some?)
    && (compress.Some? ==> o[Name("compress")] == Text(Upper(compress.value)))
    && (Quality(jpegQuality) in o <==> IsJpeg(compress))
    && (Quality(jpegQuality) in o ==>
          o[Quality(jpegQuality)] == Number(if jpegQuality.Some? then jpegQuality.value else DEFAULT_JPEG_QUALITY))
  }

  /**
   * The write-options dict for an array of `rows` x `cols` pixels: the seven
   * keyword entries, then "compress" and the JPEG quality entry.
   */
  method BuildWriteOptions(driver: string, rows: int, cols: int, src: Raster, dtype: string, transform: Affine,
                           compress: Option<string>, jpegQuality: Option<int>)
    returns (o: WriteOptions)
    ensures WriteOptionsFor(o, driver, rows, cols, src, dtype, transform, compress, jpegQuality)
  {
    o := map[
      Name("driver") := Text(driver),
      Name("height") := Number(rows),
      Name("width") := Number(cols),
      Name("count") := Number(src.count),
      Name("dtype") := Text(dtype),
      Name("crs") := CrsValue(src.crs),
      Name("transform") := TransformValue(transform)];
    if compress.Some? {
      o := o[Name("compress") := Text(Upper(compress.value))];
      if IsJpeg(compress) {
        o := o[Quality(jpegQuality) := Number(if jpegQuality.Some? then jpegQuality.value else DEFAULT_JPEG_QUALITY)];
      }
    }
  }

  /**
   * The reprojection of the read array: from the source system, with the
   * source's full-resolution transform, to EPSG:4326 at the rescaled
   * transform, which stays in the source system's units.
   */
  function WarpRequestFor(src: Raster, rows: int, cols: int, resampling: Resampling): (q: WarpRequest)
    requires rows != 0 && cols != 0
    ensures q.srcCrs == src.crs && q.dstEpsg == OUTPUT_EPSG && q.resampling == resampling
    ensures q.srcTransform == src.transform && q.dstTransform == Rescaled(src, rows, cols)
    ensures q.rows == rows && q.cols == cols
  {
    WarpRequest(src.crs, src.transform, rows, cols, OUTPUT_EPSG, Rescaled(src, rows, cols), resampling)
  }

  /** The dimensions the written array has: the warp's when reprojected, else the read shape's. */
  function WrittenSize(src: Raster, io: RasterIo, shape: Shape, resampling: Resampling, reprojected: bool)
    : (size: (int, int))
    requires shape.rows != 0 && shape.cols != 0
    ensures !reprojected ==> size == (shape.rows, shape.cols)
    ensures reprojected ==>
              var warped := io.warp(WarpRequestFor(src, shape.rows, shape.cols, resampling));
              size == (warped.rows, warped.cols)
  {
    if reprojected then
      var warped := io.warp(WarpRequestFor(src, shape.rows, shape.cols, resampling));
      (warped.rows, warped.cols)
    else (shape.rows, shape.cols)
  }

  /**
   * Reproject when the input is not in OUTPUT_EPSG, asking the warp for the
   * rescaled transform; otherwise only rescale the transform. Returns the
   * transform and the dimensions of the array that is then written.
   */
  method PlaceOnGrid(src: Raster, io: RasterIo, rows: int, cols: int, resampling: Resampling)
    returns (reprojected: bool, transform: Affine, outRows: int, outCols: int)
    requires rows > 0 && cols > 0
    ensures reprojected <==> ToEpsg(src.crs) != Some(OUTPUT_EPSG)
    ensures reprojected ==> transform == io.warp(WarpRequestFor(src, rows, cols, resampling)).transform
    ensures !reprojected ==> transform == Rescaled(src, rows, cols)
    ensures (outRows, outCols) == WrittenSize(src, io, Shape(src.count, rows, cols), resampling, reprojected)
  {
    var rescaled := Rescaled(src, rows, cols);
    reprojected := ToEpsg(src.crs) != Some(OUTPUT_EPSG);
    if reprojected {
      var warped := io.warp(WarpRequest(src.crs, src.transform, rows, cols, OUTPUT_EPSG, rescaled, resampling));
      transform, outRows, outCols := warped.transform, warped.rows, warped.cols;
    } else {
      transform, outRows, outCols := rescaled, rows, cols;
    }
  }

  /**
   * `resample(input_file, output_file, scale_factor, method, driver, compress,
   * jpeg_quality)` on the opened raster `src`.
   */
  method Resample(src: Raster, io: RasterIo, scaleFactor: ScaleFactor, resampling: Resampling,
                  driver: string, compress: Option<string>, jpegQuality: Option<int>)
    returns (r: Result<Output, ResampleError>)
    requires src.width > 0 && src.height > 0
    ensures EffectiveScale(scaleFactor, src, io.projectedBounds).Err? ==> r == Err(InvalidScaleFactor)
    ensures EffectiveScale(scaleFactor, src, io.projectedBounds).Ok? ==>
              var shape := OutShape(src, EffectiveScale(scaleFactor, src, io.projectedBounds).value);
              (!HasPixels(shape) ==> r == Err(EmptyShape(shape)))
              && (HasPixels(shape) ==> (r.Err? <==> IsJpeg(compress)) && (r.Err? ==> r.error == NonStringKeyword))
    // JPEG compression never gets as far as writing
    ensures IsJpeg(compress) ==> r.Err?
    ensures r.Ok? ==> Ok(r.value.scaleFactor) == EffectiveScale(scaleFactor, src, io.projectedBounds)
    ensures r.Ok? ==> r.value.readShape == OutShape(src, r.value.scaleFactor) && HasPixels(r.value.readShape)
    ensures r.Ok? ==> r.value.bounds == io.writtenBounds
    // reprojected exactly when the input is not in the output system
    ensures r.Ok? ==> (r.value.reprojected <==> ToEpsg(src.crs) != Some(OUTPUT_EPSG))
    ensures r.Ok? ==>
              var shape := r.value.readShape;
              r.value.transform
              == if r.value.reprojected then io.warp(WarpRequestFor(src, shape.rows, shape.cols, resampling)).transform
                 else Rescaled(src, shape.rows, shape.cols)
    ensures r.Ok? ==>
              var size := WrittenSize(src, io, r.value.readShape, resampling, r.value.reprojected);
              WriteOptionsFor(r.value.options, driver, size.0, size.1, src, io.dtype, r.value.transform, compress, jpegQuality)
  {
    var chosen := ChooseScale(scaleFactor, src, io.projectedBounds);
    if chosen.Err? {
      return Err(chosen.error);
    }
    var scale := chosen.value;

    // the read with out_shape; an empty or negative shape fails there or in the division below
    var shape := OutShape(src, scale);
    if shape.rows <= 0 || shape.cols <= 0 {
      return Err(EmptyShape(shape));
    }
    var reprojected, transform, rows, cols := PlaceOnGrid(src, io, shape.rows, shape.cols, resampling);
    var options := BuildWriteOptions(driver, rows, cols, src, io.dtype, transform, compress, jpegQuality);
    // `rasterio.open(output_file, "w", **write_options)`
    if !KeywordsOnly(options) {
      KeywordsOnlyUnlessJpeg(options, driver, rows, cols, src, io.dtype, transform, compress, jpegQuality);
      return Err(NonStringKeyword);
    }
    KeywordsOnlyUnlessJpeg(options, driver, rows, cols, src, io.dtype, transform, compress, jpegQuality);
    r := Ok(Output(scale, shape, reprojected, transform, options, io.writtenBounds));
  }

  /**
   * As written, the JPEG quality is stored under the `jpeg_quality` argument
   * itself (None, or the number), never under the name "jpeg_quality": with
   * compression 'JPEG' and no quality given, the key is None and the value 90.
   */
  lemma QualityKeyIsTheArgument(o: WriteOptions, driver: string, rows: int, cols: int, src: Raster, dtype: string,
                                transform: Affine, compress: Option<string>, jpegQuality: Option<int>)
    requires WriteOptionsFor(o, driver, rows, cols, src, dtype, transform, compress, jpegQuality)
    ensures Name("jpeg_quality") !in o
    ensures compress == Some("JPEG") && jpegQuality == None ==> o[Quality(None)] == Number(90)
  {
    assert Name("jpeg_quality") !in BASE_KEYS;
    if compress == Some("JPEG") {
      assert Lower("JPEG") == "jpeg";
    }
  }

  /**
   * The options can be passed as keywords exactly when the compression is not
   * JPEG: for JPEG the quality entry's key is `None` or a number, so the
   * write raises whatever `jpeg_quality` is.
   */
  lemma KeywordsOnlyUnlessJpeg(o: WriteOptions, driver: string, rows: int, cols: int, src: Raster, dtype: string,
                               transform: Affine, compress: Option<string>, jpegQuality: Option<int>)
    requires WriteOptionsFor(o, driver, rows, cols, src, dtype, transform, compress, jpegQuality)
    ensures KeywordsOnly(o) <==> !IsJpeg(compress)
  {
    if IsJpeg(compress) {
      assert Quality(jpegQuality) in o;
    } else {
      forall k | k in o
        ensures k.Name?
      {
        assert k in BASE_KEYS || k == Name("compress") || k == Quality(jpegQuality);
      }
    }
  }
}
