/**
 * The skybox image analyser (client/src/game/world/skybox/image.rs) as it is
 * written: background sampling, an empty measurement step, and a conversion
 * that always ends in an error.
 */
module SkyboxImage {
  import opened Wrappers
  import opened Integers

  /** Every way the analysis can fail. */
  datatype ImageError =
    | DecodeFailed
    | BackgroundNotDetermined
    | NetNotFound
    | NotAligned
    | CopyError
    | AssetNotFound

  datatype Rgba = Rgba(r: U8, g: U8, b: U8, a: U8)

  /** A decoded RGBA-8 image: `rows[y][x]` is the pixel at column x of row y. */
  datatype RgbaImage = RgbaImage(width: nat, height: nat, rows: seq<seq<Rgba>>) {
    /** The buffer matches the dimensions, which are u32 values. */
    ghost predicate Valid() {
      && width < U32_MODULUS && height < U32_MODULUS
      && |rows| == height
      && forall y :: 0 <= y < |rows| ==> |rows[y]| == width
    }

    /** `get_pixel(x, y)`; the library panics outside the image. */
    function Pixel(x: nat, y: nat): Rgba
      requires Valid() && x < width && y < height
    {
      rows[y][x]
    }
  }

  /** The column sampled for grid column `i`: `(i * 2 + 1) * width / 8` in wrapping u32 arithmetic. */
  function SampleX(i: nat, width: nat): nat
  {
    ((i * 2 + 1) * width % U32_MODULUS) / 8
  }

  /** The row sampled for grid row `j`: `(j * 4 + 1) * height / 6` in wrapping u32 arithmetic. */
  function SampleY(j: nat, height: nat): nat
  {
    ((j * 4 + 1) * height % U32_MODULUS) / 6
  }

  /**
   * The eight sample points, in the order of `(0..4).cartesian_product(0..2)`:
   * grid column major, grid row minor.
   */
  function SamplePoints(width: nat, height: nat): (pts: seq<(nat, nat)>)
    ensures |pts| == 8
    ensures forall i :: 0 <= i < 4 ==> forall j :: 0 <= j < 2 ==>
      pts[2 * i + j] == (SampleX(i, width), SampleY(j, height))
  {
    seq(8, k requires 0 <= k < 8 => (SampleX(k / 2, width), SampleY(k % 2, height)))
  }

  /** Without overflow the sampled column is the plain formula. */
  lemma SampleXExact(i: nat, width: nat)
    requires (i * 2 + 1) * width < U32_MODULUS
    ensures SampleX(i, width) == (i * 2 + 1) * width / 8
  {
  }

  /**
   * Every sampled column lies inside the image, for every u32 width from 1 up,
   * even where `7 * width` wraps around.
   */
  lemma SampleXInBounds(i: nat, width: nat)
    requires i < 4 && 1 <= width < U32_MODULUS
    ensures SampleX(i, width) < width
  {
    var k := i * 2 + 1;
    assert 1 <= k <= 7;
    var p := k * width;
    if p < U32_MODULUS {
      assert p % U32_MODULUS == p;
      assert p <= 7 * width;
      assert p / 8 < width;
    } else {
      // The product wrapped, so the width exceeds 2^32 / 7 > 2^32 / 8.
      assert 7 * width >= p >= U32_MODULUS;
      assert width > U32_MODULUS / 8;
      assert p % U32_MODULUS < U32_MODULUS;
    }
  }

  /** Every sampled row lies inside the image, for every u32 height from 1 up. */
  lemma SampleYInBounds(j: nat, height: nat)
    requires j < 2 && 1 <= height < U32_MODULUS
    ensures SampleY(j, height) < height
  {
    var k := j * 4 + 1;
    assert k == 1 || k == 5;
    var p := k * height;
    if p < U32_MODULUS {
      assert p % U32_MODULUS == p;
      assert p <= 5 * height;
      assert p / 6 < height;
    } else {
      assert 5 * height >= p >= U32_MODULUS;
      assert height > U32_MODULUS / 6;
      assert p % U32_MODULUS < U32_MODULUS;
    }
  }

  /** A valid image with at least one pixel: `get_pixel` accepts every sample point. */
  ghost predicate Sampleable(img: RgbaImage)
  {
    img.Valid() && img.width >= 1 && img.height >= 1
  }

  /** The colours read at the eight sample points, in sampling order. */
  function Samples(img: RgbaImage): (s: seq<Rgba>)
    requires Sampleable(img)
    ensures |s| == 8
    ensures forall k :: 0 <= k < 8 ==>
      var p := SamplePoints(img.width, img.height)[k];
      p.0 < img.width && p.1 < img.height && s[k] == img.Pixel(p.0, p.1)
  {
    var pts := SamplePoints(img.width, img.height);
    AllSamplesInBounds(img.width, img.height);
    seq(8, k requires 0 <= k < 8 => img.Pixel(pts[k].0, pts[k].1))
  }

  lemma AllSamplesInBounds(width: nat, height: nat)
    requires 1 <= width < U32_MODULUS && 1 <= height < U32_MODULUS
    ensures forall k :: 0 <= k < 8 ==>
      SamplePoints(width, height)[k].0 < width && SamplePoints(width, height)[k].1 < height
  {
    forall k | 0 <= k < 8
      ensures SamplePoints(width, height)[k].0 < width && SamplePoints(width, height)[k].1 < height
    {
      SampleXInBounds(k / 2, width);
      SampleYInBounds(k % 2, height);
    }
  }

  /** The first sample point is (width / 8, height / 6): it cannot wrap. */
  lemma FirstSamplePoint(width: nat, height: nat)
    requires width < U32_MODULUS && height < U32_MODULUS
    ensures SamplePoints(width, height)[0] == (width / 8, height / 6)
  {
    assert SamplePoints(width, height)[2 * 0 + 0] == (SampleX(0, width), SampleY(0, height));
    NoWrap(width);
    NoWrap(height);
  }

  /** A u32 value is its own remainder modulo 2^32. */
  lemma NoWrap(n: nat)
    requires n < U32_MODULUS
    ensures (0 * 2 + 1) * n % U32_MODULUS == n && (0 * 4 + 1) * n % U32_MODULUS == n
  {
  }

  /** What a call ends in: a returned result, or a panic inside the image library. */
  datatype Outcome<T> = Returned(result: Result<T, ImageError>) | Panicked

  /**
   * `find_background`. On an image with no pixels `get_pixel` panics at the
   * first sample; otherwise it succeeds with the first sample, the pixel at
   * (width / 8, height / 6). No majority vote is taken, so
   * `BackgroundNotDetermined` is never produced.
   */
  function FindBackground(img: RgbaImage): (r: Outcome<Rgba>)
    requires img.Valid()
    ensures r.Panicked? <==> img.width == 0 || img.height == 0
    ensures r.Returned? ==>
      && img.width / 8 < img.width && img.height / 6 < img.height
      && r.result == Success(img.Pixel(img.width / 8, img.height / 6))
  {
    if img.width == 0 || img.height == 0 then Panicked
    else
      var s := Samples(img);
      FirstSamplePoint(img.width, img.height);
      Returned(Success(s[0]))
  }

  /** The face-boundary measurements; the code builds them empty. */
  datatype ImageMeasurements = ImageMeasurements(vecX: seq<U32>, vecY: seq<U32>)

  /**
   * `find_measurements`: a panic or a background failure is passed on
   * unchanged; otherwise the measurements are empty.
   */
  function FindMeasurements(img: RgbaImage): (r: Outcome<ImageMeasurements>)
    requires img.Valid()
    ensures FindBackground(img).Panicked? <==> r.Panicked?
    ensures FindBackground(img).Returned? && FindBackground(img).result.Failure? ==>
      r == Returned(Failure(FindBackground(img).result.error))
    ensures FindBackground(img).Returned? && FindBackground(img).result.Success? ==>
      r == Returned(Success(ImageMeasurements([], [])))
  {
    match FindBackground(img)
    case Panicked => Panicked
    case Returned(Failure(e)) => Returned(Failure(e))
    case Returned(Success(_)) => Returned(Success(ImageMeasurements([], [])))
  }

  /** `to_image`: whatever the measurements and the image, it fails with `NetNotFound`. */
  function ToImage(m: ImageMeasurements, img: RgbaImage): (r: Result<RgbaImage, ImageError>)
    ensures r.Failure? && r.error == NetNotFound
  {
    Failure(NetNotFound)
  }

  /**
   * An asset as the asset store holds it: `converted` is the outcome of
   * `try_into_dynamic` followed by `to_rgba8` (None when conversion fails).
   */
  datatype ImageAsset = ImageAsset(converted: Option<RgbaImage>)

  /** A converted image is a well-formed RGBA buffer, as `to_rgba8` produces it. */
  ghost predicate WellFormedAsset(asset: Option<ImageAsset>)
  {
    asset.Some? && asset.value.converted.Some? ==> asset.value.converted.value.Valid()
  }

  /**
   * `get_skybox`, given the result of looking its handle up in the asset
   * store. It never produces an image: an unresolved handle gives
   * `AssetNotFound`, a failed conversion `DecodeFailed`, an image with no
   * pixels panics in `find_background`, and every other path ends in
   * `CopyError`.
   */
  function GetSkybox(asset: Option<ImageAsset>): (r: Outcome<RgbaImage>)
    requires WellFormedAsset(asset)
    ensures r.Returned? ==> r.result.Failure?
    ensures asset.None? ==> r == Returned(Failure(AssetNotFound))
    ensures asset.Some? && asset.value.converted.None? ==> r == Returned(Failure(DecodeFailed))
    ensures asset.Some? && asset.value.converted.Some? ==>
      var img := asset.value.converted.value;
      (r.Panicked? <==> img.width == 0 || img.height == 0) &&
      (r.Returned? ==> r.result == Failure(CopyError))
  {
    match asset
    case None => Returned(Failure(AssetNotFound))
    case Some(image) =>
      match image.converted
      case None => Returned(Failure(DecodeFailed))
      case Some(rgba) =>
        match FindMeasurements(rgba)
        case Panicked => Panicked
        case Returned(Failure(e)) => Returned(Failure(e))
        case Returned(Success(_)) => Returned(Failure(CopyError))
  }
}
