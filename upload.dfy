/**
 * Small helpers around the upload: `validateImage` (src/App.js:147-162), the dimension
 * step of `compressImage` (src/App.js:60-73) and the `apiUrl` base (src/App.js:39).
 */
module Upload {
  import opened Wrappers

  /** The 10 MiB ceiling of `validateImage`. */
  const MaxImageBytes: nat := 10 * 1024 * 1024
  const TooLarge := "File too large. Maximum size is 10MB"
  const NotAnImage := "Please upload an image file"

  /**
   * The error list of `validateImage`, built by pushing the size error and then the type
   * error. It is empty exactly when the file is small enough and its type starts with "image/".
   */
  method ValidateImage(size: nat, mimeType: string) returns (errors: seq<string>)
    ensures errors == [] <==> size <= MaxImageBytes && "image/" <= mimeType
    ensures |errors| <= 2
    ensures (TooLarge in errors <==> size > MaxImageBytes) && (NotAnImage in errors <==> !("image/" <= mimeType))
    ensures |errors| == 2 ==> errors == [TooLarge, NotAnImage]
  {
    errors := [];
    if size > MaxImageBytes {
      errors := errors + [TooLarge];
    }
    if !("image/" <= mimeType) {
      errors := errors + [NotAnImage];
    }
  }

  /** The default `maxWidth` of `compressImage`. */
  const DefaultMaxWidth: nat := 1200

  /** JavaScript's `Math.round`: the nearest integer, halves rounded up. */
  function JsRound(x: real): (r: int)
    ensures r as real <= x + 0.5 < r as real + 1.0
  {
    (x + 0.5).Floor
  }

  /**
   * The dimension step of `compressImage`: an image wider than maxWidth is scaled to that
   * width, the height rounded to the nearest integer of height * maxWidth / width.
   */
  method ScaleDimensions(imgWidth: nat, imgHeight: nat, maxWidth: nat) returns (width: nat, height: nat)
    ensures imgWidth <= maxWidth ==> width == imgWidth && height == imgHeight
    ensures imgWidth > maxWidth ==> width == maxWidth && height <= imgHeight
    ensures imgWidth > maxWidth ==>
      height == JsRound((imgHeight * maxWidth) as real / imgWidth as real)
    ensures imgWidth > maxWidth ==>
      2 * imgHeight * maxWidth - imgWidth < 2 * height * imgWidth <= 2 * imgHeight * maxWidth + imgWidth
  {
    width, height := imgWidth, imgHeight;
    if width > maxWidth {
      height := (2 * height * maxWidth + width) / (2 * width);
      width := maxWidth;
      RoundedQuotient(imgHeight * maxWidth, imgWidth, height);
      ScaledHeightBound(imgHeight, maxWidth, imgWidth, height);
    }
  }

  /** A 1920 x 1080 image is downscaled by `compressImage`'s default to 1200 x 675. */
  method DownscaleFullHd() returns (width: nat, height: nat)
    ensures width == DefaultMaxWidth && height == 675
  {
    width, height := ScaleDimensions(1920, 1080, DefaultMaxWidth);
  }

  /** For w > 0, (2n + w) div 2w is n / w rounded half up. */
  lemma RoundedQuotient(n: nat, w: nat, q: int)
    requires w > 0 && q == (2 * n + w) / (2 * w)
    ensures 2 * n - w < 2 * q * w <= 2 * n + w
    ensures q == JsRound(n as real / w as real)
  {
    assert 2 * (q * w) <= 2 * n + w < 2 * (q * w) + 2 * w;
    var W, N, Q := w as real, n as real, q as real;
    assert (Q - 0.5) * W <= N;
    LeQuotient(Q - 0.5, N, W);
    assert N < (Q + 0.5) * W;
    QuotientLt(Q + 0.5, N, W);
  }

  lemma LeQuotient(a: real, n: real, w: real)
    requires w > 0.0 && a * w <= n
    ensures a <= n / w
  {
    assert n / w * w == n;
  }

  lemma QuotientLt(a: real, n: real, w: real)
    requires w > 0.0 && n < a * w
    ensures n / w < a
  {
    assert n / w * w == n;
  }

  /** Narrowing the width never makes the image taller. */
  lemma ScaledHeightBound(h: nat, m: nat, w: nat, q: int)
    requires m < w && 2 * q * w <= 2 * h * m + w
    ensures q <= h
  {
    assert h * m <= h * w by { MulMonotone(h, m, w); }
    assert q * w < (h + 1) * w;
    MulCancel(q, h + 1, w);
  }

  lemma MulMonotone(h: nat, a: nat, b: nat)
    requires a <= b
    ensures h * a <= h * b
  {
  }

  lemma MulCancel(a: int, b: int, w: nat)
    requires w > 0 && a * w < b * w
    ensures a < b
  {
  }

  /** The default backend address. */
  const DefaultApi := "http://127.0.0.1:8000"

  /** `.replace(/\/$/, '')`: one trailing slash removed, nothing else. */
  function StripTrailingSlash(s: string): (r: string)
    ensures r <= s && |s| - 1 <= |r|
    ensures r == s <==> s == [] || s[|s| - 1] != '/'
    ensures r != s ==> s == r + "/"
  {
    if s != [] && s[|s| - 1] == '/' then s[..|s| - 1] else s
  }

  /**
   * `(process.env.REACT_APP_API_URL || 'http://127.0.0.1:8000').replace(/\/$/, '')`: an
   * unset or empty variable falls back to the default address.
   */
  function ApiBase(env: Option<string>): (r: string)
    ensures env.None? || env == Some([]) ==> r == DefaultApi
    ensures env.Some? && env.value != [] ==> r == StripTrailingSlash(env.value)
  {
    var configured := if env.Some? && env.value != [] then env.value else DefaultApi;
    StripTrailingSlash(configured)
  }

  /**
   * The base never ends in the slash the endpoints add (`${apiUrl}/api/upload/`), unless the
   * configured address itself ended in two slashes; and it is never empty except for "/".
   */
  lemma ApiBaseNoDoubleSlash(env: Option<string>)
    ensures var r := ApiBase(env);
      r != [] && r[|r| - 1] == '/' ==> env.Some? && |env.value| >= 2 && env.value[|env.value| - 2..] == "//"
    ensures ApiBase(env) == [] ==> env == Some("/")
  {
  }
}
