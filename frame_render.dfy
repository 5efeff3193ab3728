/**
 * Drawing of the image-sequence scrubber: scroll progress picks a frame by rounding, a
 * frame that is not decoded yet is skipped, and a decoded one is drawn "contain"-fitted
 * (scaled to fit, aspect ratio kept, centred) on the canvas.
 */
module FrameRender {
  import opened Wrappers
  import opened Motion
  import opened FrameNaming

  /** `Math.round`: the nearest integer, halves rounded towards +infinity. */
  function JsRound(x: real): (n: int)
    ensures n as real - 0.5 <= x < n as real + 0.5
  {
    (x + 0.5).Floor
  }

  /** Index of the last frame. */
  const LAST_INDEX: nat := FRAME_COUNT - 1

  /** `currentIndex`: scroll progress mapped from [0, 1] onto [0, 239] by `useTransform`. */
  function CurrentIndex(p: real): real
  {
    Interpolate([0.0, 1.0], [0.0, LAST_INDEX as real], p)
  }

  /** The array index `render` looks up: `Math.round(currentIndex)`. */
  function FrameIndex(p: real): int
  {
    JsRound(CurrentIndex(p))
  }

  /** Within [0, 1] the index is round(p * 239); at any progress it is a valid frame index. */
  lemma FrameIndexRange(p: real)
    ensures 0 <= FrameIndex(p) <= LAST_INDEX
    ensures 0.0 <= p <= 1.0 ==> FrameIndex(p) == JsRound(p * LAST_INDEX as real)
  {
    InterpolateWithin([0.0, 1.0], [0.0, LAST_INDEX as real], p, 0.0, LAST_INDEX as real);
    if 0.0 <= p <= 1.0 {
      InterpolateOnSegment([0.0, 1.0], [0.0, LAST_INDEX as real], p, 0);
    }
  }

  /** Scrolling further never shows an earlier frame. */
  lemma FrameIndexMonotone(p: real, q: real)
    requires p <= q
    ensures FrameIndex(p) <= FrameIndex(q)
  {
    TwoPointMonotone(0.0, 1.0, 0.0, LAST_INDEX as real, p, q);
  }

  /** Half-way through the scroll the index is round(119.5) = 120, which is file 121. */
  lemma FrameIndexHalfway()
    ensures FrameIndex(0.5) == 120
    ensures ImgPath(FrameIndex(0.5) + 1) == "/frames/ezgif-frame-121.jpg"
  {
    FrameIndexRange(0.5);
    assert 0.5 * LAST_INDEX as real == 119.5;
    assert JsRound(119.5) == 120;
    ImgPathMiddle();
    assert FrameIndex(0.5) + 1 == 121;
  }

  /** The part of an `HTMLImageElement` that `render` reads. */
  datatype Img = Img(src: string, complete: bool, naturalWidth: nat, naturalHeight: nat)

  /** An image `render` will draw: decoded and of non-zero width. */
  predicate Drawable(img: Img)
  {
    img.complete && img.naturalWidth != 0
  }

  /**
   * The image `render(index)` draws, if any: none while loading or with no images (the
   * effect does not subscribe then), none when `images[Math.round(index)]` is missing,
   * incomplete or of zero width.
   */
  function SelectFrame(isLoading: bool, images: seq<Img>, index: real): (r: Option<Img>)
    ensures isLoading || |images| == 0 ==> r.None?
    ensures r.Some? ==> 0 <= JsRound(index) < |images| && r.value == images[JsRound(index)]
    ensures r.Some? ==> Drawable(r.value) && r.value in images
    ensures !isLoading && 0 <= JsRound(index) < |images| && Drawable(images[JsRound(index)]) ==> r.Some?
  {
    var i := JsRound(index);
    if isLoading || |images| == 0 then None
    else if 0 <= i < |images| && Drawable(images[i]) then Some(images[i])
    else None
  }

  /**
   * Once loaded, at any scroll position the drawn image is the frame at FrameIndex(p)
   * whenever that frame is decoded, and nothing is drawn (the previous picture stays)
   * exactly when it is not. When the list is the preloaded one (entry k loads the file of
   * frame k + 1), the drawn image is the file of frame FrameIndex(p) + 1.
   */
  lemma SelectFrameOnProgress(images: seq<Img>, p: real)
    requires |images| == FRAME_COUNT
    ensures Drawable(images[FrameIndex(p)]) ==> SelectFrame(false, images, CurrentIndex(p)) == Some(images[FrameIndex(p)])
    ensures !Drawable(images[FrameIndex(p)]) ==> SelectFrame(false, images, CurrentIndex(p)) == None
    ensures (forall k :: 0 <= k < |images| ==> images[k].src == ImgPath(k + 1)) && Drawable(images[FrameIndex(p)]) ==>
      SelectFrame(false, images, CurrentIndex(p)).value.src == ImgPath(FrameIndex(p) + 1)
  {
    FrameIndexRange(p);
    var i := FrameIndex(p);
    assert JsRound(CurrentIndex(p)) == i;
    var r := SelectFrame(false, images, CurrentIndex(p));
    assert Drawable(images[i]) ==> r == Some(images[i]);
    assert !Drawable(images[i]) ==> r == None;
  }

  /** A rectangle in canvas pixels: top-left corner and size. */
  datatype Rect = Rect(x: real, y: real, width: real, height: real)

  /**
   * `canvasRatio > imgRatio`, i.e. cw/ch > iw/ih, compared cross-multiplied; for a canvas
   * of zero height this is the outcome of the floating-point comparison (Infinity > r for
   * a non-zero width, NaN > r false for zero width).
   */
  predicate CanvasWider(cw: nat, ch: nat, iw: nat, ih: nat)
  {
    cw * ih > iw * ch
  }

  /** For non-zero sizes the cross-multiplied test is the ratio comparison. */
  lemma CanvasWiderIsRatio(cw: nat, ch: nat, iw: nat, ih: nat)
    requires cw > 0 && ch > 0 && iw > 0 && ih > 0
    ensures CanvasWider(cw, ch, iw, ih) <==> cw as real / ch as real > iw as real / ih as real
  {
    var a, b, c, d := cw as real, ch as real, iw as real, ih as real;
    assert a / b == (a * d) / (b * d);
    assert c / d == (c * b) / (b * d);
    assert (a * d) / (b * d) > (c * b) / (b * d) <==> a * d > c * b by {
      if a * d > c * b {
        DivStrict(c * b, a * d, b * d);
      } else {
        DivMono(a * d, c * b, b * d);
      }
    }
    assert (cw * ih) as real == a * d && (iw * ch) as real == c * b;
  }

  lemma DivStrict(x: real, y: real, z: real)
    requires 0.0 < z && x < y
    ensures x / z < y / z
  {
    assert (y - x) / z > 0.0;
    assert (y - x) / z == y / z - x / z;
  }

  /**
   * The "contain" geometry of `render`: the image drawn as large as fits, aspect ratio
   * kept, centred, with letterbox bars on the axis where the ratios differ.
   */
  function ContainFit(cw: nat, ch: nat, iw: nat, ih: nat): (r: Rect)
    requires iw > 0
    ensures r.width == cw as real || r.height == ch as real
    ensures r.width * ih as real == r.height * iw as real
    ensures 0.0 <= r.x && 0.0 <= r.y
    ensures 2.0 * r.x + r.width == cw as real && 2.0 * r.y + r.height == ch as real
  {
    var canvasWidth, canvasHeight := cw as real, ch as real;
    if CanvasWider(cw, ch, iw, ih) then
      var drawHeight := canvasHeight;
      var drawWidth := iw as real * (canvasHeight / ih as real);
      FitsAcross(cw, ch, iw, ih);
      Rect((canvasWidth - drawWidth) / 2.0, 0.0, drawWidth, drawHeight)
    else
      var drawWidth := canvasWidth;
      var drawHeight := ih as real * (canvasWidth / iw as real);
      FitsDown(cw, ch, iw, ih);
      Rect(0.0, (canvasHeight - drawHeight) / 2.0, drawWidth, drawHeight)
  }

  /** Pillar-boxed case: the image scaled to the canvas height is no wider than the canvas. */
  lemma FitsAcross(cw: nat, ch: nat, iw: nat, ih: nat)
    requires iw > 0 && CanvasWider(cw, ch, iw, ih)
    ensures ih > 0
    ensures iw as real * (ch as real / ih as real) <= cw as real
    ensures iw as real * (ch as real / ih as real) * ih as real == ch as real * iw as real
  {
    var c, d := iw as real, ih as real;
    assert ih == 0 ==> cw * ih == 0;
    assert (cw * ih) as real > (iw * ch) as real;
    assert ch as real / d == (ch as real) * (1.0 / d);
    assert c * (ch as real / d) == (c * ch as real) / d;
    DivMono(c * ch as real, cw as real * d, d);
    assert (cw as real * d) / d == cw as real;
  }

  /** Letter-boxed case: the image scaled to the canvas width is no taller than the canvas. */
  lemma FitsDown(cw: nat, ch: nat, iw: nat, ih: nat)
    requires iw > 0 && !CanvasWider(cw, ch, iw, ih)
    ensures ih as real * (cw as real / iw as real) <= ch as real
    ensures cw as real * ih as real == ih as real * (cw as real / iw as real) * iw as real
  {
    var c, d := iw as real, ih as real;
    assert (cw * ih) as real <= (iw * ch) as real;
    assert d * (cw as real / c) == (d * cw as real) / c;
    DivMono(d * cw as real, ch as real * c, c);
    assert (ch as real * c) / c == ch as real;
  }

  /**
   * The drawn size is the image scaled by min(cw/iw, ch/ih): the largest scale at which the
   * whole image fits on the canvas.
   */
  lemma ContainFitScale(cw: nat, ch: nat, iw: nat, ih: nat)
    requires iw > 0 && ih > 0
    ensures var s := if cw as real / iw as real <= ch as real / ih as real
                     then cw as real / iw as real else ch as real / ih as real;
      ContainFit(cw, ch, iw, ih).width == iw as real * s && ContainFit(cw, ch, iw, ih).height == ih as real * s
  {
    var a, b, c, d := cw as real, ch as real, iw as real, ih as real;
    ScaleComparison(cw, ch, iw, ih);
    if CanvasWider(cw, ch, iw, ih) {
      assert d * (b / d) == b;
    } else {
      assert c * (a / c) == a;
    }
  }

  /** The canvas is relatively wider exactly when it allows less vertical than horizontal scaling. */
  lemma ScaleComparison(cw: nat, ch: nat, iw: nat, ih: nat)
    requires iw > 0 && ih > 0
    ensures CanvasWider(cw, ch, iw, ih) <==> cw as real / iw as real > ch as real / ih as real
  {
    var a, b, c, d := cw as real, ch as real, iw as real, ih as real;
    assert a / c == (a * d) / (c * d);
    assert b / d == (b * c) / (c * d);
    assert (cw * ih) as real == a * d && (iw * ch) as real == c * b;
    if a * d > c * b {
      DivStrict(c * b, a * d, c * d);
    } else {
      DivMono(a * d, c * b, c * d);
    }
  }

  /** The letter-boxed example: canvas 800x600, image 1600x900. */
  lemma ContainFitWideImage()
    ensures ContainFit(800, 600, 1600, 900) == Rect(0.0, 75.0, 800.0, 450.0)
  {
  }

  /** The pillar-boxed example: canvas 800x600, image 900x1600. */
  lemma ContainFitTallImage()
    ensures ContainFit(800, 600, 900, 1600) == Rect(231.25, 0.0, 337.5, 600.0)
  {
  }

  /** One image as the canvas shows it: its source and where it was drawn. */
  datatype Placed = Placed(src: string, at: Rect)

  /** A size as read from the canvas's parent element. */
  datatype Size = Size(clientWidth: nat, clientHeight: nat)

  /**
   * The canvas: its backing-store size and what its bitmap shows, the images drawn since the
   * last full clear, in drawing order.
   */
  class Canvas {
    var width: nat
    var height: nat
    var picture: seq<Placed>

    /** A fresh canvas element: 300 by 150 pixels, blank. */
    constructor ()
      ensures width == 300 && height == 150 && picture == []
    {
      width, height, picture := 300, 150, [];
    }

    /**
     * `render(index)`: when a frame is selected, `clearRect` over the whole canvas and
     * `drawImage` at the contain-fit rectangle; otherwise the canvas is left as it was.
     */
    method Render(isLoading: bool, images: seq<Img>, index: real)
      modifies this`picture
      ensures SelectFrame(isLoading, images, index).None? ==> picture == old(picture)
      ensures SelectFrame(isLoading, images, index).Some? ==>
        var img := SelectFrame(isLoading, images, index).value;
        picture == [Placed(img.src, ContainFit(width, height, img.naturalWidth, img.naturalHeight))]
    {
      var selected := SelectFrame(isLoading, images, index);
      if selected.Some? {
        var img := selected.value;
        var fit := ContainFit(width, height, img.naturalWidth, img.naturalHeight);
        picture := [];                                  // clearRect(0, 0, width, height)
        picture := picture + [Placed(img.src, fit)];    // drawImage(img, x, y, w, h)
      }
    }

    /**
     * `handleResize`: with a parent element, the backing store takes the parent's client
     * size. Setting a canvas's width or height clears its bitmap, and nothing is redrawn,
     * so the canvas stays blank until the next scroll change.
     */
    method HandleResize(parent: Option<Size>)
      modifies this
      ensures parent.None? ==> width == old(width) && height == old(height) && picture == old(picture)
      ensures parent.Some? ==>
        width == parent.value.clientWidth && height == parent.value.clientHeight && picture == []
    {
      if parent.Some? {
        width := parent.value.clientWidth;
        height := parent.value.clientHeight;
        picture := [];
      }
    }
  }

  /**
   * The commit in which loading ends: both effects depend on `isLoading` and `images`, so
   * both re-run in declaration order. The render effect's initial draw comes first, then
   * the resize effect's `handleResize()` resizes the canvas and so clears that draw. The
   * canvas stays blank until the first scroll change.
   */
  method LoadingEnds(canvas: Canvas, images: seq<Img>, p: real, parent: Size)
    modifies canvas
    ensures canvas.width == parent.clientWidth && canvas.height == parent.clientHeight
    ensures canvas.picture == []
  {
    canvas.Render(false, images, CurrentIndex(p));   // render(currentIndex.get())
    canvas.HandleResize(Some(parent));               // handleResize(); // Init
  }
}
