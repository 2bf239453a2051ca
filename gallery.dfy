/** The gallery helpers: tag each image square or rectangle by its aspect ratio,
    and split the tagged list into the desktop and the mobile layouts. */
module Gallery {
  import opened Common

  /** Pixel dimensions as the asset metadata reports them. */
  datatype Dimensions = Dimensions(width: int, height: int)

  datatype ImageAsset = ImageAsset(id: string, url: string, lqip: Option<string>, dimensions: Dimensions)

  /** The image reference of an entry; its editor `hotspot` and `crop` data are not modelled. */
  datatype ImageRef = ImageRef(asset: ImageAsset, alt: string)

  /** A gallery entry; `mobileOnly` entries are left out of the desktop layout. */
  datatype GalleryImage = GalleryImage(key: string, mobileOnly: bool, image: ImageRef)

  /** A gallery entry with its two tags. */
  datatype CategorizedImage = CategorizedImage(item: GalleryImage, isSquare: bool, isRectangle: bool)

  datatype GalleryLayout = GalleryLayout(desktop: seq<CategorizedImage>, mobile: seq<CategorizedImage>)

  /** `0.9 <= width / height <= 1.1` in exact arithmetic. A zero height makes the
      ratio Infinity or NaN, neither of which lies between the bounds. */
  function IsSquare(d: Dimensions): bool {
    if d.height == 0 then false
    else
      var ratio := d.width as real / d.height as real;
      0.9 <= ratio <= 1.1
  }

  /** The square test without division: the width lies between 0.9 and 1.1 heights. */
  lemma SquareByCrossMultiplication(d: Dimensions)
    ensures IsSquare(d) <==>
      || (d.height > 0 && 9 * d.height <= 10 * d.width <= 11 * d.height)
      || (d.height < 0 && 11 * d.height <= 10 * d.width <= 9 * d.height)
  {
    if d.height > 0 {
      SquareWithPositiveHeight(d);
    } else if d.height < 0 {
      SquareWithNegativeHeight(d);
    }
  }

  lemma SquareWithPositiveHeight(d: Dimensions)
    requires d.height > 0
    ensures IsSquare(d) <==> 9 * d.height <= 10 * d.width <= 11 * d.height
  {
    var w, h := d.width as real, d.height as real;
    ScaledBounds(d.width, d.height);
    DivisionBounds(w, h, 0.9);
    DivisionBounds(w, h, 1.1);
  }

  lemma SquareWithNegativeHeight(d: Dimensions)
    requires d.height < 0
    ensures IsSquare(d) <==> 11 * d.height <= 10 * d.width <= 9 * d.height
  {
    var w, h := d.width as real, d.height as real;
    ScaledBounds(d.width, d.height);
    assert w / h == (-w) / (-h);
    DivisionBounds(-w, -h, 0.9);
    DivisionBounds(-w, -h, 1.1);
  }

  /** Dividing by a positive number keeps the order of a bound. */
  lemma DivisionBounds(x: real, h: real, a: real)
    requires h > 0.0
    ensures a <= x / h <==> a * h <= x
    ensures x / h <= a <==> x <= a * h
  {
    var q := x / h;
    assert q * h == x;
    if a <= q { assert a * h <= q * h; }
    if q <= a { assert q * h <= a * h; }
    if a * h <= x { assert a * h <= q * h; }
    if x <= a * h { assert q * h <= a * h; }
  }

  /** The bounds 0.9 and 1.1 scaled by ten to integers. */
  lemma ScaledBounds(width: int, height: int)
    ensures 0.9 * (height as real) <= width as real <==> 9 * height <= 10 * width
    ensures width as real <= 1.1 * (height as real) <==> 10 * width <= 11 * height
    ensures width as real <= 0.9 * (height as real) <==> 10 * width <= 9 * height
    ensures 1.1 * (height as real) <= width as real <==> 11 * height <= 10 * width
  {
  }

  function Categorize(item: GalleryImage): CategorizedImage {
    var square := IsSquare(item.image.asset.dimensions);
    CategorizedImage(item, square, !square)
  }

  /** Tags every image, keeping the list's length and order and every field of each entry. */
  function CategorizeGalleryImages(images: seq<GalleryImage>): (r: seq<CategorizedImage>)
    ensures |r| == |images|
    ensures forall i :: 0 <= i < |images| ==> r[i].item == images[i]
    ensures forall i :: 0 <= i < |images| ==> r[i].isSquare == IsSquare(images[i].image.asset.dimensions)
    ensures forall i :: 0 <= i < |images| ==> r[i].isRectangle == !r[i].isSquare
  {
    if images == [] then []
    else [Categorize(images[0])] + CategorizeGalleryImages(images[1..])
  }

  /** `a` is `b` with some entries deleted and the rest in order. */
  predicate IsSubsequence<T(==)>(a: seq<T>, b: seq<T>) {
    if a == [] then true
    else if b == [] then false
    else if a[0] == b[0] then IsSubsequence(a[1..], b[1..])
    else IsSubsequence(a, b[1..])
  }

  /** `images.filter(img => !img.mobileOnly)`. */
  function DesktopImages(images: seq<CategorizedImage>): (r: seq<CategorizedImage>)
    ensures forall x :: x in r <==> x in images && !x.item.mobileOnly
    ensures IsSubsequence(r, images)
  {
    if images == [] then []
    else
      var rest := DesktopImages(images[1..]);
      if images[0].item.mobileOnly then
        assert rest != [] ==> rest[0] != images[0];
        rest
      else
        assert ([images[0]] + rest)[1..] == rest;
        [images[0]] + rest
  }

  /** The desktop layout drops the mobile-only images; the mobile layout is the whole list. */
  function LayoutGalleryImages(images: seq<CategorizedImage>): (l: GalleryLayout)
    ensures l.mobile == images
    ensures forall x :: x in l.desktop <==> x in images && !x.item.mobileOnly
    ensures IsSubsequence(l.desktop, l.mobile)
  {
    GalleryLayout(DesktopImages(images), images)
  }

  /** Filtering for the desktop keeps order: it splits over a concatenation. */
  lemma {:induction false} DesktopSplits(a: seq<CategorizedImage>, b: seq<CategorizedImage>)
    ensures DesktopImages(a + b) == DesktopImages(a) + DesktopImages(b)
  {
    if a == [] {
      assert a + b == b;
    } else {
      assert (a + b)[0] == a[0];
      assert (a + b)[1..] == a[1..] + b;
      DesktopSplits(a[1..], b);
    }
  }

  /** A list without mobile-only images is shown whole on the desktop. */
  lemma {:induction false} DesktopKeepsAllWithoutMobileOnly(images: seq<CategorizedImage>)
    requires forall i :: 0 <= i < |images| ==> !images[i].item.mobileOnly
    ensures DesktopImages(images) == images
  {
    if images != [] {
      DesktopKeepsAllWithoutMobileOnly(images[1..]);
    }
  }
}
