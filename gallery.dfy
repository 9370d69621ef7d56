/** The photo gallery of js/visionProGallery.js: a list of images, the
    index of the one on display and whether the gallery is open. The DOM
    writes that matter to the user are kept as two counters. */
module Gallery {
  import opened JsText

  datatype Image = Image(src: string, alt: string)

  /** The eight images the gallery starts with. */
  const DefaultImages: seq<Image> := [
    Image("images/c24.jpeg", "Recuerdo 1"),
    Image("images/images.jpg", "Recuerdo 2"),
    Image("images/recuerdo3.jpg", "Recuerdo 3"),
    Image("images/recuerdo4.jpg", "Recuerdo 4"),
    Image("images/recuerdo5.jpg", "Recuerdo 5"),
    Image("https://picsum.photos/800/600?random=1", "Paisaje 1"),
    Image("https://picsum.photos/800/600?random=2", "Paisaje 2"),
    Image("https://picsum.photos/800/600?random=3", "Paisaje 3")
  ]

  /** JavaScript's `a % n` for a positive `n`: the remainder takes the sign
      of the dividend. */
  function JsRem(a: int, n: int): (r: int)
    requires n > 0
    ensures a >= 0 ==> 0 <= r < n
    ensures a < 0 ==> -n < r <= 0
    ensures (a - r) % n == 0
    ensures r == if a >= 0 || a % n == 0 then a % n else a % n - n
  {
    if a >= 0 then
      MultipleRem(a - a % n, n, a / n);
      a % n
    else
      NegativeRem(a, n);
      -((-a) % n)
  }

  /** Helper: for a negative dividend the remainder of the magnitude,
      negated, differs from `a` by a multiple of `n` and from the
      Euclidean remainder by `n` unless both are 0. */
  lemma NegativeRem(a: int, n: int)
    requires a < 0 && n > 0
    ensures (a + (-a) % n) % n == 0
    ensures -((-a) % n) == if a % n == 0 then a % n else a % n - n
  {
    var q := (-a) / n;
    var m := (-a) % n;
    assert -a == n * q + m;
    MultipleRem(a + m, n, -q);
    if m == 0 {
      ModUnique(a, n, -q, 0);
    } else {
      ModUnique(a, n, -q - 1, n - m);
    }
  }

  /** Helper: a multiple of `n` leaves no remainder. */
  lemma MultipleRem(a: int, n: int, q: int)
    requires n > 0 && a == n * q
    ensures a % n == 0
  {
    ModUnique(a, n, q, 0);
  }

  /** Helper: the Euclidean remainder is the unique `r` in [0, n) with
      `a == n * q + r`. */
  lemma ModUnique(a: int, n: int, q: int, r: int)
    requires n > 0 && a == n * q + r && 0 <= r < n
    ensures a % n == r
  {
    var q0, r0 := a / n, a % n;
    assert a == n * q0 + r0;
    if q0 < q {
      MulGe(n, q - q0);
    } else if q0 > q {
      MulGe(n, q0 - q);
    }
  }

  lemma MulGe(n: int, k: int)
    requires n > 0 && k >= 1
    ensures n * k >= n
  {
  }

  /** The index after `next`: `(i + 1) % n`. */
  function NextIndex(i: int, n: int): int
    requires n > 0
  {
    JsRem(i + 1, n)
  }

  /** The index after `previous`: `(i - 1 + n) % n`. */
  function PrevIndex(i: int, n: int): int
    requires n > 0
  {
    JsRem(i - 1 + n, n)
  }

  /** Within the list, `next` moves one on and wraps from the last image to
      the first, and `previous` moves one back and wraps from the first to
      the last. */
  lemma StepsWithinList(i: int, n: int)
    requires 0 <= i < n
    ensures NextIndex(i, n) == if i == n - 1 then 0 else i + 1
    ensures PrevIndex(i, n) == if i == 0 then n - 1 else i - 1
  {
    if i < n - 1 {
      RemBelow(i + 1, n);
    } else {
      RemWrap(i + 1, n);
    }
    if i == 0 {
      RemBelow(n - 1, n);
    } else {
      RemWrap(i - 1 + n, n);
    }
  }

  lemma RemBelow(a: int, n: int)
    requires 0 <= a < n
    ensures a % n == a
  {
  }

  lemma RemWrap(a: int, n: int)
    requires n <= a < 2 * n
    ensures a % n == a - n
  {
  }

  /** `next` and `previous` land in the list from any index they can
      reach (an index above the list is brought back too); only an index
      below -1 (for `next`) or below 1 - n (for `previous`) stays out. */
  lemma StepsInRange(i: int, n: int)
    requires n > 0
    ensures i >= -1 ==> 0 <= NextIndex(i, n) < n
    ensures i < -1 ==> NextIndex(i, n) <= 0
    ensures i >= 1 - n ==> 0 <= PrevIndex(i, n) < n
  {
  }

  /** `next` then `previous`, or the reverse, comes back to the image. */
  lemma NextPrevInverse(i: int, n: int)
    requires 0 <= i < n
    ensures PrevIndex(NextIndex(i, n), n) == i
    ensures NextIndex(PrevIndex(i, n), n) == i
  {
    StepsWithinList(i, n);
    StepsWithinList(NextIndex(i, n), n);
    StepsWithinList(PrevIndex(i, n), n);
  }

  /** The index after `k` presses of `next`. */
  function NextTimes(i: int, n: int, k: nat): int
    requires n > 0
    decreases k
  {
    if k == 0 then i else NextTimes(NextIndex(i, n), n, k - 1)
  }

  /** From the first image, `k` presses of `next` reach image `k` for every
      `k` before the end of the list. */
  lemma {:induction false} NextTimesVisits(i: int, n: int, k: nat)
    requires 0 <= i && i + k < n
    ensures NextTimes(i, n, k) == i + k
    decreases k
  {
    if k > 0 {
      StepsWithinList(i, n);
      NextTimesVisits(i + 1, n, k - 1);
    }
  }

  lemma {:induction false} NextTimesAdd(i: int, n: int, a: nat, b: nat)
    requires n > 0
    ensures NextTimes(i, n, a + b) == NextTimes(NextTimes(i, n, a), n, b)
    decreases a
  {
    if a > 0 {
      NextTimesAdd(NextIndex(i, n), n, a - 1, b);
    }
  }

  /** `n` presses of `next` go round the list back to the image. */
  lemma NextCycle(i: int, n: int)
    requires 0 <= i < n
    ensures NextTimes(i, n, n) == i
  {
    NextTimesAdd(i, n, n - 1 - i, i + 1);
    NextTimesVisits(i, n, n - 1 - i);
    StepsWithinList(n - 1, n);
    assert NextTimes(n - 1, n, i + 1) == NextTimes(0, n, i);
    NextTimesVisits(0, n, i);
  }

  class VisionProGallery {
    var images: seq<Image>
    var currentIndex: int
    var isVisible: bool
    /** The text of the '#current-index' element: the 1-based position of
        the image on display, unset before the first one is displayed. */
    var counter: Option<int>
    /** The text of the '#total-images' element. */
    var total: int

    constructor ()
      ensures images == DefaultImages && currentIndex == 0 && !isVisible
      ensures counter == None && total == 8
    {
      images := DefaultImages;
      currentIndex := 0;
      isVisible := false;
      counter := None;
      total := |DefaultImages|;
    }

    /** `displayImage`: the image at the index starts loading and the
        counter shows its position. For an index outside the list the image
        is `undefined` and reading its `src` throws before the counter is
        written: nothing is loaded and the counter keeps its text. */
    method DisplayImage() returns (loading: Option<string>)
      modifies this`counter
      ensures 0 <= currentIndex < |images| ==>
        loading == Some(images[currentIndex].src) && counter == Some(currentIndex + 1)
      ensures !(0 <= currentIndex < |images|) ==> loading == None && counter == old(counter)
    {
      if !(0 <= currentIndex < |images|) {
        return None;
      }
      loading := Some(images[currentIndex].src);
      counter := Some(currentIndex + 1);
    }

    /** `open(startIndex)`: no range check on the index. */
    method Open(startIndex: int) returns (loading: Option<string>)
      modifies this`currentIndex, this`isVisible, this`counter
      ensures currentIndex == startIndex && isVisible
      ensures 0 <= startIndex < |images| ==>
        loading == Some(images[startIndex].src) && counter == Some(startIndex + 1)
      ensures !(0 <= startIndex < |images|) ==> loading == None && counter == old(counter)
    {
      currentIndex := startIndex;
      isVisible := true;
      loading := DisplayImage();
    }

    /** `close`: the gallery hides and keeps its index. */
    method Close()
      modifies this`isVisible
      ensures !isVisible
    {
      isVisible := false;
    }

    /** `next`, on a non-empty list (`% 0` would give NaN). */
    method Next() returns (loading: Option<string>)
      requires |images| > 0
      modifies this`currentIndex, this`counter
      ensures currentIndex == NextIndex(old(currentIndex), |images|)
      ensures 0 <= currentIndex < |images| ==>
        loading == Some(images[currentIndex].src) && counter == Some(currentIndex + 1)
      ensures !(0 <= currentIndex < |images|) ==> loading == None && counter == old(counter)
    {
      currentIndex := JsRem(currentIndex + 1, |images|);
      loading := DisplayImage();
    }

    /** `previous`, on a non-empty list. */
    method Previous() returns (loading: Option<string>)
      requires |images| > 0
      modifies this`currentIndex, this`counter
      ensures currentIndex == PrevIndex(old(currentIndex), |images|)
      ensures 0 <= currentIndex < |images| ==>
        loading == Some(images[currentIndex].src) && counter == Some(currentIndex + 1)
      ensures !(0 <= currentIndex < |images|) ==> loading == None && counter == old(counter)
    {
      currentIndex := JsRem(currentIndex - 1 + |images|, |images|);
      loading := DisplayImage();
    }

    /** `goToImage(index)`, a thumbnail click: no range check. */
    method GoToImage(index: int) returns (loading: Option<string>)
      modifies this`currentIndex, this`counter
      ensures currentIndex == index
      ensures 0 <= index < |images| ==>
        loading == Some(images[index].src) && counter == Some(index + 1)
      ensures !(0 <= index < |images|) ==> loading == None && counter == old(counter)
    {
      currentIndex := index;
      loading := DisplayImage();
    }

    /** `addImage(src, alt)`: appended at the end; the index is kept. */
    method AddImage(src: string, alt: string)
      modifies this`images, this`total
      ensures images == old(images) + [Image(src, alt)]
      ensures total == |images| == |old(images)| + 1
    {
      images := images + [Image(src, alt)];
      total := |images|;
    }

    /** `setImages(newImages)`: the list is replaced and the index reset,
        without displaying anything. */
    method SetImages(newImages: seq<Image>)
      modifies this`images, this`currentIndex, this`total
      ensures images == newImages && currentIndex == 0 && total == |newImages|
    {
      images := newImages;
      currentIndex := 0;
      total := |images|;
    }

    /** The 'keydown' listener: only while the gallery is open, Escape
        closes it and the arrow keys step through the list; any other key,
        or any key while closed, does nothing. */
    method KeyDown(key: string) returns (loading: Option<string>)
      requires isVisible && (key == "ArrowLeft" || key == "ArrowRight") ==> |images| > 0
      modifies this`currentIndex, this`isVisible, this`counter
      ensures !old(isVisible) || (key != "Escape" && key != "ArrowLeft" && key != "ArrowRight") ==>
        currentIndex == old(currentIndex) && isVisible == old(isVisible) && counter == old(counter) && loading == None
      ensures old(isVisible) && key == "Escape" ==>
        !isVisible && currentIndex == old(currentIndex) && counter == old(counter) && loading == None
      ensures old(isVisible) && key == "ArrowLeft" ==>
        isVisible && currentIndex == PrevIndex(old(currentIndex), |images|)
      ensures old(isVisible) && key == "ArrowRight" ==>
        isVisible && currentIndex == NextIndex(old(currentIndex), |images|)
      ensures old(isVisible) && (key == "ArrowLeft" || key == "ArrowRight") && 0 <= currentIndex < |images| ==>
        loading == Some(images[currentIndex].src) && counter == Some(currentIndex + 1)
      ensures old(isVisible) && (key == "ArrowLeft" || key == "ArrowRight") && !(0 <= currentIndex < |images|) ==>
        loading == None && counter == old(counter)
    {
      loading := None;
      if !isVisible {
        return;
      }
      if key == "Escape" {
        Close();
      } else if key == "ArrowLeft" {
        loading := Previous();
      } else if key == "ArrowRight" {
        loading := Next();
      }
    }
  }
}
