/** `PolaroidGrid`: the list of generated polaroids and its lightbox. The
    lightbox is a cursor `lightboxIndex` over the photos; what the component
    renders is computed from that cursor and the props by the functions at
    the top, and the handlers that move the cursor are methods of `Grid`. */
module PolaroidGrid {
  import opened JsText
  import HomePage

  /** `isOpen`: the cursor is set and points at a photo. */
  predicate IsOpenAt(index: Option<int>, count: nat)
  {
    index.Some? && 0 <= index.value && index.value < count
  }

  /** The updater `goNext` passes to `setLightboxIndex`. */
  function NextIndex(index: Option<int>, count: nat): (r: Option<int>)
    ensures index.None? ==> r.None?
    ensures index.Some? && index.value < count - 1 ==> r == Some(index.value + 1)
    ensures index.Some? && index.value >= count - 1 ==> r == index
    ensures IsOpenAt(index, count) ==> IsOpenAt(r, count)
  {
    if index.Some? && index.value < count - 1 then Some(index.value + 1) else index
  }

  /** The updater `goPrev` passes to `setLightboxIndex`. */
  function PrevIndex(index: Option<int>): (r: Option<int>)
    ensures index.None? ==> r.None?
    ensures index.Some? && index.value > 0 ==> r == Some(index.value - 1)
    ensures index.Some? && index.value <= 0 ==> r == index
    ensures forall count: nat :: IsOpenAt(index, count) ==> IsOpenAt(r, count)
  {
    if index.Some? && index.value > 0 then Some(index.value - 1) else index
  }

  /** The Prev button, shown when `lightboxIndex > 0`: exactly when pressing
      it moves the cursor. */
  predicate ShowPrevAt(index: int)
    ensures ShowPrevAt(index) <==> PrevIndex(Some(index)) != Some(index)
  {
    index > 0
  }

  /** The Next button, shown when `lightboxIndex < photos.length - 1`:
      exactly when pressing it moves the cursor. */
  predicate ShowNextAt(index: int, count: nat)
    ensures ShowNextAt(index, count) <==> NextIndex(Some(index), count) != Some(index)
  {
    index < count - 1
  }

  /** `photos.length + (isProcessing ? 1 : 0)`; the grid renders nothing
      when it is 0. */
  function TotalItems(count: nat, isProcessing: bool): (n: nat)
    ensures n == 0 <==> count == 0 && !isProcessing
    ensures n >= count && n <= count + 1
  {
    count + if isProcessing then 1 else 0
  }

  /** "Download All" is offered only for two photos or more. */
  predicate ShowDownloadAll(count: nat)
  {
    count > 1
  }

  /** `polaroid-${i + 1}.png`: the name of the `i`-th photo (counting from 0)
      in a single download and in the zip. */
  function PhotoFileName(i: nat): string
  {
    "polaroid-" + Decimal(i + 1) + ".png"
  }

  /** Different photos get different file names: the number between the
      fixed prefix and suffix is the photo's 1-based position. */
  lemma PhotoFileNamesDistinct(i: nat, j: nat)
    requires i != j
    ensures PhotoFileName(i) != PhotoFileName(j)
  {
    var a, b := PhotoFileName(i), PhotoFileName(j);
    assert a[9..|a| - 4] == Decimal(i + 1);
    assert b[9..|b| - 4] == Decimal(j + 1);
    DecimalInjective(i + 1, j + 1);
  }

  /** The names of the first `n` photos. */
  function FileNames(n: nat): (names: set<string>)
    ensures forall i :: 0 <= i < n ==> PhotoFileName(i) in names
  {
    if n == 0 then {} else FileNames(n - 1) + {PhotoFileName(n - 1)}
  }

  /** `FileNames(n)` holds exactly the names of photos `0 .. n-1`. */
  lemma {:induction false} FileNamesMembers(n: nat, i: nat)
    ensures PhotoFileName(i) in FileNames(n) <==> i < n
  {
    if n > 0 {
      FileNamesMembers(n - 1, i);
      if i != n - 1 {
        PhotoFileNamesDistinct(i, n - 1);
      }
    }
  }

  /** Every name in `FileNames(n)` is the name of one of the first `n`
      photos. */
  lemma {:induction false} FileNamesOnly(n: nat, name: string)
    requires name in FileNames(n)
    ensures exists i :: 0 <= i < n && name == PhotoFileName(i)
  {
    if name != PhotoFileName(n - 1) {
      FileNamesOnly(n - 1, name);
    }
  }

  /** `{lightboxIndex + 1} / {photos.length}`. */
  function CounterText(index: nat, count: nat): (text: string)
    ensures exists k :: 0 <= k < |text| && text[..k] == Decimal(index + 1) && text[k..] == " / " + Decimal(count)
  {
    var position := Decimal(index + 1);
    var text := position + " / " + Decimal(count);
    assert text[..|position|] == position && text[|position|..] == " / " + Decimal(count);
    text
  }

  /** The zip after the first `n` photos were added to it. */
  function ZipAfter(photos: seq<HomePage.Photo>, n: nat): map<string, Option<string>>
    requires n <= |photos|
  {
    if n == 0 then map[] else ZipAfter(photos, n - 1)[PhotoFileName(n - 1) := photos[n - 1].image]
  }

  /** The names in the zip are those of the photos added so far. */
  lemma {:induction false} ZipAfterKeys(photos: seq<HomePage.Photo>, n: nat)
    requires n <= |photos|
    ensures ZipAfter(photos, n).Keys == FileNames(n)
  {
    if n > 0 {
      ZipAfterKeys(photos, n - 1);
    }
  }

  /** Each photo added so far has an entry of its own, so no entry was
      overwritten. */
  lemma {:induction false} ZipAfterSize(photos: seq<HomePage.Photo>, n: nat)
    requires n <= |photos|
    ensures |ZipAfter(photos, n)| == n
  {
    if n > 0 {
      ZipAfterSize(photos, n - 1);
      ZipAfterKeys(photos, n - 1);
      FileNamesMembers(n - 1, n - 1);
      AddFreshKey(ZipAfter(photos, n - 1), PhotoFileName(n - 1), photos[n - 1].image);
    }
  }

  /** The "Download All" button sits in the header that is rendered only
      when the grid is and there are photos, and pressing it never meets
      `handleDownloadAll`'s early return: the archive gets at least two
      entries. */
  lemma DownloadAllOfferedOnlyForSeveral(photos: seq<HomePage.Photo>, isProcessing: bool)
    requires ShowDownloadAll(|photos|)
    ensures TotalItems(|photos|, isProcessing) > 0 && |photos| > 0
    ensures |ZipAfter(photos, |photos|)| >= 2
  {
    ZipAfterSize(photos, |photos|);
  }

  /** The entry named after photo `i` holds that photo's image. */
  lemma {:induction false} ZipAfterEntry(photos: seq<HomePage.Photo>, n: nat, i: nat)
    requires i < n <= |photos|
    ensures PhotoFileName(i) in ZipAfter(photos, n)
    ensures ZipAfter(photos, n)[PhotoFileName(i)] == photos[i].image
  {
    if i < n - 1 {
      ZipAfterEntry(photos, n - 1, i);
      PhotoFileNamesDistinct(i, n - 1);
    }
  }

  /** The zip's entries, added one photo at a time: each photo's name is
      mapped to the image source that is fetched for it. */
  method ZipEntries(photos: seq<HomePage.Photo>) returns (entries: map<string, Option<string>>)
    ensures |entries| == |photos|
    ensures entries.Keys == FileNames(|photos|)
    ensures forall i :: 0 <= i < |photos| ==> PhotoFileName(i) in entries && entries[PhotoFileName(i)] == photos[i].image
  {
    entries := map[];
    var i := 0;
    while i < |photos|
      invariant 0 <= i <= |photos|
      invariant entries == ZipAfter(photos, i)
    {
      entries := entries[PhotoFileName(i) := photos[i].image];
      i := i + 1;
    }
    ZipAfterKeys(photos, |photos|);
    ZipAfterSize(photos, |photos|);
    forall j | 0 <= j < |photos|
      ensures PhotoFileName(j) in entries && entries[PhotoFileName(j)] == photos[j].image
    {
      ZipAfterEntry(photos, |photos|, j);
    }
  }

  /** Adding a key that is not yet present grows the map by one. */
  lemma AddFreshKey<K, V>(m: map<K, V>, k: K, v: V)
    requires k !in m
    ensures m[k := v].Keys == m.Keys + {k}
    ensures |m[k := v]| == |m| + 1
  {
  }

  /** What a single download does: the link's target and its file name. */
  datatype Link = Link(href: string, fileName: string)

  class Grid {
    /** The props from the page. */
    var photos: seq<HomePage.Photo>
    var isProcessing: bool
    /** The component's own state. */
    var lightboxIndex: Option<int>
    var isZipping: bool

    constructor (photos: seq<HomePage.Photo>, isProcessing: bool)
      ensures this.photos == photos && this.isProcessing == isProcessing
      ensures lightboxIndex == None && !isZipping
    {
      this.photos := photos;
      this.isProcessing := isProcessing;
      lightboxIndex := None;
      isZipping := false;
    }

    /** The page re-renders the grid with new props; the cursor is kept,
        even when it no longer points at a photo. */
    method SetProps(photos: seq<HomePage.Photo>, isProcessing: bool)
      modifies this`photos, this`isProcessing
      ensures this.photos == photos && this.isProcessing == isProcessing
    {
      this.photos := photos;
      this.isProcessing := isProcessing;
    }

    function IsOpen(): bool
      reads this
    {
      IsOpenAt(lightboxIndex, |photos|)
    }

    /** `isOpen ? photos[lightboxIndex].image : null`. */
    function LightboxImage(): (image: Option<string>)
      reads this
      ensures !IsOpen() ==> image.None?
      ensures IsOpen() ==> image == photos[lightboxIndex.value].image
    {
      if IsOpen() then photos[lightboxIndex.value].image else None
    }

    /** A card's `onView`: open the lightbox on that card. */
    method View(index: nat)
      modifies this`lightboxIndex
      ensures lightboxIndex == Some(index)
      ensures index < |photos| ==> IsOpen()
    {
      lightboxIndex := Some(index);
    }

    method GoNext()
      modifies this`lightboxIndex
      ensures lightboxIndex == NextIndex(old(lightboxIndex), |photos|)
      ensures old(IsOpen()) ==> IsOpen()
    {
      lightboxIndex := NextIndex(lightboxIndex, |photos|);
    }

    method GoPrev()
      modifies this`lightboxIndex
      ensures lightboxIndex == PrevIndex(old(lightboxIndex))
      ensures old(IsOpen()) ==> IsOpen()
    {
      lightboxIndex := PrevIndex(lightboxIndex);
    }

    method Close()
      modifies this`lightboxIndex
      ensures lightboxIndex == None && !IsOpen()
    {
      lightboxIndex := None;
    }

    /** The `keydown` listener, installed only while the lightbox is open. */
    method HandleKey(key: string)
      modifies this`lightboxIndex
      ensures !old(IsOpen()) ==> lightboxIndex == old(lightboxIndex)
      ensures old(IsOpen()) && key == "Escape" ==> lightboxIndex == None
      ensures old(IsOpen()) && key == "ArrowRight" ==> lightboxIndex == NextIndex(old(lightboxIndex), |photos|)
      ensures old(IsOpen()) && key == "ArrowLeft" ==> lightboxIndex == PrevIndex(old(lightboxIndex))
      ensures old(IsOpen()) && key !in {"Escape", "ArrowRight", "ArrowLeft"} ==> lightboxIndex == old(lightboxIndex)
    {
      if IsOpen() {
        if key == "Escape" {
          Close();
        }
        if key == "ArrowRight" {
          GoNext();
        }
        if key == "ArrowLeft" {
          GoPrev();
        }
      }
    }

    /** `handleDownload`: nothing without a (truthy) lightbox image;
        otherwise a link to the image named after its 1-based position. */
    method Download() returns (link: Option<Link>)
      ensures !Truthy(LightboxImage()) ==> link.None?
      ensures Truthy(LightboxImage()) ==>
                link == Some(Link(LightboxImage().value, PhotoFileName(lightboxIndex.value)))
    {
      var image := LightboxImage();
      if !Truthy(image) {
        link := None;
      } else {
        link := Some(Link(image.value, PhotoFileName(lightboxIndex.value)));
      }
    }

    /** `handleDownloadAll`: nothing for no photos; otherwise one zip entry
        per photo, and the zipping flag is down again at the end. */
    method DownloadAll() returns (archive: Option<map<string, Option<string>>>)
      modifies this`isZipping
      ensures |photos| == 0 ==> archive.None? && isZipping == old(isZipping)
      ensures |photos| > 0 ==> !isZipping && archive.Some? && |archive.value| == |photos|
      ensures |photos| > 0 ==> archive.value.Keys == FileNames(|photos|)
      ensures |photos| > 0 ==> forall i :: 0 <= i < |photos| ==> archive.value[PhotoFileName(i)] == photos[i].image
    {
      if |photos| == 0 {
        archive := None;
        return;
      }
      isZipping := true;
      var entries := ZipEntries(photos);
      archive := Some(entries);
      isZipping := false;
    }
  }

  /** The page mounts the grid column exactly when the grid has something
      to render, so the grid's `return null` is never shown in that column. */
  lemma ColumnShownIffGridRenders(home: HomePage.Home)
    ensures home.ShowTwoColumns() <==> TotalItems(|home.photos|, home.isProcessing) > 0
  {
  }
}
