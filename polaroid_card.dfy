/** `PolaroidCard`: the values a card computes from its position `index` in
    the grid (0 for the newest photo). `index` comes from `photos.map`, so
    it is never negative, and for non-negative operands JavaScript's `%`
    agrees with Dafny's. */
module PolaroidCard {
  import opened JsText
  import HomePage

  /** `((index * 7 + 3) % 11) - 5`: the card's tilt in degrees, which the
      source comment promises lies between -5 and 5. */
  function Rotation(index: nat): (degrees: int)
    ensures -5 <= degrees <= 5
  {
    (index * 7 + 3) % 11 - 5
  }

  /** The tilt repeats every eleven cards. */
  lemma RotationPeriodic(index: nat)
    ensures Rotation(index + 11) == Rotation(index)
  {
  }

  /** Within one period no two cards have the same tilt. */
  lemma RotationDistinctInPeriod(i: nat, j: nat)
    requires i < j < i + 11
    ensures Rotation(i) != Rotation(j)
  {
  }

  /** `"#" + String(index + 1).padStart(3, "0")`. */
  function SerialLabel(index: nat): (text: string)
    ensures |text| == 1 + if |Decimal(index + 1)| >= 3 then |Decimal(index + 1)| else 3
    ensures text[0] == '#'
    ensures text[|text| - |Decimal(index + 1)|..] == Decimal(index + 1)
    ensures forall i :: 1 <= i < |text| - |Decimal(index + 1)| ==> text[i] == '0'
  {
    "#" + PadStart(Decimal(index + 1), 3, '0')
  }

  /** The label reads as the card's 1-based position: after the `#` it is
      all digits, and the leading zeros do not change the number. */
  lemma SerialLabelReadsAsPosition(index: nat)
    ensures IsDigits(SerialLabel(index)[1..])
    ensures ValueOf(SerialLabel(index)[1..]) == index + 1
  {
    var digits := Decimal(index + 1);
    var padded := PadStart(digits, 3, '0');
    assert SerialLabel(index)[1..] == padded;
    var padding := if |digits| >= 3 then 0 else 3 - |digits|;
    assert Repeat('0', padding) + digits == padded;
    LeadingZerosValue(padding, digits);
    DecimalRoundTrip(index + 1);
  }

  /** `instant-polaroid-${index + 1}.png`. */
  function DownloadFileName(index: nat): string
  {
    "instant-polaroid-" + Decimal(index + 1) + ".png"
  }

  /** The link `handleDownload` clicks. */
  datatype DownloadLink = DownloadLink(href: string, fileName: string, newTab: bool)

  /** `handleDownload`: `objectUrl` is the blob URL when fetching the image
      worked, None when it failed and the fallback links the image itself in
      a new tab. */
  function Download(index: nat, image: string, objectUrl: Option<string>): (link: DownloadLink)
    ensures link.fileName == DownloadFileName(index)
    ensures objectUrl.Some? ==> link.href == objectUrl.value && !link.newTab
    ensures objectUrl.None? ==> link.href == image && link.newTab
  {
    match objectUrl
    case Some(url) => DownloadLink(url, DownloadFileName(index), false)
    case None => DownloadLink(image, DownloadFileName(index), true)
  }

  /** Both download paths name the file the same way, and the name
      identifies the card. */
  lemma DownloadFileNameIdentifiesCard(i: nat, j: nat, image1: string, image2: string, u1: Option<string>, u2: Option<string>)
    ensures Download(i, image1, u1).fileName == Download(j, image2, u2).fileName <==> i == j
  {
    if i != j {
      var a, b := DownloadFileName(i), DownloadFileName(j);
      assert a[17..|a| - 4] == Decimal(i + 1);
      assert b[17..|b| - 4] == Decimal(j + 1);
      DecimalInjective(i + 1, j + 1);
    }
  }

  /** `index % 3 === 0`: the card carries a strip of tape. */
  predicate HasTape(index: nat)
  {
    index % 3 == 0
  }

  /** The remove button passes the card's own index to `onRemove`, which is
      `handleRemovePhoto`: the card's photo goes, the cards before it keep
      their index and the cards after it move up by one. */
  lemma RemoveButtonDropsOwnPhoto(photos: seq<HomePage.Photo>, index: nat)
    requires index < |photos|
    ensures |HomePage.WithoutIndex(photos, index)| == |photos| - 1
    ensures forall j :: 0 <= j < index ==> HomePage.WithoutIndex(photos, index)[j] == photos[j]
    ensures forall j :: index <= j < |photos| - 1 ==> HomePage.WithoutIndex(photos, index)[j] == photos[j + 1]
    ensures multiset(HomePage.WithoutIndex(photos, index)) + multiset{photos[index]} == multiset(photos)
  {
    var rest := HomePage.WithoutIndex(photos, index);
    HomePage.WithoutIndexDeletes(photos, index);
    ConcatAround(photos, index, rest);
  }

  /** Dropping position `i` of `s` (as `rest` does) keeps the elements
      before `i`, shifts those after it by one and removes one copy of
      `s[i]`. */
  lemma ConcatAround<T>(s: seq<T>, i: nat, rest: seq<T>)
    requires i < |s| && rest == s[..i] + s[i + 1..]
    ensures forall j :: 0 <= j < i ==> rest[j] == s[j]
    ensures forall j :: i <= j < |s| - 1 ==> rest[j] == s[j + 1]
    ensures multiset(rest) + multiset{s[i]} == multiset(s)
  {
    MultisetWithout(s, i);
  }

  lemma MultisetWithout<T>(s: seq<T>, i: nat)
    requires i < |s|
    ensures multiset(s[..i] + s[i + 1..]) + multiset{s[i]} == multiset(s)
  {
    assert s == s[..i] + [s[i]] + s[i + 1..];
  }
}
