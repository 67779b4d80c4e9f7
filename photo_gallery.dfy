/**
 The static photo gallery: a fixed list of seventeen photos dealt round-robin
 into four columns by pushing each photo onto column `index % 4`, and the
 selected-photo state behind its modal, which is open exactly when a photo is
 selected.
 */
module PhotoGallery {
  import opened Wrappers
  import InfiniteScrollGallery

  /** A photo record of this gallery; besides the opaque strings it carries a layout class. */
  datatype Photo = Photo(id: nat, image: string, title: string, description: string, gridClass: string)

  /** The seventeen photos, in source order, ids 1 to 17. */
  const Photos: seq<Photo> := [
    Photo(1, "@/assets/portrait-1.jpg", "Soulful", "A portrait that captures the depth.",
          "md:col-span-1 md:row-span-2"),
    Photo(2, "@/assets/landscape-1.jpg", "M",
          "The ntain peaks emerging from morning mist, a meditation on nature's quiet power.",
          "md:col-span-2 md:row-span-1"),
    Photo(3, "@/assets/architecture-1.jpg", "Urban ",
          "Abstract arch celebrate the intersection of human design and natural light.",
          "md:col-span-1 md:row-span-1"),
    Photo(4, "@/assets/street-1.jpg", "Cits", "Candid motic spirit of human connection in public spaces.",
          "md:col-span-2 md:row-span-1"),
    Photo(5, "@/assets/nature-1.jpg", "Morni", "Macro photoallest details and textures.",
          "md:col-span-1 md:row-span-1"),
    Photo(6, "@/assets/abstract-1.jpg", "Etherw", "Abstracy between photography and visual poetry.",
          "md:col-span-1 md:row-span-2"),
    Photo(7, "@/assets/portrait-2.jpg", "Windht", "Soft naturalhentic beauty and grace.",
          "md:col-span-1 md:row-span-1"),
    Photo(8, "@/assets/landscape-2.jpg", "Rollinlls",
          "Minimalist landscape photography showcasing the power of sipace.",
          "md:col-span-2 md:row-span-1"),
    Photo(9, "@/assets/architecture-2.jpg", "Concretems", "Brutalist architeposition and lighting.",
          "md:col-span-1 md:row-span-1"),
    Photo(10, "@/assets/street-2.jpg", "Rainies", "Urban poetry cay in everyday scenes.",
          "md:col-span-1 md:row-span-2"),
    Photo(11, "@/assets/nature-2.jpg", "Watge", "Macro expry found in morning dew.",
          "md:col-span-1 md:row-span-1"),
    Photo(12, "@/assets/abstract-2.jpg", "Smoe", "Abstof smoke and light interaction.",
          "md:col-span-1 md:row-span-1"),
    Photo(13, "@/assets/wildlife-1.jpg", "Freeght", "Wildlife f birds in their natural element.",
          "md:col-span-1 md:row-span-2"),
    Photo(14, "@/assets/automotive-1.jpg", "Classi", "Automotive p vintage automobiles.",
          "md:col-span-2 md:row-span-1"),
    Photo(15, "@/assets/portrait-3.jpg", "Weatherdom",
          "A portrait study explof age and the stories written in weathered hands.",
          "md:col-span-1 md:row-span-1"),
    Photo(16, "@/assets/blue-throated-barbet.webp", "Blue Throated Barbet",
          "Jewel of the forest, \U{201C}kutru\U{2026} kutru\U{2026} kutru\U{201D} call echoes through woodlands, making it easy to hear even when hidden among leaves.",
          "md:col-span-1 md:row-span-1"),
    Photo(17, "@/assets/DSC01243.webp", "Pumling Waterfall",
          "Crystal-clear waters cascading down mossy rocks, a refreshing escape into nature's embrace.",
          "md:col-span-1 md:row-span-1")
  ]

  // ---------------------------------------------------------------------------
  // photoColumns: round-robin pushes into four columns

  /** `photoColumns`: starts from four empty columns and pushes each photo onto
      column `index % 4`. The result is the same four columns as the filter
      form of the scrolling gallery; so the photo at index `k` lands in column
      `k % 4` at position `k / 4`, columns keep the original order, and no
      photo is lost or duplicated. */
  method PhotoColumns(photos: seq<Photo>) returns (photoColumns: seq<seq<Photo>>)
    ensures photoColumns == InfiniteScrollGallery.ColumnPhotos(photos)
    ensures |photoColumns| == 4
    ensures forall k :: 0 <= k < |photos| ==>
              k / 4 < |photoColumns[k % 4]| && photoColumns[k % 4][k / 4] == photos[k]
    ensures forall c, m :: 0 <= c < 4 && 0 <= m < |photoColumns[c]| ==>
              4 * m + c < |photos| && photoColumns[c][m] == photos[4 * m + c]
    ensures multiset(photoColumns[0]) + multiset(photoColumns[1]) + multiset(photoColumns[2])
            + multiset(photoColumns[3]) == multiset(photos)
    ensures |photoColumns[0]| + |photoColumns[1]| + |photoColumns[2]| + |photoColumns[3]| == |photos|
  {
    var columns := new seq<Photo>[4](_ => []);
    for index := 0 to |photos|
      invariant forall c :: 0 <= c < 4 ==> columns[c] == InfiniteScrollGallery.IndexFilter(photos[..index], c)
    {
      assert photos[..index + 1][..index] == photos[..index];
      columns[index % 4] := columns[index % 4] + [photos[index]];
    }
    assert photos[..|photos|] == photos;
    photoColumns := columns[..];
    InfiniteScrollGallery.ColumnPosition(photos);
    InfiniteScrollGallery.ColumnsCoverPhotos(photos);
  }

  /** The list holds seventeen photos whose ids are their positions plus one. */
  lemma PhotosShape()
    ensures |Photos| == 17
    ensures forall k :: 0 <= k < |Photos| ==> Photos[k].id == k + 1
  {
  }

  /** Seventeen photos fall into columns of 5, 4, 4 and 4. */
  lemma SeventeenPhotoColumns<T>(photos: seq<T>)
    requires |photos| == 17
    ensures var columns := InfiniteScrollGallery.ColumnPhotos(photos);
      |columns[0]| == 5 && |columns[1]| == 4 && |columns[2]| == 4 && |columns[3]| == 4
  {
  }

  /** When the photos are numbered from 1, column `c` of seventeen holds the
      photos with ids `c + 1`, `c + 5`, ...: column 0 gets 1, 5, 9, 13, 17. */
  lemma GalleryColumnIds(photos: seq<Photo>)
    requires |photos| == 17
    requires forall k :: 0 <= k < |photos| ==> photos[k].id == k + 1
    ensures var columns := InfiniteScrollGallery.ColumnPhotos(photos);
      && (forall c, m :: 0 <= c < 4 && 0 <= m < |columns[c]| ==> columns[c][m].id == 4 * m + c + 1)
      && (seq(5, m requires 0 <= m < 5 => columns[0][m].id)) == [1, 5, 9, 13, 17]
  {
    SeventeenPhotoColumns(photos);
  }

  // ---------------------------------------------------------------------------
  // Selected photo and modal

  /** The props the gallery passes to its modal. */
  datatype ModalProps = ModalProps(isOpen: bool, image: string, title: string, description: string)

  /** The gallery's `selectedPhoto` state. */
  class Gallery {
    var selectedPhoto: Option<Photo>

    constructor ()
      ensures selectedPhoto == None
    {
      selectedPhoto := None;
    }

    /** `handlePhotoClick` */
    method HandlePhotoClick(photo: Photo)
      modifies this
      ensures selectedPhoto == Some(photo)
      ensures Modal() == ModalProps(true, photo.image, photo.title, photo.description)
    {
      selectedPhoto := Some(photo);
    }

    /** `handleModalClose` */
    method HandleModalClose()
      modifies this
      ensures selectedPhoto == None
      ensures Modal() == ModalProps(false, "", "", "")
    {
      selectedPhoto := None;
    }

    /** The props of the modal: the modal is open exactly when a photo is
        selected, shows that photo, and gets empty strings otherwise. */
    function Modal(): (props: ModalProps)
      reads this
      ensures props.isOpen <==> selectedPhoto.Some?
      ensures selectedPhoto.Some? ==>
        var p := selectedPhoto.value;
        props.image == p.image && props.title == p.title && props.description == p.description
      ensures selectedPhoto.None? ==> props.image == "" && props.title == "" && props.description == ""
    {
      match selectedPhoto
      case None => ModalProps(false, OrEmpty(None), OrEmpty(None), OrEmpty(None))
      case Some(p) => ModalProps(true, OrEmpty(Some(p.image)), OrEmpty(Some(p.title)), OrEmpty(Some(p.description)))
    }
  }

  /** The default to the empty string of an optional string: an absent or empty string becomes `''`. */
  function OrEmpty(value: Option<string>): (s: string)
    ensures value.Some? ==> s == value.value
    ensures value.None? ==> s == ""
  {
    match value
    case Some(v) => if v == "" then "" else v
    case None => ""
  }
}
