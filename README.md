# Photo gallery layout and selection, in Dafny

This project models the layout logic of a portfolio site's two photo galleries.

The **infinite scrolling gallery** works like this:
- It shuffles a base list of sixteen photos ten times with a Fisher–Yates loop.
- It concatenates the ten copies and renumbers them 1 to 160.
- It deals the result into four columns, one `filter` per column on the index modulo 4.
- On start-up it puts each column at one end of its scroll range and hands the animation library a tween towards the other end. Even columns run downwards, odd ones upwards.

The **static gallery** deals a fixed list of seventeen photos round-robin into four columns, pushing photo `index` onto column `index % 4`.

Both galleries keep a selected photo and show a modal for it. A click selects a photo and closing the modal clears the selection.

Files:

- `wrappers.dfy`: module `Wrappers`, the option type standing for `Photo | null`.
- `infinite_scroll_gallery.dfy`: module `InfiniteScrollGallery`:
  - the photo record and the base list;
  - `shuffleArray` as a method over an array copy, proved equal to a recursive specification `ShuffleSteps`;
  - `generateInfinitePhotos` as a method proved equal to `InfinitePhotos`, defined as `Numbered(Rounds(...))`;
  - the four-`filter` column split (`IndexFilter`, `ColumnPhotos`) and its partition properties;
  - the scroll-direction arithmetic and the start-up effect over a `ScrollColumn` class;
  - the selection state as a `Gallery` class.
- `photo_gallery.dfy`: module `PhotoGallery`:
  - the seventeen photos;
  - the push-based `photoColumns` as a method over a local array of four columns, proved equal to the filter split of the other gallery;
  - the selection state and the modal props.

`Math.random()` is modelled as an oracle. `picks[i]` is the index `j` that iteration `i` of the shuffle draws, and the source's `Math.floor(Math.random() * (i + 1))` guarantees `0 <= j <= i` (`ValidDraws`). `generateInfinitePhotos` gets one such sequence per round (`draws`). Every property below holds for every admissible sequence of draws.

## Model

| member | source | states |
|---|---|---|
| InfiniteScrollGallery.Swap | src/components/InfiniteScrollGallery.tsx:55 | swapping two positions keeps the length and the multiset of elements |
| InfiniteScrollGallery.ShuffleSteps | src/components/InfiniteScrollGallery.tsx:53-56 | running the loop's iterations below `i` yields a permutation of the input (same length, same multiset) and leaves every position from `i` on untouched |
| InfiniteScrollGallery.ShuffleArray | src/components/InfiniteScrollGallery.tsx:51-58 | the in-place loop on a fresh copy returns exactly `Shuffled(input, picks)`, a permutation of the input; the loop keeps the positions after `i` final |
| InfiniteScrollGallery.ShuffleStep | src/components/InfiniteScrollGallery.tsx:53-56 | one iteration at `i` is the outermost step of the specification and does not touch the positions after `i` |
| InfiniteScrollGallery.IdentityDrawsKeepOrder | src/components/InfiniteScrollGallery.tsx:53-56 | if every draw picks `j == i`, the shuffle returns its input unchanged |
| InfiniteScrollGallery.Rounds | src/components/InfiniteScrollGallery.tsx:63-64 | there are `count` rounds, each as long as the base list |
| InfiniteScrollGallery.Renumbered | src/components/InfiniteScrollGallery.tsx:66-69 | copies each photo of a round with the id `offset + index + 1` and every other field kept, so the result is as long as the round |
| InfiniteScrollGallery.Numbered | src/components/InfiniteScrollGallery.tsx:63-71 | laying the rounds end to end with the source's renumbering gives photo `k` the id `k + 1` |
| InfiniteScrollGallery.NumberedAppend | src/components/InfiniteScrollGallery.tsx:65-70 | appending a round renumbered from the current length keeps the list numbered from 1 |
| InfiniteScrollGallery.NumberedLength | src/components/InfiniteScrollGallery.tsx:63-71 | rounds of `n` photos each make `n` times the number of rounds |
| InfiniteScrollGallery.InfinitePhotosLength | src/components/InfiniteScrollGallery.tsx:61-73 | `generateInfinitePhotos(count)` yields `count` times the base length photos |
| InfiniteScrollGallery.PushRenumbered | src/components/InfiniteScrollGallery.tsx:65-70 | the `forEach`/`push` loop appends the round with ids `offset + index + 1` and changes nothing else |
| InfiniteScrollGallery.GenerateInfinitePhotos | src/components/InfiniteScrollGallery.tsx:61-73 | the loop builds exactly `InfinitePhotos(base, draws, count)`: `count` times the base length photos, whose ids are 1, 2, ... in order |
| InfiniteScrollGallery.WithoutIdsRenumbered | src/components/InfiniteScrollGallery.tsx:66-69 | renumbering (`{...photo, id}`) changes nothing but the ids |
| InfiniteScrollGallery.WithoutIdsShuffleSteps | src/components/InfiniteScrollGallery.tsx:53-56 | the shuffle moves whole photos: ignoring ids commutes with it |
| InfiniteScrollGallery.NumberedBlock | src/components/InfiniteScrollGallery.tsx:63-71 | round `i` lies, renumbered, right after the rounds before it |
| InfiniteScrollGallery.RenumberedShuffleIsPermutation | src/components/InfiniteScrollGallery.tsx:64-69 | a renumbered shuffled round is, ids ignored, a permutation of the base list |
| InfiniteScrollGallery.BlockIsPermutation | src/components/InfiniteScrollGallery.tsx:61-73 | the `i`-th stretch of base-length photos of the generated list hold round `i` exactly, and, ids ignored, are a permutation of the base list |
| InfiniteScrollGallery.GeneratedIdsUnique | src/components/InfiniteScrollGallery.tsx:68 | generated ids are pairwise distinct, and an id occurs if and only if it lies in 1 to `count` times the base length |
| InfiniteScrollGallery.IndexFilter | src/components/InfiniteScrollGallery.tsx:146-149 | the body of `filter((_, index) => index % 4 === c)`: the elements whose index is congruent to `c` modulo 4, in their original order, built by adding the last element when its index qualifies; its properties are stated by `IndexFilterAt` |
| InfiniteScrollGallery.IndexFilterAt | src/components/InfiniteScrollGallery.tsx:146-149 | `filter((_, index) => index % 4 === c)` keeps `(n + 3 - c) / 4` elements, and its `m`-th is the input's `4 * m + c`-th |
| InfiniteScrollGallery.ColumnsPartition | src/components/InfiniteScrollGallery.tsx:145-150 | the four filters together hold the input's multiset: nothing is lost or duplicated |
| InfiniteScrollGallery.ColumnOfIndex | src/components/InfiniteScrollGallery.tsx:145-150 | the element at index `k` is in filter `k % 4` at position `k / 4` |
| InfiniteScrollGallery.ColumnPhotos | src/components/InfiniteScrollGallery.tsx:145-150 | `columnPhotos` has four columns; column `c` holds exactly the photos at indices congruent to `c` modulo 4, in their original order |
| InfiniteScrollGallery.ColumnPosition | src/components/InfiniteScrollGallery.tsx:145-150 | photo `k` is in column `k % 4` at position `k / 4` |
| InfiniteScrollGallery.ColumnsCoverPhotos | src/components/InfiniteScrollGallery.tsx:145-150 | the columns' multisets add up to the photos' multiset, and their lengths add up to the number of photos |
| InfiniteScrollGallery.ColumnsBalanced | src/components/InfiniteScrollGallery.tsx:145-150 | column lengths differ by at most one, earlier columns being the longer |
| InfiniteScrollGallery.BasePhotosShape | src/components/InfiniteScrollGallery.tsx:31-48 | the base list has sixteen photos with ids 1 to 16, and ten copies of it make 160 photos |
| InfiniteScrollGallery.ColumnIds | src/components/InfiniteScrollGallery.tsx:145-150 | over photos numbered from 1, the `m`-th photo of column `c` has id `4 * m + c + 1` |
| InfiniteScrollGallery.ColumnsOf160 | src/components/InfiniteScrollGallery.tsx:88 | 160 photos numbered from 1 fall into four columns of 40, with ids `4 * m + c + 1` |
| InfiniteScrollGallery.GeneratedColumns | src/components/InfiniteScrollGallery.tsx:145-150 | the columns of a generated list have `(n + 3 - c) / 4` photos for `n` generated photos, and the `m`-th photo of column `c` has id `4 * m + c + 1` |
| InfiniteScrollGallery.GalleryLayout | src/components/InfiniteScrollGallery.tsx:88 | for any base list and copy count making 160 photos, the generated photos have ids 1 to 160 and fall into four columns of 40, the `m`-th photo of column `c` having id `4 * m + c + 1` |
| InfiniteScrollGallery.GalleryOf160 | src/components/InfiniteScrollGallery.tsx:88 | the gallery's own `photos`, ten shuffled copies of `BasePhotos`, satisfy `Layout160` for every admissible draw: 160 photos with ids 1 to 160 in four columns of 40, the `m`-th photo of column `c` having id `4 * m + c + 1` |
| InfiniteScrollGallery.ScrollColumn.MaxScroll | src/components/InfiniteScrollGallery.tsx:98-100 | the definition of `maxScroll` as `scrollHeight - clientHeight`; what its uses promise is stated by `StartAutoScroll`, `ScrollRange` and `ScrollEndsInRange` |
| InfiniteScrollGallery.Direction | src/components/InfiniteScrollGallery.tsx:103 | the direction is 1 or -1, and it is 1 exactly for even column indices |
| InfiniteScrollGallery.StartValue | src/components/InfiniteScrollGallery.tsx:104 | the start is 0 or `maxScroll`, and 0 when the column scrolls down |
| InfiniteScrollGallery.EndValue | src/components/InfiniteScrollGallery.tsx:105 | the end is 0 or `maxScroll`, the other end of the range from the start |
| InfiniteScrollGallery.ScrollRange | src/components/InfiniteScrollGallery.tsx:103-105 | even columns run from 0 to `maxScroll` and odd ones from `maxScroll` to 0; the two ends are always exactly `{0, maxScroll}` |
| InfiniteScrollGallery.ScrollEndsInRange | src/components/InfiniteScrollGallery.tsx:100-105 | when the content is at least as tall as the visible box, the start and the end of every column lie between 0 and `maxScroll` |
| InfiniteScrollGallery.NeighboursSwapEnds | src/components/InfiniteScrollGallery.tsx:103-105 | neighbouring columns scroll in opposite directions: each one's start is the other's end |
| InfiniteScrollGallery.StartAutoScroll | src/components/InfiniteScrollGallery.tsx:91-117 | with autoplay off nothing changes and no tween is requested; otherwise column `k` gets `scrollTop := startValue` and one tween towards `endValue`, with the alternating direction of `k`; when a column's content is at least as tall as its box, its new `scrollTop` and its tween target both lie between 0 and `maxScroll` |
| InfiniteScrollGallery.Gallery.constructor | src/components/InfiniteScrollGallery.tsx:87 | nothing is selected at first |
| InfiniteScrollGallery.Gallery.HandlePhotoClick | src/components/InfiniteScrollGallery.tsx:136-138 | a click selects the photo, and the modal then shows it |
| InfiniteScrollGallery.Gallery.HandleModalClose | src/components/InfiniteScrollGallery.tsx:140-142 | closing clears the selection and removes the modal |
| InfiniteScrollGallery.Gallery.Modal | src/components/InfiniteScrollGallery.tsx:196-204 | the modal is rendered if and only if a photo is selected; it is then open and shows that photo's image, title and description |
| PhotoGallery.PhotoColumns | src/components/PhotoGallery.tsx:158-164 | the push-based loop yields exactly the filter columns: photo `k` in column `k % 4` at position `k / 4`, columns in original order, the columns' multisets and lengths adding up to the photos' |
| PhotoGallery.PhotosShape | src/components/PhotoGallery.tsx:32-152 | the list has seventeen photos with ids 1 to 17 |
| PhotoGallery.SeventeenPhotoColumns | src/components/PhotoGallery.tsx:158-164 | seventeen photos fall into columns of 5, 4, 4 and 4 |
| PhotoGallery.GalleryColumnIds | src/components/PhotoGallery.tsx:158-164 | over seventeen photos numbered from 1, column `c` holds ids `c + 1`, `c + 5`, ...; column 0 holds 1, 5, 9, 13, 17 |
| PhotoGallery.Gallery.constructor | src/components/PhotoGallery.tsx:155 | nothing is selected at first |
| PhotoGallery.Gallery.HandlePhotoClick | src/components/PhotoGallery.tsx:166-168 | a click selects the photo, and the modal is then open on it |
| PhotoGallery.Gallery.HandleModalClose | src/components/PhotoGallery.tsx:170-172 | closing clears the selection; the modal is then closed with empty strings |
| PhotoGallery.Gallery.Modal | src/components/PhotoGallery.tsx:199-205 | `isOpen` holds if and only if a photo is selected; the image, title and description are the selected photo's, or empty strings when nothing is selected |
| PhotoGallery.OrEmpty | src/components/PhotoGallery.tsx:202-204 | the logical-or default of `selectedPhoto?.image` (likewise title and description) to `''`: a present string is kept (an empty one is `''` either way), an absent one becomes `''` |

## Left out

- Randomness: `Math.random()` is replaced by the draws oracle. The model proves what holds for every admissible draw. Uniformity of the shuffle, and the fact that every permutation can be drawn, are not modelled.
- ShuffleArray: the argument is a value (`seq`), so "the argument is not modified" holds by value semantics. Aliasing of the caller's JavaScript array is not modelled. The copy `[...array]` is modelled as a fresh array.
- PhotoColumns: takes the photo list as a parameter, where the source's `useMemo` reads the module-level `photos`. `PhotosShape` and `SeventeenPhotoColumns` applied to `Photos` give the gallery's own instance: columns of 5, 4, 4 and 4 photos.
- GenerateInfinitePhotos: takes the base list as a parameter, where the source reads the module-level `basePhotos`. `GalleryOf160` specialises the result to the gallery's constants.
- Image imports: the bundler's asset URLs are modelled as their import paths.
- StartAutoScroll: a tween records only the column index and the target `scrollTop`. Not modelled:
  - `duration` (`maxScroll / (autoplaySpeed * 30)`, floating point);
  - `delay` (`index * 0.5`);
  - `ease`, `repeat: -1` and `yoyo`;
  - the animation itself.
- StartAutoScroll: DOM access is not modelled: the `!containerRef.current` early return, `querySelectorAll(".column")` (the columns are given) and the measurement of `scrollHeight`/`clientHeight` (they are fields). The cleanup `gsap.killTweensOf` is not modelled either.
- Hover pause/resume (`handleMouseEnter`, `handleMouseLeave`): not modelled. `animationRef` is never assigned, so both handlers do nothing.
- JavaScript numbers are modelled as unbounded integers. Ids stay at most 160, and heights are integers here.
- Rendering is not modelled: JSX, `PhotoCard`, `PhotoModal`, the CSS classes (`gridClass` is kept only as data), `LiquidEtherBackground`, the `Index` page and React's state and memo machinery. Each handler is modelled as a method on the gallery's state.
