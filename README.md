# PDF flipbook: page navigation and the page-flip animator

This project models the state logic of a desktop PDF "flipbook" viewer (one
PyQt window class, `PDFFlipbook` in `main.py`) and proves properties of it in
Dafny. The viewer shows a document as two-page spreads. In the flat view the
Previous, Next and Swap Pages buttons move `current_page`, and so do clicks on
the image in full-screen mode. "View in 3D" opens an OpenGL loop in which a
mouse press starts a page-turn animation: an integer angle steps by 5 degrees
per tick up to ±180. When the animation finishes, the loop moves
`current_page` by two pages and reloads the page textures.

Modules:

- `Pages` (`pages.dfy`): which page indices `show_pages` displays, with its
  error outcomes, and which ones `load_textures` keeps.
- `Navigation` (`navigation.dfy`): the position (document open, page count,
  current page) and the pure effect of Previous, Next and Swap Pages. It also
  holds the invariant "even page within [0, page count]" and its preservation
  under any sequence of Previous and Next presses.
- `Animator` (`animator.dfy`): the loop body of `render_3d` with the GL calls
  removed. The state is the two angles, the flags `flipping_left`,
  `flipping_right` and `page_flipping`, the current page, and the pages whose
  textures are loaded. The methods `DrainInput`, `TurnRightPage` and
  `TurnLeftPage` are the loop's statements, each proved equal to its function.
- `Layout` (`layout.dfy`): the side-by-side paste loop of `show_pages` over
  given integer image widths.
- `Viewer` (`viewer.dfy`): class `Flipbook`. It has the fields the handlers
  update in place (document open, page count, `current_page`,
  `is_fullscreen`) and what is on screen (the pages in the image label and the
  error boxes shown so far). Each handler is proved against the functions
  above. `Render3D` is the render loop itself, proved equal to `Animator.Run`.

Behaviour of the code that the model keeps on purpose:

- `previous_page` does not clamp. From page 1, which Swap Pages can reach, it
  goes to -1.
- `next_page` can move to exactly `page_count` when the count is even. The
  next `show_pages` then reports "Page number out of range".
- The completion checks of `render_3d` are level-triggered. Once the right
  angle has reached 180, every later tick adds 2 to `current_page` and reloads
  textures, until a new right press resets the angle. The left side does the
  same with -2.
- `render_3d` binds `textures[1]` on every tick. With fewer than two textures
  loaded this raises an IndexError; the model gives it the outcome `Crashed`.
- The flat view sends a click at exactly `width / 2` forward. The 3D view sends
  a press at exactly `width // 2` back.

## Model

| member | source | states |
|---|---|---|
| `Pages.ShowSelection` | main.py:125-138 | no document gives "No PDF loaded"; a document with the page outside [0, page_count) gives "Page number out of range"; otherwise the shown pages are exactly p and, when it exists, p + 1, in increasing order starting with p |
| `Pages.TexturePages` | main.py:269-271 | the texture pages are exactly those of p, p + 1 below page_count, in increasing order, at most two, and none exactly when p >= page_count (no lower bound) |
| `Pages.SelectTexturePages` | main.py:266-296 | the appending loop of `load_textures` yields exactly `TexturePages` for the current page |
| `Pages.ShowAndTexturesAgree` | main.py:269-271 | for every page `show_pages` accepts, `load_textures` selects the same spread |
| `Pages.NegativePageKeptForTextures` | main.py:269-271 | a negative current page is kept for loading although `show_pages` refuses it as out of range |
| `Navigation.PreviousPage` | main.py:175-178 | moves only when a document is open and the page is past 0, then by exactly -2, so no lower than -1; keeps an aligned position aligned |
| `Navigation.NextPage` | main.py:180-183 | moves only when a document is open and page + 1 < page_count, then by exactly +2, so no higher than page_count; keeps an aligned position aligned |
| `Navigation.SwapPages` | main.py:185-191 | moves exactly when a document is open and the page is even with a next page, or odd and at least 1; then to page + 1 from an even page and page - 1 from an odd one, and from a showable page onto a showable page |
| `Navigation.SwapTwiceRestores` | main.py:185-191 | two swaps from a showable page that can swap return to the starting page |
| `Navigation.NavigateKeepsAligned` | main.py:175-183 | any sequence of Previous/Next presses keeps the page even and within [0, page_count] and never changes the document |
| `Navigation.OpenedThenNavigated` | main.py:114-121 | after the reset to page 0 on opening, Previous/Next alone keep the page even and within [0, page_count] |
| `Navigation.NextReachesPageCount` | main.py:180-183 | with an even page count, Next from the last spread lands on page_count itself |
| `Navigation.PreviousFromOneIsNegative` | main.py:175-178 | Previous from page 1 lands on -1 |
| `Animator.FlipClickSide` | main.py:316-324 | a press flips the right page exactly when x > width // 2, that is when 2x is at least width + 2 for an even width and width + 1 for an odd one; any other press flips the left page |
| `Animator.ClickSidesDisagreeOnlyAtMidline` | main.py:316-324 | the 3D routing (`x > width // 2` flips right) and the flat routing (`x < width / 2` goes back) differ exactly at x = width / 2 for an even width |
| `Animator.Click` | main.py:310-324 | a press while `page_flipping` changes nothing; otherwise the pressed side starts flipping from angle 0, the guard is set, the other side is untouched; consistency is preserved |
| `Animator.DrainEvents` | main.py:307-324 | the tick ends the view exactly when a quit event is present; without a quit and with no flip in progress, the first press decides: the result is `Click` on that press's side, later presses being ignored; while a flip is in progress all presses are ignored; with no press and no quit nothing changes; consistency is preserved |
| `Animator.DrainInput` | main.py:307-324 | the event loop over one tick's events computes exactly `DrainEvents` |
| `Animator.TurnRightPage` | main.py:335-339 | the right flip step statements compute exactly `StepRight` |
| `Animator.TurnLeftPage` | main.py:359-363 | the left flip step statements compute exactly `StepLeft` |
| `Animator.StepRight` | main.py:335-339 | a flipping right page turns by exactly 5; from a consistent state it stops, clearing `page_flipping`, exactly when it reaches 180, and never past it; the left side is untouched |
| `Animator.StepLeft` | main.py:359-363 | a flipping left page turns by exactly -5; from a consistent state it stops, clearing `page_flipping`, exactly at -180; the right side is untouched |
| `Animator.Complete` | main.py:382-388 | the page moves by +2 for a finished right flip and -2 for a finished left flip, with no range check; after a move the textures are those of the page reached, otherwise unchanged |
| `Animator.Tick` | main.py:306-388 | quits exactly on a quit event; crashes exactly when fewer than two textures are loaded; a running tick steps both sides once from the state the events left (`Advance` of `DrainEvents`), moves the page by the level-triggered completion tests, and holds the texture pages of the page reached when a completion test fired, the old textures otherwise; a tick without input advances both sides by one step; consistency is preserved |
| `Animator.Run` | main.py:298-392 | from a consistent state every tick keeps `page_flipping == flipping_left or flipping_right`, never both sides flipping, and angles within [0, 180] and [-180, 0]; a quit outcome needs a quit event |
| `Animator.RunHalts` | main.py:306-309 | after a quit or a crash, further ticks change nothing |
| `Animator.RightFlipTakes36Ticks` | main.py:335-339 | a right flip from 0 is at 5k degrees after k < 36 ticks, ends after exactly 36 ticks at exactly 180 and stays there; the left page does not move |
| `Animator.LeftFlipTakes36Ticks` | main.py:359-363 | a left flip from 0 ends after exactly 36 ticks at exactly -180 and stays there |
| `Animator.CompletedRightFlipKeepsTurning` | main.py:382-384 | after a finished right flip, each later tick without input adds 2 more to the page while the angle stays at 180 (level-triggered completion) |
| `Layout.PrefixFitsCanvas` | main.py:160-167 | the widths of the images before any position never exceed the total width |
| `Layout.PasteOffsets` | main.py:160-167 | the first image is pasted at 0, each next one exactly where the previous ends, each at the sum of the widths before it, and all inside a canvas as wide as their sum |
| `Viewer.Flipbook.constructor` | main.py:16-23 | a new window has no document, page 0, not full-screen, nothing shown |
| `Viewer.Flipbook.ShowPages` | main.py:125-138 | the selected spread replaces the picture, or an error box is added and the picture stays |
| `Viewer.Flipbook.LoadPdf` | main.py:114-123 | a cancelled dialog changes nothing; a failed open adds an error box and keeps the old document; a successful open sets the page count, resets to page 0 and shows it |
| `Viewer.Flipbook.PreviousPage` | main.py:175-178 | the fields move as `Navigation.PreviousPage`; the new page is shown exactly when it moved |
| `Viewer.Flipbook.NextPage` | main.py:180-183 | the fields move as `Navigation.NextPage`; the new page is shown exactly when it moved |
| `Viewer.Flipbook.SwapPages` | main.py:185-191 | the fields move as `Navigation.SwapPages`; the page is shown whenever a document is open, moved or not |
| `Viewer.Flipbook.ToggleFullscreen` | main.py:193-210 | `is_fullscreen` is negated |
| `Viewer.Flipbook.KeyPress` | main.py:226-228 | Escape leaves full-screen mode and no key enters it |
| `Navigation.FlatClickSide` | main.py:217-224 | a click goes back exactly when x < width / 2 in real division |
| `Viewer.Flipbook.HandleMouseClick` | main.py:212-224 | ignored unless full-screen; in full-screen mode with no picture shown yet, reading the picture's width fails and nothing changes; otherwise a click left of half the width acts as Previous and any other as Next |
| `Viewer.Flipbook.LoadTextures` | main.py:266-296 | with a document, the texture pages of the current page; without one, an error box and no textures |
| `Viewer.Flipbook.CompleteFlips` | main.py:381-388 | the current page and textures after the completion checks are those of `Animator.Complete` |
| `Viewer.Flipbook.Render3D` | main.py:298-392 | the loop's outcome and final state are `Animator.Run` from the start state, and `current_page` is left at the page it reached |
| `Viewer.Flipbook.ViewIn3D` | main.py:237-251 | with no texture pages an error box is shown (two without a document) and nothing runs; otherwise the render loop runs from the current page |

## Left out

- Window chrome: widgets, style sheets, palette and fonts. The file dialog is
  reduced to its outcome (`OpenOutcome`). Message boxes are reduced to the list
  of error kinds shown.
- The document library: opening, `load_page` and `get_pixmap` are foreign
  calls. A document is its page count only. Rasterising is assumed to succeed,
  so the "Failed to display pages" path of `show_pages` is not modelled.
  Neither is a `load_textures` that fails part-way (for example on a negative
  index the library rejects): how `load_page` treats negative indices is up to
  the library.
- `if self.pdf_document` is modelled as "a document is open". In Python a
  document object with zero pages might test false. Then `show_pages` would
  report "No PDF loaded" instead of "Page number out of range", and
  `swap_pages` (main.py:186) would do nothing at all, where the model shows a
  "Page number out of range" box. Previous and Next do nothing either way.
- Image work: PIL resizing, the floating-point fit ratio in `show_pages`,
  numpy conversion and the QImage. `Layout.PasteOffsets` takes the scaled
  widths as given integers. The canvas height (`max` of the heights) is not
  modelled.
- OpenGL: `init_gl`, texture generation and upload, quad drawing and the
  translate/rotate/perspective transforms. A texture is represented by the
  page index it was loaded from. The source never deletes old textures; the
  model has no notion of GPU memory.
- pygame: initialisation, `pygame.quit`, `display.flip` and the 60-ticks-per-
  second pacing. The input is given as one list of events per tick. A mouse
  press carries the pointer position and window width read while it is
  handled. Any mouse button counts as a press, as in the source.
- `render_3d`'s `while True` loop is modelled over a finite list of ticks. An
  endless run is every prefix of it.
- `Viewer.Flipbook.Render3D` requires an open document. Its only caller,
  `view_in_3d`, enters it only after a non-empty texture list, which needs a
  document.
- The `print` of each loaded texture id.
