/** Which page indices the viewer puts on screen: the range check and pair
    selection of `show_pages`, and the filter `load_textures` applies before it
    rasterises and uploads each page. Only the indices are modelled; the pixels
    come from a foreign rasteriser. */
module Pages {

  /** The conditions the viewer reports to the user in an error box. */
  datatype Error =
    | NoPdfLoaded        // show_pages without a document
    | PageOutOfRange     // show_pages outside [0, page_count)
    | LoadPdfFailed      // the document could not be opened
    | TextureLoadFailed  // load_textures raised (no document)
    | NoTextures         // view_in_3d got an empty texture list

  datatype Result<T> = Ok(value: T) | Err(error: Error)

  /** Strictly increasing, hence also free of duplicates. */
  predicate Increasing(s: seq<int>) {
    forall i, j :: 0 <= i < j < |s| ==> s[i] < s[j]
  }

  /** The pages `show_pages(p)` displays: `p`, and `p + 1` when that page exists;
      nothing, and an error, without a document or with `p` out of range. */
  function ShowSelection(loaded: bool, pageCount: nat, p: int): (r: Result<seq<int>>)
    ensures !loaded ==> r == Err(NoPdfLoaded)
    ensures loaded && !(0 <= p < pageCount) ==> r == Err(PageOutOfRange)
    ensures r.Ok? <==> loaded && 0 <= p < pageCount
    ensures r.Ok? ==> |r.value| > 0 && r.value[0] == p && Increasing(r.value)
    ensures r.Ok? ==> forall x :: x in r.value <==> (x == p || x == p + 1) && 0 <= x < pageCount
  {
    if !loaded then Err(NoPdfLoaded)
    else if !(0 <= p < pageCount) then Err(PageOutOfRange)
    else if p + 1 < pageCount then Ok([p, p + 1])
    else Ok([p])
  }

  /** The candidates that pass `load_textures`' test `page_number >= page_count
      → skip`, in their original order. */
  function KeepBelow(bound: int, candidates: seq<int>): (r: seq<int>)
    ensures |r| <= |candidates|
    ensures forall x :: x in r <==> x in candidates && x < bound
    ensures Increasing(candidates) ==> Increasing(r)
    decreases |candidates|
  {
    if candidates == [] then []
    else
      var init := candidates[..|candidates| - 1];
      var last := candidates[|candidates| - 1];
      var keep := KeepBelow(bound, init);
      assert candidates == init + [last];
      assert Increasing(candidates) ==>
        Increasing(init) && forall i :: 0 <= i < |keep| ==> keep[i] in init && keep[i] < last;
      if last < bound then keep + [last] else keep
  }

  /** The pages `load_textures` loads for `current_page == p`: those of `p`,
      `p + 1` below `pageCount`. There is no lower bound check. */
  function TexturePages(pageCount: nat, p: int): (r: seq<int>)
    ensures |r| <= 2 && Increasing(r)
    ensures forall x :: x in r <==> (x == p || x == p + 1) && x < pageCount
    ensures r == [] <==> p >= pageCount
  {
    var pages := KeepBelow(pageCount, [p, p + 1]);
    assert p < pageCount ==> p in pages;
    assert pages != [] ==> pages[0] in pages;
    pages
  }

  /** The loop of `load_textures` that appends each kept page in turn. */
  method SelectTexturePages(pageCount: nat, currentPage: int) returns (pages: seq<int>)
    ensures pages == TexturePages(pageCount, currentPage)
  {
    var candidates := [currentPage, currentPage + 1];
    pages := [];
    for i := 0 to |candidates|
      invariant pages == KeepBelow(pageCount, candidates[..i])
    {
      assert candidates[..i + 1][..i] == candidates[..i];
      if candidates[i] >= pageCount {
        continue;
      }
      pages := pages + [candidates[i]];
    }
    assert candidates[..|candidates|] == candidates;
  }

  /** Whenever `show_pages` accepts a page, `load_textures` picks the same spread. */
  lemma ShowAndTexturesAgree(pageCount: nat, p: int)
    requires 0 <= p < pageCount
    ensures ShowSelection(true, pageCount, p) == Ok(TexturePages(pageCount, p))
  {
    var pages := TexturePages(pageCount, p);
    assert p in pages;
    if p + 1 < pageCount {
      assert p + 1 in pages;
      assert pages == [p, p + 1];
    } else {
      assert pages == [p];
    }
  }

  /** `load_textures` keeps a negative page that `show_pages` would refuse. */
  lemma NegativePageKeptForTextures(pageCount: nat, p: int)
    requires p < 0 && pageCount > 0
    ensures p in TexturePages(pageCount, p)
    ensures ShowSelection(true, pageCount, p) == Err(PageOutOfRange)
  {
  }
}
