/** The side-by-side composition at the end of `show_pages`: the scaled page
    images are pasted left to right onto one canvas as wide as all of them
    together. Only the integer widths are modelled; the scaling that produced
    them is floating-point work. */
module Layout {

  /** Total width of the images, `sum(img.width for img in scaled_images)`. */
  function Sum(widths: seq<nat>): nat
    decreases |widths|
  {
    if widths == [] then 0 else Sum(widths[..|widths| - 1]) + widths[|widths| - 1]
  }

  /** The images before `k` never take more room than all of them. */
  lemma {:induction false} PrefixFitsCanvas(widths: seq<nat>, k: nat)
    requires k <= |widths|
    ensures Sum(widths[..k]) <= Sum(widths)
    decreases |widths| - k
  {
    if k < |widths| {
      var n := |widths|;
      assert widths[..n - 1][..k] == widths[..k];
      PrefixFitsCanvas(widths[..n - 1], k);
      assert widths[..n] == widths;
    } else {
      assert widths[..k] == widths;
    }
  }

  /** Adding the next image widens the prefix by exactly its width. */
  lemma SumStep(widths: seq<nat>, k: nat)
    requires k < |widths|
    ensures Sum(widths[..k + 1]) == Sum(widths[..k]) + widths[k]
  {
    assert widths[..k + 1][..k] == widths[..k];
  }

  /** The paste loop: each image is placed at the running `x_offset`, which
      then grows by the image's width. The images abut without overlap, the
      first starts at 0, and each lies inside the canvas. */
  method PasteOffsets(widths: seq<nat>) returns (offsets: seq<nat>, totalWidth: nat)
    ensures totalWidth == Sum(widths)
    ensures |offsets| == |widths|
    ensures forall i :: 0 <= i < |widths| ==> offsets[i] == Sum(widths[..i])
    ensures |widths| > 0 ==> offsets[0] == 0
    ensures forall i :: 0 <= i < |widths| - 1 ==> offsets[i] + widths[i] == offsets[i + 1]
    ensures forall i :: 0 <= i < |widths| ==> offsets[i] + widths[i] <= totalWidth
  {
    totalWidth := Sum(widths);
    offsets := [];
    var xOffset: nat := 0;
    for i := 0 to |widths|
      invariant |offsets| == i
      invariant xOffset == Sum(widths[..i])
      invariant forall k :: 0 <= k < i ==> offsets[k] == Sum(widths[..k])
    {
      SumStep(widths, i);
      offsets := offsets + [xOffset];
      xOffset := xOffset + widths[i];
    }
    assert |widths| > 0 ==> widths[..0] == [];
    forall i | 0 <= i < |widths|
      ensures offsets[i] + widths[i] == Sum(widths[..i + 1]) <= totalWidth
    {
      SumStep(widths, i);
      PrefixFitsCanvas(widths, i + 1);
    }
  }
}
