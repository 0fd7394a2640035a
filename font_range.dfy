/** The canvas component's bitmap fonts: the sizes it loads and the rule
    that nothing is drawn before they are loaded. Loading the font files
    is left out; `FontsLoaded` is what its completion does. */
module FontRange {
  import opened Wrappers
  import MarkingRender

  const LargeFontSize: int := 64

  /** `range(min, max)`: an array of `max - min + 1` consecutive values
      from `min`; `new Array` refuses a negative length (`None`). */
  method Range(min: int, max: int) returns (r: Option<array<int>>)
    ensures max - min + 1 < 0 <==> r.None?
    ensures r.Some? ==> fresh(r.value) && r.value.Length == max - min + 1
    ensures r.Some? ==> forall i :: 0 <= i < r.value.Length ==> r.value[i] == min + i
  {
    var len := max - min + 1;
    if len < 0 {
      return None;
    }
    var arr := new int[len];
    for i := 0 to len
      invariant forall k :: 0 <= k < i ==> arr[k] == min + k
    {
      arr[i] := min + i;
    }
    r := Some(arr);
  }

  /** `[...range(6, 32), 64]`: exactly the sizes 6 to 32 in order, then 64,
      so every size a marking label's font can be named with is loaded. */
  method LoadedFontSizes() returns (sizes: seq<int>)
    ensures |sizes| == 28
    ensures forall i :: 0 <= i < 27 ==> sizes[i] == MarkingRender.MinFontSize + i
    ensures sizes[27] == LargeFontSize
    ensures forall size: real :: MarkingRender.FontSize(size) in sizes
  {
    var r := Range(MarkingRender.MinFontSize, MarkingRender.MaxFontSize);
    var arr := r.value;
    sizes := arr[..] + [LargeFontSize];
    forall size: real
      ensures MarkingRender.FontSize(size) in sizes
    {
      var n := MarkingRender.FontSize(size);
      assert sizes[n - MarkingRender.MinFontSize] == n;
    }
  }

  class Canvas {
    var isFontLoaded: bool

    constructor ()
      ensures !isFontLoaded && !Renders()
    {
      isFontLoaded := false;
    }

    /** Whether the stage is drawn: `if (!isFontLoaded) return null`. */
    predicate Renders()
      reads this
    {
      isFontLoaded
    }

    /** What the loading promise does once every font is in. */
    method FontsLoaded()
      modifies this
      ensures isFontLoaded && Renders()
    {
      isFontLoaded := true;
    }
  }
}
