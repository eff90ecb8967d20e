/** Which pages the print dialog prints: the dialog's `onChange` handler turns
    the checked radio button ("all", "current" or "custom"), the viewer's
    layout mode and current page, and the typed page range into the list of
    1-based page numbers to print. */
module PageSelection {

  /** The viewer's display modes that matter for "current page" printing;
      every layout other than the four facing ones behaves like `Single`. */
  datatype LayoutMode = Single | Facing | FacingContinuous | FacingCover | FacingCoverContinuous

  /** The radio button of the dialog's "pages" group that is checked. */
  datatype PrintMode = AllPages | CurrentPage | CustomPages

  /** The page-range parser the "custom" mode delegates to. It is not part of
      this model, so callers pass it in: it maps the cleaned-up input and the
      document's page labels to page numbers. */
  type PageRangeParser = (string, seq<string>) -> seq<int>

  /** Layouts with a cover page: page 1 alone, then the spreads 2-3, 4-5, ... */
  predicate IsCoverLayout(layout: LayoutMode) {
    layout == FacingCover || layout == FacingCoverContinuous
  }

  /** Layouts without a cover page: the spreads 1-2, 3-4, ... */
  predicate IsFacingLayout(layout: LayoutMode) {
    layout == Facing || layout == FacingContinuous
  }

  /** The truth value JavaScript gives `n % 2`: non-zero exactly for odd `n`,
      negative odd numbers included (their remainder is -1 there, 1 here). */
  predicate IsOdd(n: int) {
    n % 2 != 0
  }

  /** "Current" mode: the page or pair of pages the viewer shows around the
      current page. Whatever the inputs, the result is one page, or two
      consecutive pages in ascending order, and it holds the current page. */
  function CurrentPages(layout: LayoutMode, pageCount: nat, currentPage: int): (pages: seq<int>)
    ensures 1 <= |pages| <= 2
    ensures currentPage in pages
    ensures |pages| == 2 ==> pages[1] == pages[0] + 1
    ensures !IsCoverLayout(layout) && !IsFacingLayout(layout) ==> pages == [currentPage]
  {
    if IsCoverLayout(layout) then
      if currentPage == 1 || (currentPage == pageCount && pageCount % 2 == 0) then
        [currentPage]
      else if IsOdd(currentPage) then
        [currentPage - 1, currentPage]
      else
        [currentPage, currentPage + 1]
    else if IsFacingLayout(layout) then
      if currentPage == pageCount && pageCount % 2 == 1 then
        [currentPage]
      else if IsOdd(currentPage) then
        [currentPage, currentPage + 1]
      else
        [currentPage - 1, currentPage]
    else
      [currentPage]
  }

  /** The page numbers of `s` that exist in a document of `pageCount` pages, in order. */
  function Clip(s: seq<int>, pageCount: nat): (r: seq<int>)
    ensures forall p :: p in r <==> p in s && 1 <= p <= pageCount
  {
    if s == [] then []
    else if 1 <= s[0] <= pageCount then [s[0]] + Clip(s[1..], pageCount)
    else Clip(s[1..], pageCount)
  }

  /** The first slot of the spread page `c` belongs to: spreads start at even
      slots in cover layouts (slot 0 is the empty left side of the cover) and
      at odd slots in the other facing layouts. */
  function SpreadStart(layout: LayoutMode, c: int): int
    requires IsCoverLayout(layout) || IsFacingLayout(layout)
  {
    if IsCoverLayout(layout) then c - c % 2 else c - (c - 1) % 2
  }

  /** Reference definition of what the viewer shows: the spread holding page
      `c`, without the slots that are not pages of the document. */
  function Spread(layout: LayoutMode, pageCount: nat, c: int): seq<int>
  {
    if IsCoverLayout(layout) || IsFacingLayout(layout) then
      var first := SpreadStart(layout, c);
      Clip([first, first + 1], pageCount)
    else
      [c]
  }

  /** For a current page inside the document, "current" mode prints exactly
      the spread the viewer shows, so every printed page exists. */
  lemma {:induction false} CurrentPagesIsSpread(layout: LayoutMode, pageCount: nat, currentPage: int)
    requires 1 <= currentPage <= pageCount
    ensures CurrentPages(layout, pageCount, currentPage) == Spread(layout, pageCount, currentPage)
    ensures forall p :: p in CurrentPages(layout, pageCount, currentPage) ==> 1 <= p <= pageCount
  {
    var pages := CurrentPages(layout, pageCount, currentPage);
    if IsCoverLayout(layout) || IsFacingLayout(layout) {
      var first := SpreadStart(layout, currentPage);
      var pair := [first, first + 1];
      assert pair[1..] == [first + 1] && [first + 1][1..] == [];
      var second := Clip([first + 1], pageCount);
      assert 1 <= first + 1 && Clip([], pageCount) == [];
      assert second == if first + 1 <= pageCount then [first + 1] else [];
      if |pages| == 2 {
        assert first == pages[0] && 1 <= first && first + 1 <= pageCount;
      } else if first == currentPage {
        assert Clip(pair, pageCount) == [first] + second;
      } else {
        assert first + 1 == currentPage && first < 1;
      }
    }
  }

  /** Asking for the current page from either page of a displayed pair prints
      the same pages. */
  lemma {:induction false} SameSpreadSamePages(layout: LayoutMode, pageCount: nat, c: int, d: int)
    requires 1 <= c <= pageCount && 1 <= d <= pageCount
    requires d in CurrentPages(layout, pageCount, c)
    ensures CurrentPages(layout, pageCount, d) == CurrentPages(layout, pageCount, c)
  {
    CurrentPagesIsSpread(layout, pageCount, c);
    CurrentPagesIsSpread(layout, pageCount, d);
    if IsCoverLayout(layout) || IsFacingLayout(layout) {
      assert SpreadStart(layout, d) == SpreadStart(layout, c);
    }
  }

  /** "All" mode: the loop that pushes 1, 2, ..., totalPages. */
  method ListAllPages(totalPages: nat) returns (pages: seq<int>)
    ensures |pages| == totalPages
    ensures forall k :: 0 <= k < |pages| ==> pages[k] == k + 1
  {
    pages := [];
    var i := 1;
    while i <= totalPages
      invariant 1 <= i <= totalPages + 1
      invariant |pages| == i - 1
      invariant forall k :: 0 <= k < |pages| ==> pages[k] == k + 1
    {
      pages := pages + [i];
      i := i + 1;
    }
  }

  /** The characters a JavaScript regular expression matches with `\s`. */
  predicate IsJsWhitespace(ch: char) {
    || ch == ' ' || ch == '\t' || ch == '\n' || ch == '\r'
    || ch == '\U{000B}' || ch == '\U{000C}' || ch == '\U{00A0}' || ch == '\U{1680}'
    || ('\U{2000}' <= ch <= '\U{200A}')
    || ch == '\U{2028}' || ch == '\U{2029}' || ch == '\U{202F}' || ch == '\U{205F}'
    || ch == '\U{3000}' || ch == '\U{FEFF}'
  }

  /** `value.replace(/\s+/g, '')`: the input with every whitespace character
      removed and every other character kept. */
  function StripWhitespace(s: string): (r: string)
    ensures forall i :: 0 <= i < |r| ==> !IsJsWhitespace(r[i])
    ensures forall ch :: ch in r <==> ch in s && !IsJsWhitespace(ch)
    ensures (forall i :: 0 <= i < |s| ==> !IsJsWhitespace(s[i])) ==> r == s
  {
    if s == [] then []
    else if IsJsWhitespace(s[0]) then StripWhitespace(s[1..])
    else [s[0]] + StripWhitespace(s[1..])
  }

  /** Removing whitespace keeps the order of what remains: it works piece by piece. */
  lemma {:induction false} StripWhitespaceAppend(a: string, b: string)
    ensures StripWhitespace(a + b) == StripWhitespace(a) + StripWhitespace(b)
  {
    if a == [] {
      assert a + b == b;
    } else {
      assert (a + b)[0] == a[0] && (a + b)[1..] == a[1..] + b;
      StripWhitespaceAppend(a[1..], b);
    }
  }

  /** What `onChange` leaves in `pagesToPrint` for the checked mode:
      1, 2, ..., totalPages for "all"; the displayed page or pair for
      "current"; the parser's answer on the input without whitespace for
      "custom". */
  predicate IsSelection(pages: seq<int>, mode: PrintMode, layout: LayoutMode, totalPages: nat,
                        currentPage: int, customInput: string, pageLabels: seq<string>,
                        parse: PageRangeParser)
  {
    match mode
    case AllPages => |pages| == totalPages && forall k :: 0 <= k < |pages| ==> pages[k] == k + 1
    case CurrentPage => pages == CurrentPages(layout, totalPages, currentPage)
    case CustomPages => pages == parse(StripWhitespace(customInput), pageLabels)
  }

  /** The whole `onChange` decision. `totalPages` is the engine's page count,
      `parse` the custom-range parser. */
  method SelectPages(mode: PrintMode, layout: LayoutMode, totalPages: nat, currentPage: int,
                     customInput: string, pageLabels: seq<string>, parse: PageRangeParser)
    returns (pages: seq<int>)
    ensures IsSelection(pages, mode, layout, totalPages, currentPage, customInput, pageLabels, parse)
  {
    match mode
    case AllPages =>
      pages := ListAllPages(totalPages);
    case CurrentPage =>
      pages := CurrentPages(layout, totalPages, currentPage);
    case CustomPages =>
      pages := parse(StripWhitespace(customInput), pageLabels);
  }
}
