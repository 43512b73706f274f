/** The pagination bar: from the current page, the page count, the number of
    boundary pages and the radius around the current page, the line of page
    numbers and `...` gaps, such as `1 ... 3 4 5 6 7 ... 10`. */
module Pagination {
  import opened Runs
  import Render

  /** The ways a call can fail; Python raises a `ValueError` for each. */
  datatype Error =
    | ArityError                  // not exactly four inputs
    | InvalidPositiveInteger      // current page, total pages or boundaries below 1
    | InvalidNonNegativeInteger   // around below 0
    | OutOfRange                  // boundaries or current page above total pages
    | AroundExceedsTotal          // the window overflows on both sides at once

  datatype Outcome = Pass | Fail(error: Error)

  datatype Result<T> = Ok(value: T) | Err(error: Error)

  /** One slot of the bar: a page number or the `...` gap marker. */
  datatype Label = Page(number: int) | Ellipsis

  // ---------------------------------------------------------------------------
  // Input validation

  /** The requests the bar is defined for. */
  predicate ValidRequest(current: int, total: int, boundaries: int, around: int)
  {
    1 <= current <= total &&
    1 <= boundaries <= total &&
    0 <= around &&
    !(current - around < 1 && total < current + around)
  }

  /** Position of each validation check in the order they are made. */
  function CheckOrder(e: Error): nat
  {
    match e
    case ArityError => 0
    case InvalidPositiveInteger => 1
    case InvalidNonNegativeInteger => 2
    case OutOfRange => 3
    case AroundExceedsTotal => 4
  }

  /** What the check that reports `e` demands of a request. */
  predicate Passes(e: Error, current: int, total: int, boundaries: int, around: int)
  {
    match e
    case ArityError => true
    case InvalidPositiveInteger => 1 <= current && 1 <= boundaries && 1 <= total
    case InvalidNonNegativeInteger => 0 <= around
    case OutOfRange => boundaries <= total && current <= total
    case AroundExceedsTotal => !(current - around < 1 && current + around > total)
  }

  /** Accepts exactly the valid requests; otherwise reports the first check,
      in check order, that the request fails. */
  function Validate(current: int, total: int, boundaries: int, around: int): (r: Outcome)
    ensures r == Pass <==> ValidRequest(current, total, boundaries, around)
    ensures r.Fail? ==> r.error != ArityError && !Passes(r.error, current, total, boundaries, around)
    ensures r.Fail? ==> forall e :: CheckOrder(e) < CheckOrder(r.error) ==> Passes(e, current, total, boundaries, around)
  {
    if current <= 0 || boundaries <= 0 || total <= 0 then Fail(InvalidPositiveInteger)
    else if around < 0 then Fail(InvalidNonNegativeInteger)
    else if boundaries > total || current > total then Fail(OutOfRange)
    else if current - around < 1 && current + around > total then Fail(AroundExceedsTotal)
    else Pass
  }

  // ---------------------------------------------------------------------------
  // Window clamping

  /** Clips a run of page numbers to `[1, total]` by slicing: first drop the
      pages below 1, then cut the tail after `total`. */
  function Trim(pages: seq<int>, total: int): (r: seq<int>)
    requires |pages| > 0 && IsRun(pages)
    requires pages[0] <= total && 1 <= pages[|pages| - 1] && 0 <= total
    ensures r == Range(Max(pages[0], 1), Min(pages[|pages| - 1], total) + 1)
    ensures 1 <= pages[0] && pages[|pages| - 1] <= total ==> r == pages
  {
    assert pages[|pages| - 1] == pages[0] + |pages| - 1;
    var low := if pages[0] < 1 then pages[1 - pages[0]..] else pages;
    assert low[0] == Max(pages[0], 1);
    assert IsRun(low);
    if low[|low| - 1] > total then low[..total - low[0] + 1] else low
  }

  /** The result is a contiguous slice of the input, starting where the
      pages below 1 end. */
  lemma TrimIsSlice(pages: seq<int>, total: int)
    requires |pages| > 0 && IsRun(pages)
    requires pages[0] <= total && 1 <= pages[|pages| - 1] && 0 <= total
    ensures var start := Max(1 - pages[0], 0);
      start + |Trim(pages, total)| <= |pages| &&
      Trim(pages, total) == pages[start..start + |Trim(pages, total)|]
  {
    var r := Trim(pages, total);
    var start := Max(1 - pages[0], 0);
    assert pages[|pages| - 1] == pages[0] + |pages| - 1;
    assert start + |r| <= |pages|;
    assert forall i :: 0 <= i < |r| ==> r[i] == pages[start + i];
  }

  // ---------------------------------------------------------------------------
  // Gap labelling

  /** Page `pages[i]` does not follow on from the page before it. */
  predicate IsGap(pages: seq<int>, i: int)
    requires 0 < i < |pages|
  {
    pages[i] != pages[i - 1] + 1
  }

  /** The number of gaps in `pages`. */
  function Gaps(pages: seq<int>): nat
    decreases |pages|
  {
    if |pages| <= 1 then 0
    else Gaps(pages[..|pages| - 1]) + (if IsGap(pages, |pages| - 1) then 1 else 0)
  }

  /** The labels for a list of pages: one per page, with an ellipsis in front
      of every page that does not follow on from its predecessor. */
  function Labels(pages: seq<int>): (r: seq<Label>)
    ensures |r| == |pages| + Gaps(pages)
    decreases |pages|
  {
    if pages == [] then []
    else
      var n := |pages| - 1;
      Labels(pages[..n]) + (if n > 0 && IsGap(pages, n) then [Ellipsis] else []) + [Page(pages[n])]
  }

  /** The labels of a non-empty list start with its first page and end with its last. */
  lemma {:induction false} LabelsEnds(pages: seq<int>)
    requires |pages| > 0
    ensures var labels := Labels(pages);
      |labels| > 0 && labels[0] == Page(pages[0]) && labels[|labels| - 1] == Page(pages[|pages| - 1])
    decreases |pages|
  {
    var n := |pages| - 1;
    if n > 0 {
      var init := pages[..n];
      LabelsEnds(init);
      assert Labels(pages) == Labels(init) + (if IsGap(pages, n) then [Ellipsis] else []) + [Page(pages[n])];
    }
  }

  /** Appending a page appends its label, after an ellipsis when it does not
      follow on from the last page so far. */
  lemma LabelsAppend(pages: seq<int>, x: int)
    ensures Labels(pages + [x]) ==
      Labels(pages) + (if pages != [] && x != pages[|pages| - 1] + 1 then [Ellipsis] else []) + [Page(x)]
  {
    var all := pages + [x];
    var n := |pages|;
    assert all[..n] == pages && all[n] == x;
    var gap := if n > 0 && IsGap(all, n) then [Ellipsis] else [];
    assert Labels(all) == Labels(pages) + gap + [Page(x)];
    if n > 0 {
      assert all[n - 1] == pages[n - 1];
    }
  }

  /** Walks the pages once, appending an ellipsis before each gap and then
      the page itself. */
  method InsertDots(pages: seq<int>) returns (labels: seq<Label>)
    ensures labels == Labels(pages)
  {
    labels := [];
    for i := 0 to |pages|
      invariant labels == Labels(pages[..i])
    {
      if i > 0 {
        var previous := pages[i - 1];
        if pages[i] != previous + 1 {
          labels := labels + [Ellipsis];
        }
      }
      labels := labels + [Page(pages[i])];
      LabelsAppend(pages[..i], pages[i]);
      assert pages[..i] + [pages[i]] == pages[..i + 1];
    }
    assert pages[..|pages|] == pages;
  }

  /** The page numbers of a label sequence, in order, with the ellipses dropped. */
  function PageNumbers(labels: seq<Label>): seq<int>
    decreases |labels|
  {
    if labels == [] then []
    else
      var last := labels[|labels| - 1];
      PageNumbers(labels[..|labels| - 1]) + (if last.Page? then [last.number] else [])
  }

  /** One label per page for a run of pages, with no ellipsis. */
  function AsPages(pages: seq<int>): seq<Label>
  {
    seq(|pages|, i requires 0 <= i < |pages| => Page(pages[i]))
  }

  /** Dropping the ellipses gives back the input pages, in order. */
  lemma {:induction false} LabelsKeepPages(pages: seq<int>)
    ensures PageNumbers(Labels(pages)) == pages
    decreases |pages|
  {
    if pages != [] {
      var n := |pages| - 1;
      var init := pages[..n];
      assert pages == init + [pages[n]];
      LabelsKeepPages(init);
      PageNumbersSkipGap(Labels(init), if n > 0 && IsGap(pages, n) then [Ellipsis] else [], pages[n]);
    }
  }

  lemma PageNumbersAppend(labels: seq<Label>, last: Label)
    ensures PageNumbers(labels + [last]) ==
      PageNumbers(labels) + (if last.Page? then [last.number] else [])
  {
    assert (labels + [last])[..|labels|] == labels;
  }

  lemma PageNumbersSkipGap(labels: seq<Label>, gap: seq<Label>, page: int)
    requires gap == [] || gap == [Ellipsis]
    ensures PageNumbers(labels + gap + [Page(page)]) == PageNumbers(labels) + [page]
  {
    PageNumbersAppend(labels + gap, Page(page));
    if gap == [] {
      assert labels + gap == labels;
    } else {
      PageNumbersAppend(labels, Ellipsis);
    }
  }

  /** The last page is the last label, and the label before it is an
      ellipsis exactly when that page starts a gap. */
  lemma LabelsLastPage(pages: seq<int>)
    requires |pages| > 1
    ensures var labels := Labels(pages);
      var n := |pages| - 1;
      |labels| == n + Gaps(pages) + 1 && labels[|labels| - 1] == Page(pages[n]) &&
      (labels[|labels| - 2] == Ellipsis <==> IsGap(pages, n))
  {
    var n := |pages| - 1;
    var prefix := Labels(pages[..n]);
    var gap := if IsGap(pages, n) then [Ellipsis] else [];
    var labels := Labels(pages);
    assert labels == prefix + gap + [Page(pages[n])];
    assert labels[|labels| - 2] == if gap == [] then prefix[|prefix| - 1] else Ellipsis;
  }

  /** The labels of a prefix of the pages are a prefix of the labels. */
  lemma LabelsExtend(pages: seq<int>)
    requires |pages| > 0
    ensures Labels(pages[..|pages| - 1]) <= Labels(pages)
  {
  }

  /** Page `pages[i]` is the label at index `i + Gaps(pages[..i + 1])`, and the
      label just before it is an ellipsis exactly when `pages[i]` starts a gap. */
  lemma {:induction false} LabelsPlacePages(pages: seq<int>, i: int)
    requires 0 <= i < |pages|
    ensures var labels := Labels(pages);
      var k := i + Gaps(pages[..i + 1]);
      k < |labels| && labels[k] == Page(pages[i]) &&
      (0 < i ==> (labels[k - 1] == Ellipsis <==> IsGap(pages, i)))
    decreases |pages|
  {
    var n := |pages| - 1;
    if i == n {
      assert pages[..i + 1] == pages;
      if 0 < i {
        LabelsLastPage(pages);
      }
    } else {
      var init := pages[..n];
      var prefix := Labels(init);
      var labels := Labels(pages);
      LabelsPlacePages(init, i);
      LabelsExtend(pages);
      assert init[..i + 1] == pages[..i + 1];
      var k := i + Gaps(pages[..i + 1]);
      assert k < |prefix| && labels[k] == prefix[k];
      if 0 < i {
        assert labels[k - 1] == prefix[k - 1];
        assert IsGap(init, i) == IsGap(pages, i);
      }
    }
  }

  /** Every ellipsis stands right before a page that starts a gap: the page
      counted by the labels in front of it. */
  lemma {:induction false} LabelsEllipsisBeforeGap(pages: seq<int>, k: int)
    requires 0 <= k < |Labels(pages)| && Labels(pages)[k] == Ellipsis
    ensures var labels := Labels(pages);
      var i := |PageNumbers(labels[..k])|;
      0 < i < |pages| && k + 1 < |labels| && IsGap(pages, i) && labels[k + 1] == Page(pages[i])
    decreases |pages|
  {
    var n := |pages| - 1;
    var init := pages[..n];
    var prefix := Labels(init);
    var gap := if n > 0 && IsGap(pages, n) then [Ellipsis] else [];
    var labels := Labels(pages);
    assert labels == prefix + gap + [Page(pages[n])];
    if k < |prefix| {
      LabelsEllipsisBeforeGap(init, k);
      assert labels[..k] == prefix[..k];
      var i := |PageNumbers(prefix[..k])|;
      assert IsGap(init, i) == IsGap(pages, i);
    } else {
      assert k == |prefix| && gap == [Ellipsis];
      assert labels[..k] == prefix;
      LabelsKeepPages(init);
    }
  }

  /** Of any two neighbouring labels at least one is a page. */
  predicate NoAdjacentEllipses(labels: seq<Label>)
  {
    forall k :: 0 <= k < |labels| - 1 ==> labels[k].Page? || labels[k + 1].Page?
  }

  /** No two ellipses are ever adjacent. */
  lemma {:induction false} LabelsNoAdjacentEllipses(pages: seq<int>)
    ensures NoAdjacentEllipses(Labels(pages))
    decreases |pages|
  {
    if pages != [] {
      var n := |pages| - 1;
      var init := pages[..n];
      var prefix := Labels(init);
      var gap := if n > 0 && IsGap(pages, n) then [Ellipsis] else [];
      var labels := Labels(pages);
      assert labels == prefix + gap + [Page(pages[n])];
      LabelsNoAdjacentEllipses(init);
      forall k | 0 <= k < |labels| - 1
        ensures labels[k].Page? || labels[k + 1].Page?
      {
        if k + 1 < |prefix| {
          assert labels[k] == prefix[k] && labels[k + 1] == prefix[k + 1];
          assert prefix[k].Page? || prefix[k + 1].Page?;
        } else if k + 1 == |prefix| {
          assert init != [];
          assert labels[k] == prefix[|prefix| - 1] == Page(init[|init| - 1]);
        } else {
          assert labels[k + 1] == Page(pages[n]);
        }
      }
    }
  }

  /** A run of consecutive pages is labelled without any ellipsis. */
  lemma {:induction false} RunLabels(pages: seq<int>)
    requires IsRun(pages)
    ensures Labels(pages) == AsPages(pages)
    decreases |pages|
  {
    if pages != [] {
      var n := |pages| - 1;
      var init := pages[..n];
      assert IsRun(init);
      RunLabels(init);
      assert n > 0 ==> !IsGap(pages, n);
      assert Labels(pages) == AsPages(init) + [Page(pages[n])];
    }
  }

  // ---------------------------------------------------------------------------
  // The displayed page set

  /** The requests whose window overlaps `[1, total]`, so that clamping it
      slices within bounds. */
  predicate WindowFits(current: int, total: int, around: int)
  {
    0 <= around && 0 <= total && current - around <= total && 1 <= current + around
  }

  lemma ValidWindowFits(current: int, total: int, boundaries: int, around: int)
    requires ValidRequest(current, total, boundaries, around)
    ensures WindowFits(current, total, around)
  {
  }

  /** The window runs past the first or the last page. */
  predicate NeedsTrim(window: seq<int>, total: int)
    requires |window| > 0
  {
    window[0] < 1 || window[|window| - 1] > total
  }

  /** The pages within `around` of the current page, clamped to `[1, total]`;
      the raw window is trimmed only when it runs past either end. */
  function CurrentWindow(current: int, total: int, around: int): (r: seq<int>)
    requires WindowFits(current, total, around)
    ensures r == Range(Max(current - around, 1), Min(current + around, total) + 1)
  {
    var window := Range(current - around, current + around + 1);
    if NeedsTrim(window, total) then Trim(window, total) else window
  }

  /** The union of the leading boundary, the clamped window and the trailing
      boundary, sorted and without duplicates. */
  function DisplayPages(current: int, total: int, boundaries: int, around: int): (r: seq<int>)
    requires WindowFits(current, total, around)
    ensures StrictlyAscending(r)
    ensures forall p :: p in r <==>
      1 <= p <= boundaries ||
      Max(current - around, 1) <= p <= Min(current + around, total) ||
      total - boundaries + 1 <= p <= total
  {
    var leading := Range(1, boundaries + 1);
    var window := CurrentWindow(current, total, around);
    var trailing := Range(total - boundaries + 1, total + 1);
    SortedUnique(leading + window + trailing)
  }

  /** For a valid request the displayed pages lie in `[1, total]`, run from
      page 1 to page `total` and include the current page. */
  lemma DisplayPagesBounds(current: int, total: int, boundaries: int, around: int)
    requires ValidRequest(current, total, boundaries, around)
    ensures var pages := DisplayPages(current, total, boundaries, around);
      |pages| > 0 && pages[0] == 1 && pages[|pages| - 1] == total &&
      current in pages && forall p :: p in pages ==> 1 <= p <= total
  {
    var pages := DisplayPages(current, total, boundaries, around);
    var lo, hi := Max(current - around, 1), Min(current + around, total);
    assert 1 <= lo <= current <= hi <= total;
    assert 1 in pages && total in pages && current in pages;
    forall p | p in pages
      ensures 1 <= p <= total
    {
      assert 1 <= p <= boundaries || lo <= p <= hi || total - boundaries + 1 <= p <= total;
    }
    AscendingEnds(pages, 1, total);
  }

  /** When the boundaries or the window cover every page, the bar is every
      page from 1 to `total` with no ellipsis. */
  lemma FullRange(current: int, total: int, boundaries: int, around: int)
    requires ValidRequest(current, total, boundaries, around)
    requires boundaries == total || (current - around <= 1 && total <= current + around)
    ensures DisplayPages(current, total, boundaries, around) == Range(1, total + 1)
    ensures Labels(DisplayPages(current, total, boundaries, around)) == AsPages(Range(1, total + 1))
  {
    var pages := DisplayPages(current, total, boundaries, around);
    var all := Range(1, total + 1);
    RangeIsRun(1, total + 1);
    forall p ensures p in pages <==> p in all {
    }
    AscendingUnique(pages, all);
    RunLabels(all);
  }

  /** The labels of a valid request start with page 1, end with page `total`,
      never hold two ellipses in a row, and carry exactly the displayed pages. */
  lemma BarWellFormed(current: int, total: int, boundaries: int, around: int)
    requires ValidRequest(current, total, boundaries, around)
    ensures var labels := Labels(DisplayPages(current, total, boundaries, around));
      |labels| > 0 && labels[0] == Page(1) && labels[|labels| - 1] == Page(total) &&
      NoAdjacentEllipses(labels) &&
      PageNumbers(labels) == DisplayPages(current, total, boundaries, around)
  {
    var pages := DisplayPages(current, total, boundaries, around);
    DisplayPagesBounds(current, total, boundaries, around);
    LabelsEnds(pages);
    LabelsNoAdjacentEllipses(pages);
    LabelsKeepPages(pages);
  }

  // ---------------------------------------------------------------------------
  // Rendering and orchestration

  /** A label as printed: the decimal page number or `...`. */
  function Token(slot: Label): (s: string)
    ensures |s| > 0 && ' ' !in s
  {
    match slot
    case Page(n) => Render.Decimal(n)
    case Ellipsis => "..."
  }

  function Tokens(labels: seq<Label>): seq<string>
  {
    seq(|labels|, i requires 0 <= i < |labels| => Token(labels[i]))
  }

  /** The printed line: the tokens joined by single spaces. */
  function Line(labels: seq<Label>): (r: string)
    ensures |labels| > 0 ==> Token(labels[0]) <= r
  {
    Render.Join(Tokens(labels))
  }

  /** Reads a token back into a label. */
  function ParseToken(s: string): Label
  {
    if s == "..." then Ellipsis else Page(Render.ParseDecimal(s))
  }

  function ParseLine(line: string): seq<Label>
  {
    var tokens := Render.Split(line);
    seq(|tokens|, i requires 0 <= i < |tokens| => ParseToken(tokens[i]))
  }

  /** Parsing the token of a label gives the label back. */
  lemma TokenRoundTrip(slot: Label)
    ensures ParseToken(Token(slot)) == slot
  {
    if slot.Page? {
      var s := Render.Decimal(slot.number);
      Render.DecimalRoundTrip(slot.number);
      assert s != "..." by {
        assert Render.IsDigit(s[|s| - 1]);
      }
    }
  }

  /** The printed line of a non-empty bar determines its labels. */
  lemma LineRoundTrip(labels: seq<Label>)
    requires |labels| > 0
    ensures ParseLine(Line(labels)) == labels
  {
    var tokens := Tokens(labels);
    Render.SplitJoin(tokens);
    forall i | 0 <= i < |labels|
      ensures ParseToken(tokens[i]) == labels[i]
    {
      TokenRoundTrip(labels[i]);
    }
  }

  /** Computes the displayed pages, labels them and renders the line that
      is printed. */
  method CalculateRangeOfPages(current: int, total: int, boundaries: int, around: int)
    returns (line: string)
    requires WindowFits(current, total, around)
    ensures line == Line(Labels(DisplayPages(current, total, boundaries, around)))
  {
    var pages := DisplayPages(current, total, boundaries, around);
    var labels := InsertDots(pages);
    line := Line(labels);
  }

  /** The entry point: rejects anything but four inputs, then validates, and
      only for a valid request computes the line. */
  method GeneratePagination(data: seq<int>) returns (r: Result<string>)
    ensures |data| != 4 ==> r == Err(ArityError)
    ensures |data| == 4 ==> (r.Ok? <==> ValidRequest(data[0], data[1], data[2], data[3]))
    ensures |data| == 4 && r.Err? ==> Validate(data[0], data[1], data[2], data[3]) == Fail(r.error)
    ensures r.Ok? ==>
      |data| == 4 && ValidRequest(data[0], data[1], data[2], data[3]) &&
      r.value == Line(Labels(DisplayPages(data[0], data[1], data[2], data[3])))
  {
    if |data| != 4 {
      return Err(ArityError);
    }
    var current, total, boundaries, around := data[0], data[1], data[2], data[3];
    var outcome := Validate(current, total, boundaries, around);
    if outcome.Fail? {
      return Err(outcome.error);
    }
    ValidWindowFits(current, total, boundaries, around);
    var line := CalculateRangeOfPages(current, total, boundaries, around);
    return Ok(line);
  }
}
