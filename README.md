# Pagination bar, modelled in Dafny

The modelled program builds the pagination bar of a web page. It takes four
inputs: the current page, the total number of pages, the number of boundary
pages shown at each end, and the number of pages shown around the current page.
From them it builds a line such as `1 ... 3 4 5 6 7 ... 10`. The work happens in
four steps:

- **Validation** (`validate_input_data`) is an ordered chain of checks, each
  with its own error.
- **Clamping** (`trim_pages`) slices the window around the current page down to
  `[1, total]`.
- **Union** (`calculate_range_of_pages`) merges the leading boundary, the window
  and the trailing boundary, then sorts the result and drops duplicates.
- **Labelling** (`create_string_values_and_insert_dots`) emits the page numbers
  and puts `...` in front of every page that does not follow on from the page
  before it.

The entry point `generate_pagination` first checks that it got exactly four
inputs. It then validates them and, only if they are valid, prints the line.

The project has four modules:

- `runs.dfy` (`Runs`): Python's `range(lo, hi)` (`Range`) and `sorted(set(xs))`
  (`SortedUnique`, by insertion into a strictly ascending sequence).
  `AscendingUnique` proves that a strictly ascending sequence is determined by the
  values it holds, so the model's sort agrees with any other sort.
- `render.dfy` (`Render`): `str` on integers (`Decimal`) and `" ".join` (`Join`).
  Each has a parser (`ParseDecimal`, `Split`) and a proved round trip.
- `pagination.dfy` (`Pagination`): the core. Errors are values of a `Result`
  type instead of exceptions. A label is `Page(n)` or `Ellipsis`, and `Token`
  renders it as `str(n)` or `"..."`.
  - The labelling loop is the method `InsertDots`, proved equal to the recursive
    specification `Labels`.
  - The union of pages is the function `DisplayPages`.
  - `CalculateRangeOfPages` and `GeneratePagination` are methods that call
    `InsertDots`.
- `scenarios.dfy` (`Scenarios`): the input/output pairs of `tests.py`, stated as
  lemmas about the model.

Points where the code's behaviour is easy to misread:

- `validate_input_data` rejects only a window that overflows both ends at once
  (pagination.py:11-12). `trim_pages` still clips both ends in one call, and its
  test (`tests.py:84-86`) uses exactly that case. `Trim` applies the two slices
  in sequence.
- `calculate_range_of_pages` prints the line and returns `None`.
  `CalculateRangeOfPages` returns the line instead.
- Validation rejects `boundaries > total`, so `FullRange` covers
  `boundaries == total` as the case where the boundaries alone show every page.

## Model

| member | source | states |
|---|---|---|
| Pagination.Validate | pagination.py:1-12 | Accepts exactly the requests where `1 <= current <= total`, `1 <= boundaries <= total`, `around >= 0` and the window does not overflow on both sides at once. Otherwise it reports the first failing check, in the order positive, non-negative, out of range, around exceeds total. Every earlier check passed and the reported one failed; the arity error never comes from here. |
| Pagination.Trim | pagination.py:15-22 | For a non-empty run `lo..hi` with `lo <= total`, `hi >= 1` and `total >= 0`, the result is exactly `max(lo,1)..min(hi,total)`. A run already inside `[1, total]` comes back unchanged. |
| Pagination.TrimIsSlice | pagination.py:16-22 | The trimmed run is a contiguous slice of the input that starts at offset `max(1 - lo, 0)`. |
| Pagination.Labels | pagination.py:28-33 | The labelling specification. The output length is the number of pages plus the number of gaps. |
| Pagination.LabelsEnds | pagination.py:28-33 | For non-empty input the first label is the first page and the last label is the last page. |
| Pagination.LabelsAppend | pagination.py:28-33 | Appending a page to the input appends `Page(x)` to the labels, preceded by `Ellipsis` exactly when the list was non-empty and `x` is not the previous page plus one. This is one iteration of the loop, and `InsertDots` uses it to keep its invariant. |
| Pagination.InsertDots | pagination.py:25-35 | The loop that appends an ellipsis before each gap and then the page returns exactly `Labels(pages)`; empty input gives empty output. |
| Pagination.LabelsKeepPages | pagination.py:28-33 | Deleting every ellipsis from the labels gives back the input pages, in order, one label per page. |
| Pagination.LabelsLastPage | pagination.py:29-33 | For two or more pages the last label is the last page. The label before it is an ellipsis if and only if the last page does not follow on from the one before it. |
| Pagination.LabelsPlacePages | pagination.py:29-33 | `pages[i]` is labelled at index `i + Gaps(pages[..i+1])`. For `i > 0` the label just before it is an ellipsis if and only if `pages[i] != pages[i-1] + 1`. |
| Pagination.LabelsEllipsisBeforeGap | pagination.py:29-32 | Every ellipsis is directly followed by the label of `pages[i]`, where `i` is the number of pages labelled before it. For that `i`, `0 < i` and `pages[i]` starts a gap, so no ellipsis leads or trails the bar. |
| Pagination.LabelsNoAdjacentEllipses | pagination.py:28-33 | No two neighbouring labels are both ellipses. |
| Pagination.RunLabels | pagination.py:29-33 | A run of consecutive pages is labelled one page per label, with no ellipsis. |
| Pagination.CurrentWindow | pagination.py:40-43 | The window `current-around..current+around`, trimmed only when it runs past page 1 or past `total`, is exactly `max(current-around,1)..min(current+around,total)`. |
| Pagination.DisplayPages | pagination.py:39-46 | The page list is strictly ascending, which means sorted and duplicate-free. A page is in it if and only if it lies in `1..boundaries`, in the clamped window, or in `total-boundaries+1..total`. |
| Pagination.DisplayPagesBounds | pagination.py:39-46 | For a valid request every displayed page lies in `[1, total]`, the list starts with page 1 and ends with page `total`, and it contains the current page. |
| Pagination.FullRange | pagination.py:39-47 | For a valid request where `boundaries == total`, or where the window reaches both ends, the pages are all of `1..total` and no label is an ellipsis. |
| Pagination.BarWellFormed | pagination.py:39-47 | For a valid request the labels start with `Page(1)` and end with `Page(total)`. No two ellipses are adjacent. Dropping the ellipses gives exactly the displayed pages. |
| Pagination.Token | pagination.py:32-33 | A page renders as a non-empty decimal string without spaces, and a gap as `...`. |
| Pagination.TokenRoundTrip | pagination.py:32-33 | Parsing the token printed for a label gives that label back, so `str(page)` can never be mistaken for `...`. |
| Pagination.Line | pagination.py:47-49 | The printed line is the space-join of the tokens, one per label in order. It starts with the token of the first label; `LineRoundTrip` shows that it determines the labels. |
| Pagination.LineRoundTrip | pagination.py:49 | For a non-empty bar, splitting the printed line at spaces and parsing each token gives back the labels, so the line determines the bar. |
| Pagination.CalculateRangeOfPages | pagination.py:38-49 | Returns the line that is printed, which is the space-join of the rendered `Labels(DisplayPages(...))`. It is computed through the labelling loop. |
| Pagination.GeneratePagination | pagination.py:52-58 | Anything but exactly four inputs fails with the arity error, before validation. Otherwise the call succeeds if and only if the request is valid. A failure carries the validation error, and a success carries the line for the validated request. |
| Runs.Range | pagination.py:39-40 | `range(lo, hi)` has `max(hi - lo, 0)` elements; element `i` is `lo + i`, and `p` is in it if and only if `lo <= p < hi`. |
| Runs.Insert | pagination.py:46 | Inserting into a strictly ascending list keeps it strictly ascending and adds exactly the new value. |
| Runs.SortedUnique | pagination.py:46 | `sorted(set(xs))` is strictly ascending and holds exactly the values of `xs`. |
| Runs.AscendingUnique | pagination.py:46 | Two strictly ascending lists with the same values are equal, so the sorted set is unique. |
| Render.Decimal | pagination.py:33 | `str(n)` is non-empty, has no space and ends in a digit. |
| Render.DecimalRoundTrip | pagination.py:33 | Parsing `str(n)` gives `n` back for every integer. |
| Render.Join | pagination.py:49 | `" ".join(tokens)`: the first token leads the line; `SplitJoin` is its inverse. |
| Render.SplitJoin | pagination.py:49 | Splitting `" ".join(tokens)` at spaces gives the tokens back, for a non-empty list of tokens without spaces. |
| Scenarios.ValidationScenarios | tests.py:17-71 | Each invalid-input test is rejected with the error of the check responsible for it, e.g. `(1,5,1,5)` by the around-exceeds-total check. |
| Scenarios.TrimBelowOne | tests.py:76-78 | `trim_pages([-2..3], 10) == [1, 2, 3]`. |
| Scenarios.TrimAboveTotal | tests.py:80-82 | `trim_pages([8..12], 10) == [8, 9, 10]`. |
| Scenarios.TrimBothEnds | tests.py:84-86 | `trim_pages([0..8], 7) == [1..7]`, with both branches firing. |
| Scenarios.TrimWithinBounds | tests.py:88-90 | A run inside the bounds is returned unchanged. |
| Scenarios.LabelsWithoutGap | tests.py:95-97 | `[1..5]` gives five page labels. |
| Scenarios.LabelsWithOneGap | tests.py:99-101 | `[1,2,3,5,6]` gives `1 2 3 ... 5 6`. |
| Scenarios.LabelsWithTwoGaps | tests.py:103-105 | `[1,2,4,7,8]` gives `1 2 ... 4 ... 7 8`. |
| Scenarios.LabelsOfOneOrNoPage | tests.py:107-113 | `[1]` gives `1`, and the empty list gives nothing. |
| Scenarios.LabelsFirstGap | tests.py:115-117 | `[1,3,4,5]` gives `1 ... 3 4 5`. |
| Scenarios.LabelsLastGap | tests.py:119-121 | `[1,2,3,4,6]` gives `1 2 3 4 ... 6`. |
| Scenarios.TwoGapsPages | tests.py:132-135 | `(5,10,1,2)` shows pages `1,3,4,5,6,7,10`. |
| Scenarios.TwoGapsLabels | tests.py:132-135 | Those pages are labelled `1 ... 3 4 5 6 7 ... 10`. |
| Scenarios.TwoGapsTokens | tests.py:132-135 | Those labels render as the tokens `1`, `...`, `3` … `10`. |
| Scenarios.TwoGaps | tests.py:132-135 | `calculate_range_of_pages(5, 10, 1, 2)` prints the space-join of the tokens `1`, `...`, `3`, `4`, `5`, `6`, `7`, `...`, `10`, which is `"1 ... 3 4 5 6 7 ... 10"`. |
| Scenarios.FullBoundaries | tests.py:137-140 | `(5,10,10,1)` shows every page `1..10`. |
| Scenarios.NearStartPages | tests.py:142-145 | `(2,10,2,1)` shows pages `1,2,3,9,10`. |
| Scenarios.NearStartLabels | tests.py:142-145 | They are labelled `1 2 3 ... 9 10`. |
| Scenarios.NearEndPages | tests.py:147-150 | `(9,10,2,1)` shows pages `1,2,8,9,10`. |
| Scenarios.NearEndLabels | tests.py:147-150 | They are labelled `1 2 ... 8 9 10`. |
| Scenarios.LargeAround | tests.py:152-155 | `(5,10,1,5)` shows every page `1..10`. |
| Scenarios.ZeroAroundPages | tests.py:157-160 | `(5,10,1,0)` shows pages `1,5,10`. |
| Scenarios.ZeroAroundLabels | tests.py:157-160 | They are labelled `1 ... 5 ... 10`. |
| Scenarios.CurrentIsLastPages | tests.py:162-165 | `(10,10,2,1)` shows pages `1,2,9,10`. |
| Scenarios.CurrentIsLastLabels | tests.py:162-165 | They are labelled `1 2 ... 9 10`. |
| Scenarios.CurrentIsFirstPages | tests.py:167-170 | `(1,10,1,1)` shows pages `1,2,10`, after the low clamp. |
| Scenarios.CurrentIsFirstLabels | tests.py:167-170 | They are labelled `1 2 ... 10`. |
| Scenarios.CurrentIsFirstTokens | tests.py:167-170 | Those labels render as the tokens `1`, `2`, `...`, `10`. |
| Scenarios.CurrentIsFirstJoin | tests.py:167-170 | Those tokens join into `"1 2 ... 10"`. |
| Scenarios.CurrentIsFirstLine | tests.py:167-170 | Those labels print as `"1 2 ... 10"`. |
| Scenarios.CurrentIsFirst | tests.py:167-170 | `calculate_range_of_pages(1, 10, 1, 1)` prints `"1 2 ... 10"`. |
| Scenarios.SinglePagePages | tests.py:172-175 | `(1,1,1,0)` shows the single page `1`. |
| Scenarios.SinglePageTokens | tests.py:172-175 | The label of page 1 renders as the token `1`. |
| Scenarios.SinglePageJoin | tests.py:172-175 | That token alone joins into `"1"`. |
| Scenarios.SinglePageLine | tests.py:172-175 | The label of page 1 prints as `"1"`. |
| Scenarios.SinglePage | tests.py:172-175 | `calculate_range_of_pages(1, 1, 1, 0)` prints `"1"`. |
| Scenarios.GenerateScenarios | tests.py:178-193 | Three, five and zero arguments fail with the arity error. `(1,5,1,5)` fails validation with the around-exceeds-total error. The demo call `(7,50,1,2)` of pagination.py:62 succeeds with the line for those inputs. |
| Scenarios.TrimInvocation | tests.py:210-218 | The window for `(1,10,1,1)` needs trimming, and the window for `(5,10,1,2)` does not. |

## Left out

- The `isinstance(value, int)` checks (pagination.py:2 and 5), Python's treatment of `bool` as `int`, and the string-argument tests. Dafny's `int` parameters make them vacuous.
- The English error messages. Each `ValueError` is represented by its error kind.
- The `print` at pagination.py:49 is output. `CalculateRangeOfPages` returns the line that would be printed.
- The `__main__` guard (pagination.py:61). Only the demo call is kept, in `Scenarios.GenerateScenarios`, which shows that it succeeds with the line for its inputs.
- Scenarios.TwoGaps: states the printed line as the space-join of the exact token list rather than as one string literal. `Join` is evaluated elsewhere only for the shorter bars (`Scenarios.CurrentIsFirst`, `Scenarios.SinglePage`), and `Render.SplitJoin` covers it in general.
- `InsertDots` returns `Label` values rather than Python strings. The strings are `Tokens` of those labels.
- Trim: requires a non-empty run with `lo <= total`, `hi >= 1` and `total >= 0`. For other lists Python's slicing with negative or out-of-range bounds, or `pages[-1]` on an emptied list, is not modelled.
- DisplayPages: requires `around >= 0` and a window that overlaps `[1, total]`. With a negative `around` the window is empty and `calculate_range_of_pages` fails on `[0]` at pagination.py:42. A window wholly above `total` is sliced at pagination.py:20 with the end bound `total - lo + 1`. When `lo == total + 1` that bound is zero and empties the window. When it is a negative `-k`, the slice drops only the last `k` pages, so pages above `total` can be displayed (for `(15, 10, 1, 3)` the pages `12..17` stay). A window wholly below page 1 is emptied by the first slice at pagination.py:17, and `pages[-1]` at pagination.py:19 then raises `IndexError`. None of these behaviours is modelled, and validation excludes all of them.
- CalculateRangeOfPages: carries the same requirement as `DisplayPages`, for the same reason.
- The mock-based tests (tests.py:196-218) count calls. Only their behavioural content is kept: whether the window needs trimming (`Scenarios.TrimInvocation`) and that validation runs before computing (`GeneratePagination`).
