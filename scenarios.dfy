/** The concrete cases that the repository's unit tests check, stated against the model. */
module Scenarios {
  import opened Runs
  import opened Pagination
  import Render

  /** Each kind of bad input is rejected by the check responsible for it. */
  lemma ValidationScenarios()
    ensures Validate(-1, 10, 1, 0) == Fail(InvalidPositiveInteger)
    ensures Validate(0, 10, 1, 0) == Fail(InvalidPositiveInteger)
    ensures Validate(1, -10, 1, 0) == Fail(InvalidPositiveInteger)
    ensures Validate(1, 0, 1, 0) == Fail(InvalidPositiveInteger)
    ensures Validate(1, 10, -1, 0) == Fail(InvalidPositiveInteger)
    ensures Validate(1, 10, 0, 0) == Fail(InvalidPositiveInteger)
    ensures Validate(1, 10, 1, -1) == Fail(InvalidNonNegativeInteger)
    ensures Validate(1, 5, 6, 2) == Fail(OutOfRange)
    ensures Validate(6, 5, 1, 2) == Fail(OutOfRange)
    ensures Validate(1, 5, 1, 5) == Fail(AroundExceedsTotal)
  {
  }

  lemma TrimBelowOne()
    ensures Trim([-2, -1, 0, 1, 2, 3], 10) == [1, 2, 3]
  {
    assert IsRun([-2, -1, 0, 1, 2, 3]);
    assert Range(1, 4) == [1, 2, 3];
  }

  lemma TrimAboveTotal()
    ensures Trim([8, 9, 10, 11, 12], 10) == [8, 9, 10]
  {
    assert IsRun([8, 9, 10, 11, 12]);
    assert Range(8, 11) == [8, 9, 10];
  }

  lemma TrimBothEnds()
    ensures Trim([0, 1, 2, 3, 4, 5, 6, 7, 8], 7) == [1, 2, 3, 4, 5, 6, 7]
  {
    assert IsRun([0, 1, 2, 3, 4, 5, 6, 7, 8]);
    assert Range(1, 8) == [1, 2, 3, 4, 5, 6, 7];
  }

  lemma TrimWithinBounds()
    ensures Trim([1, 2, 3, 4, 5], 5) == [1, 2, 3, 4, 5]
  {
    assert IsRun([1, 2, 3, 4, 5]);
  }

  lemma LabelsWithoutGap()
    ensures Labels([1, 2, 3, 4, 5]) == [Page(1), Page(2), Page(3), Page(4), Page(5)]
  {
    assert IsRun([1, 2, 3, 4, 5]);
    RunLabels([1, 2, 3, 4, 5]);
  }

  /** One gap. */
  lemma LabelsWithOneGap()
    ensures Labels([1, 2, 3, 5, 6]) == [Page(1), Page(2), Page(3), Ellipsis, Page(5), Page(6)]
  {
    assert [1, 2, 3, 5, 6][..4] == [1, 2, 3, 5];
    assert [1, 2, 3, 5][..3] == [1, 2, 3];
    assert [1, 2, 3][..2] == [1, 2];
    assert [1, 2][..1] == [1];
  }

  /** Two gaps. */
  lemma LabelsWithTwoGaps()
    ensures Labels([1, 2, 4, 7, 8]) == [Page(1), Page(2), Ellipsis, Page(4), Ellipsis, Page(7), Page(8)]
  {
    assert [1, 2, 4, 7, 8][..4] == [1, 2, 4, 7];
    assert [1, 2, 4, 7][..3] == [1, 2, 4];
    assert [1, 2, 4][..2] == [1, 2];
    assert [1, 2][..1] == [1];
  }

  lemma LabelsOfOneOrNoPage()
    ensures Labels([1]) == [Page(1)]
    ensures Labels([]) == []
  {
  }

  /** A gap right after the first page. */
  lemma LabelsFirstGap()
    ensures Labels([1, 3, 4, 5]) == [Page(1), Ellipsis, Page(3), Page(4), Page(5)]
  {
    assert [1, 3, 4, 5][..3] == [1, 3, 4];
    assert [1, 3, 4][..2] == [1, 3];
    assert [1, 3][..1] == [1];
  }

  /** A gap right before the last page. */
  lemma LabelsLastGap()
    ensures Labels([1, 2, 3, 4, 6]) == [Page(1), Page(2), Page(3), Page(4), Ellipsis, Page(6)]
  {
    assert [1, 2, 3, 4, 6][..4] == [1, 2, 3, 4];
    assert [1, 2, 3, 4][..3] == [1, 2, 3];
    assert [1, 2, 3][..2] == [1, 2];
    assert [1, 2][..1] == [1];
  }

  /** A join of several tokens is the first token, a space and the join of the rest. */
  lemma JoinCons(t: string, ts: seq<string>)
    requires |ts| > 0
    ensures Render.Join([t] + ts) == t + " " + Render.Join(ts)
  {
    assert ([t] + ts)[1..] == ts;
  }

  lemma TwoGapsPages()
    ensures DisplayPages(5, 10, 1, 2) == [1, 3, 4, 5, 6, 7, 10]
  {
    assert StrictlyAscending([1, 3, 4, 5, 6, 7, 10]);
    AscendingUnique(DisplayPages(5, 10, 1, 2), [1, 3, 4, 5, 6, 7, 10]);
  }

  /** The labels of the pages shown for (5, 10, 1, 2). */
  lemma TwoGapsLabels()
    ensures Labels([1, 3, 4, 5, 6, 7, 10]) == [Page(1), Ellipsis, Page(3), Page(4), Page(5), Page(6), Page(7), Ellipsis, Page(10)]
  {
    assert [1, 3, 4, 5, 6, 7, 10][..6] == [1, 3, 4, 5, 6, 7];
    assert [1, 3, 4, 5, 6, 7][..5] == [1, 3, 4, 5, 6];
    assert [1, 3, 4, 5, 6][..4] == [1, 3, 4, 5];
    assert [1, 3, 4, 5][..3] == [1, 3, 4];
    assert [1, 3, 4][..2] == [1, 3];
    assert [1, 3][..1] == [1];
  }

  lemma TwoGapsTokens()
    ensures Tokens([Page(1), Ellipsis, Page(3), Page(4), Page(5), Page(6), Page(7), Ellipsis, Page(10)]) ==
      ["1", "...", "3", "4", "5", "6", "7", "...", "10"]
  {
    assert Render.Decimal(10) == "10" by {
      assert Render.Digits(10) == Render.Digits(1) + [Render.DigitChar(0)];
    }
  }

  /** calculate_range_of_pages(5, 10, 1, 2) prints `1 ... 3 4 5 6 7 ... 10`: these tokens joined by single spaces. */
  lemma TwoGaps()
    ensures Line(Labels(DisplayPages(5, 10, 1, 2))) == Render.Join(["1", "...", "3", "4", "5", "6", "7", "...", "10"])
  {
    TwoGapsPages();
    TwoGapsLabels();
    TwoGapsTokens();
  }

  lemma NearStartPages()
    ensures DisplayPages(2, 10, 2, 1) == [1, 2, 3, 9, 10]
  {
    assert StrictlyAscending([1, 2, 3, 9, 10]);
    AscendingUnique(DisplayPages(2, 10, 2, 1), [1, 2, 3, 9, 10]);
  }

  /** The labels of the pages shown for (2, 10, 2, 1). */
  lemma NearStartLabels()
    ensures Labels([1, 2, 3, 9, 10]) == [Page(1), Page(2), Page(3), Ellipsis, Page(9), Page(10)]
  {
    assert [1, 2, 3, 9, 10][..4] == [1, 2, 3, 9];
    assert [1, 2, 3, 9][..3] == [1, 2, 3];
    assert [1, 2, 3][..2] == [1, 2];
    assert [1, 2][..1] == [1];
  }

  lemma NearEndPages()
    ensures DisplayPages(9, 10, 2, 1) == [1, 2, 8, 9, 10]
  {
    assert StrictlyAscending([1, 2, 8, 9, 10]);
    AscendingUnique(DisplayPages(9, 10, 2, 1), [1, 2, 8, 9, 10]);
  }

  /** The labels of the pages shown for (9, 10, 2, 1). */
  lemma NearEndLabels()
    ensures Labels([1, 2, 8, 9, 10]) == [Page(1), Page(2), Ellipsis, Page(8), Page(9), Page(10)]
  {
    assert [1, 2, 8, 9, 10][..4] == [1, 2, 8, 9];
    assert [1, 2, 8, 9][..3] == [1, 2, 8];
    assert [1, 2, 8][..2] == [1, 2];
    assert [1, 2][..1] == [1];
  }

  lemma ZeroAroundPages()
    ensures DisplayPages(5, 10, 1, 0) == [1, 5, 10]
  {
    assert StrictlyAscending([1, 5, 10]);
    AscendingUnique(DisplayPages(5, 10, 1, 0), [1, 5, 10]);
  }

  /** The labels of the pages shown for (5, 10, 1, 0). */
  lemma ZeroAroundLabels()
    ensures Labels([1, 5, 10]) == [Page(1), Ellipsis, Page(5), Ellipsis, Page(10)]
  {
    assert [1, 5, 10][..2] == [1, 5];
    assert [1, 5][..1] == [1];
  }

  lemma CurrentIsLastPages()
    ensures DisplayPages(10, 10, 2, 1) == [1, 2, 9, 10]
  {
    assert StrictlyAscending([1, 2, 9, 10]);
    AscendingUnique(DisplayPages(10, 10, 2, 1), [1, 2, 9, 10]);
  }

  /** The labels of the pages shown for (10, 10, 2, 1). */
  lemma CurrentIsLastLabels()
    ensures Labels([1, 2, 9, 10]) == [Page(1), Page(2), Ellipsis, Page(9), Page(10)]
  {
    assert [1, 2, 9, 10][..3] == [1, 2, 9];
    assert [1, 2, 9][..2] == [1, 2];
    assert [1, 2][..1] == [1];
  }

  lemma CurrentIsFirstPages()
    ensures DisplayPages(1, 10, 1, 1) == [1, 2, 10]
  {
    assert StrictlyAscending([1, 2, 10]);
    AscendingUnique(DisplayPages(1, 10, 1, 1), [1, 2, 10]);
  }

  /** The labels of the pages shown for (1, 10, 1, 1). */
  lemma CurrentIsFirstLabels()
    ensures Labels([1, 2, 10]) == [Page(1), Page(2), Ellipsis, Page(10)]
  {
    assert [1, 2, 10][..2] == [1, 2];
    assert [1, 2][..1] == [1];
  }

  lemma CurrentIsFirstTokens()
    ensures Tokens([Page(1), Page(2), Ellipsis, Page(10)]) ==
      ["1", "2", "...", "10"]
  {
    assert Render.Decimal(10) == "10" by {
      assert Render.Digits(10) == Render.Digits(1) + [Render.DigitChar(0)];
    }
  }

  lemma CurrentIsFirstJoin()
    ensures Render.Join(["1", "2", "...", "10"]) == "1 2 ... 10"
  {
    assert Render.Join(["...", "10"]) == "... 10" by {
      JoinCons("...", ["10"]);
    }
    assert Render.Join(["2", "...", "10"]) == "2 ... 10" by {
      JoinCons("2", ["...", "10"]);
    }
    assert Render.Join(["1", "2", "...", "10"]) == "1 2 ... 10" by {
      JoinCons("1", ["2", "...", "10"]);
    }
  }

  /** `1 2 ... 10` */
  lemma CurrentIsFirstLine()
    ensures Line([Page(1), Page(2), Ellipsis, Page(10)]) == "1 2 ... 10"
  {
    CurrentIsFirstTokens();
    CurrentIsFirstJoin();
  }

  /** calculate_range_of_pages(1, 10, 1, 1) prints `1 2 ... 10`. */
  lemma CurrentIsFirst()
    ensures Line(Labels(DisplayPages(1, 10, 1, 1))) == "1 2 ... 10"
  {
    CurrentIsFirstPages();
    CurrentIsFirstLabels();
    CurrentIsFirstLine();
  }

  lemma SinglePagePages()
    ensures DisplayPages(1, 1, 1, 0) == [1]
  {
    assert StrictlyAscending([1]);
    AscendingUnique(DisplayPages(1, 1, 1, 0), [1]);
  }

  lemma SinglePageTokens()
    ensures Tokens([Page(1)]) ==
      ["1"]
  {

  }

  lemma SinglePageJoin()
    ensures Render.Join(["1"]) == "1"
  {

  }

  /** `1` */
  lemma SinglePageLine()
    ensures Line([Page(1)]) == "1"
  {
    SinglePageTokens();
    SinglePageJoin();
  }

  /** calculate_range_of_pages(1, 1, 1, 0) prints `1`. */
  lemma SinglePage()
    ensures Line(Labels(DisplayPages(1, 1, 1, 0))) == "1"
  {
    SinglePagePages();
    SinglePageLine();
  }

  lemma RangeOneToTen()
    ensures Range(1, 11) == [1, 2, 3, 4, 5, 6, 7, 8, 9, 10]
  {
  }

  /** A boundary count equal to the page count shows all ten pages. */
  lemma FullBoundaries()
    ensures DisplayPages(5, 10, 10, 1) == [1, 2, 3, 4, 5, 6, 7, 8, 9, 10]
  {
    FullRange(5, 10, 10, 1);
    RangeOneToTen();
  }

  /** A window reaching both ends shows all ten pages. */
  lemma LargeAround()
    ensures DisplayPages(5, 10, 1, 5) == [1, 2, 3, 4, 5, 6, 7, 8, 9, 10]
  {
    FullRange(5, 10, 1, 5);
    RangeOneToTen();
  }

  /** The window around page 1 of 10 runs below page 1 and is trimmed; the
      window around page 5 of 10 with radius 2 is used as it is. */
  lemma TrimInvocation()
    ensures NeedsTrim(Range(1 - 1, 1 + 1 + 1), 10)
    ensures !NeedsTrim(Range(5 - 2, 5 + 2 + 1), 10)
  {
  }

  /** The entry point on the argument counts the tests try, on a request that
      validation rejects, and on the demo call. */
  method GenerateScenarios() returns (tooFew: Result<string>, tooMany: Result<string>,
                                      none: Result<string>, rejected: Result<string>,
                                      demo: Result<string>)
    ensures tooFew == Err(ArityError) && tooMany == Err(ArityError) && none == Err(ArityError)
    ensures rejected == Err(AroundExceedsTotal)
    ensures demo == Ok(Line(Labels(DisplayPages(7, 50, 1, 2))))
  {
    tooFew := GeneratePagination([1, 10, 1]);
    tooMany := GeneratePagination([1, 10, 1, 1, 5]);
    none := GeneratePagination([]);
    rejected := GeneratePagination([1, 5, 1, 5]);
    demo := GeneratePagination([7, 50, 1, 2]);
  }
}
