/** The progress bar above the questionnaire: the overall share of questions
    reached, and how each of the nine marketing squares is styled. */
module ProgressBar {
  import opened Wrappers
  import opened Lists

  /** The share of the questionnaire reached, in percent, when the question
      at (zero-based) position `currentQuestion` of `totalQuestions` is shown. */
  function ProgressPercentage(currentQuestion: int, totalQuestions: int): (r: real)
    requires totalQuestions > 0
    ensures 0 <= currentQuestion < totalQuestions ==> 0.0 < r <= 100.0
  {
    var ratio := (currentQuestion + 1) as real / totalQuestions as real;
    assert ratio * totalQuestions as real == (currentQuestion + 1) as real;
    ratio * 100.0
  }

  /** The bar is full exactly at the last question. */
  lemma ProgressFullIffLast(currentQuestion: int, totalQuestions: int)
    requires totalQuestions > 0
    ensures ProgressPercentage(currentQuestion, totalQuestions) == 100.0 <==> currentQuestion == totalQuestions - 1
  {
    var ratio := (currentQuestion + 1) as real / totalQuestions as real;
    assert ratio * totalQuestions as real == (currentQuestion + 1) as real;
    if ratio * 100.0 == 100.0 {
      assert ratio == 1.0;
    }
  }

  /** A later question shows strictly more progress. */
  lemma ProgressStrictlyIncreasing(a: int, b: int, totalQuestions: int)
    requires totalQuestions > 0 && a < b
    ensures ProgressPercentage(a, totalQuestions) < ProgressPercentage(b, totalQuestions)
  {
    var t := totalQuestions as real;
    var ra := (a + 1) as real / t;
    var rb := (b + 1) as real / t;
    assert ra * t == (a + 1) as real && rb * t == (b + 1) as real;
    assert (rb - ra) * t == (b - a) as real;
    assert ra < rb;
  }

  /** The three looks a square can take; more than one may apply at once. */
  datatype SquareStyle = Completed | Current | Neutral

  /** The styles given to the square `squareId`. Completed styling follows the
      completed list, current styling the current square, each independently of
      the other; neutral styling is given exactly when neither applies, so every
      square has some style. */
  function SquareStyles(squareId: int, currentSquare: int, completedSquares: seq<int>): (styles: set<SquareStyle>)
    ensures Completed in styles <==> squareId in completedSquares
    ensures Current in styles <==> currentSquare == squareId
    ensures Neutral in styles <==> Completed !in styles && Current !in styles
    ensures styles != {}
  {
    (if squareId in completedSquares then {Completed} else {})
      + (if currentSquare == squareId then {Current} else {})
      + (if squareId !in completedSquares && currentSquare != squareId then {Neutral} else {})
  }

  /** A completed square that is also the current one shows both styles. */
  lemma CompletedAndCurrentTogether(squareId: int, completedSquares: seq<int>)
    requires squareId in completedSquares
    ensures SquareStyles(squareId, squareId, completedSquares) == {Completed, Current}
  {
  }

  /** One of the nine squares, as listed for display. */
  datatype MarketingSquare = MarketingSquare(id: int, title: string, description: string)

  /** The styles of every square, in the order the squares are listed. */
  function SquareRow(squares: seq<MarketingSquare>, currentSquare: int, completedSquares: seq<int>): (r: seq<set<SquareStyle>>)
    ensures |r| == |squares|
    ensures forall i | 0 <= i < |squares| :: r[i] == SquareStyles(squares[i].id, currentSquare, completedSquares)
  {
    if squares == [] then []
    else
      [SquareStyles(squares[0].id, currentSquare, completedSquares)]
        + SquareRow(squares[1..], currentSquare, completedSquares)
  }

  /** The "Current Section" block: the square shown and, when some listed
      square has that id, the first such square (whose title and
      description are displayed; nothing is displayed for them otherwise). */
  datatype CurrentSection = CurrentSection(square: int, found: Option<MarketingSquare>)

  /** `squares[k]` is the first listed square with id `id`. */
  predicate FirstWithId(squares: seq<MarketingSquare>, id: int, k: int) {
    0 <= k < |squares| && squares[k].id == id && forall j | 0 <= j < k :: squares[j].id != id
  }

  function CurrentSectionBlock(squares: seq<MarketingSquare>, currentSquare: int): (r: Option<CurrentSection>)
    ensures r.Some? <==> currentSquare > 0
    ensures r.Some? ==> r.value.square == currentSquare
    ensures r.Some? ==> (r.value.found.None? <==> forall i | 0 <= i < |squares| :: squares[i].id != currentSquare)
    ensures r.Some? && r.value.found.Some? ==>
      exists k | FirstWithId(squares, currentSquare, k) :: squares[k] == r.value.found.value
  {
    if currentSquare > 0 then
      var found := FindFirst(squares, (s: MarketingSquare) => s.id == currentSquare);
      assert found.Some? ==> exists k | FirstWithId(squares, currentSquare, k) :: squares[k] == found.value by {
        if found.Some? {
          var k :| 0 <= k < |squares| && squares[k] == found.value && squares[k].id == currentSquare
            && IsFirstMatch(squares, (s: MarketingSquare) => s.id == currentSquare, k);
          assert FirstWithId(squares, currentSquare, k);
        }
      }
      Some(CurrentSection(currentSquare, found))
    else None
  }
}
