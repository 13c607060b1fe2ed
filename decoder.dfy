/**
 * The output decoder of the bird-nest detector: it splits the rows of the
 * detection model's output (one row per candidate; lanes 0-3 are two corners,
 * lane 4 the confidence score, any further lanes are ignored) into a flat
 * boxes array and a scores array, keeps the
 * candidates whose score is strictly above the confidence threshold, and turns
 * each kept candidate's corners into an (x, y, width, height) box.
 *
 * Coordinates and scores are modelled as exact reals, not floating-point numbers.
 */
module Decoder {

  /** The fixed confidence cutoff; a candidate must score strictly above it. */
  const ConfidenceThreshold: real := 0.5

  /** Number of lanes of a candidate row that are read: 4 corner lanes and 1 score lane. */
  const RowWidth: nat := 5

  /** A box given by its top-left corner and its extent. */
  datatype BBox = BBox(x: real, y: real, width: real, height: real)

  datatype Detection = Detection(bbox: BBox, score: real)

  // ---------------------------------------------------------------------------
  // Splitting the raw output into boxes and scores
  // ---------------------------------------------------------------------------

  /** Every candidate row has the four corner lanes and the score lane. */
  predicate WideRows(rows: seq<seq<real>>)
  {
    forall row :: row in rows ==> |row| >= RowWidth
  }

  /** Lanes 0-3 of every row, concatenated in row order (the boxes slice, flattened). */
  function Boxes(rows: seq<seq<real>>): (boxes: seq<real>)
    requires WideRows(rows)
    ensures |boxes| == 4 * |rows|
  {
    if rows == [] then []
    else rows[0][..4] + Boxes(rows[1..])
  }

  /** Lane 4 of every row, in row order (the scores slice, flattened). */
  function Scores(rows: seq<seq<real>>): (scores: seq<real>)
    requires WideRows(rows)
    ensures |scores| == |rows|
  {
    if rows == [] then []
    else [rows[0][4]] + Scores(rows[1..])
  }

  /** Lanes 0-3 of row `i` land at boxes[4i..4i+3], and lane 4 at scores[i]. */
  lemma {:induction false} SplitLayout(rows: seq<seq<real>>, i: nat)
    requires WideRows(rows) && i < |rows|
    ensures |Boxes(rows)| == 4 * |Scores(rows)|
    ensures Boxes(rows)[4 * i] == rows[i][0]
    ensures Boxes(rows)[4 * i + 1] == rows[i][1]
    ensures Boxes(rows)[4 * i + 2] == rows[i][2]
    ensures Boxes(rows)[4 * i + 3] == rows[i][3]
    ensures Scores(rows)[i] == rows[i][4]
  {
    if i > 0 {
      var rest := rows[1..];
      SplitLayout(rest, i - 1);
      assert Boxes(rows) == rows[0][..4] + Boxes(rest);
      assert Scores(rows) == [rows[0][4]] + Scores(rest);
    }
  }

  // ---------------------------------------------------------------------------
  // Threshold filter and corner-to-extent conversion
  // ---------------------------------------------------------------------------

  /** The box spanning from corner (x1, y1) to corner (x2, y2). */
  function FromCorners(x1: real, y1: real, x2: real, y2: real): (b: BBox)
    ensures b.x == x1 && b.y == y1
    ensures b.x + b.width == x2 && b.y + b.height == y2
  {
    BBox(x1, y1, x2 - x1, y2 - y1)
  }

  /** The detection candidate `i` would give if it were kept. */
  function Candidate(boxes: seq<real>, scores: seq<real>, i: nat): (d: Detection)
    requires |boxes| == 4 * |scores| && i < |scores|
    ensures d.score == scores[i]
    ensures d.bbox.x == boxes[4 * i] && d.bbox.y == boxes[4 * i + 1]
    ensures d.bbox.x + d.bbox.width == boxes[4 * i + 2]
    ensures d.bbox.y + d.bbox.height == boxes[4 * i + 3]
  {
    Detection(FromCorners(boxes[4 * i], boxes[4 * i + 1], boxes[4 * i + 2], boxes[4 * i + 3]), scores[i])
  }

  /**
   * The detections of all candidates, in candidate order: the detections of
   * all but the last candidate, followed by the last one's if it is kept.
   */
  function Decode(boxes: seq<real>, scores: seq<real>): (r: seq<Detection>)
    requires |boxes| == 4 * |scores|
    ensures |r| <= |scores|
    ensures forall d :: d in r ==> d.score > ConfidenceThreshold
  {
    if scores == [] then []
    else
      var n := |scores| - 1;
      Decode(boxes[..4 * n], scores[..n])
        + (if scores[n] > ConfidenceThreshold then [Candidate(boxes, scores, n)] else [])
  }

  /**
   * Decoding of the output rows: split, then filter and convert.
   * DecodeOutputRows states exactly which detections it returns.
   */
  function DecodeOutput(rows: seq<seq<real>>): (r: seq<Detection>)
    requires WideRows(rows)
    ensures |r| <= |rows|
    ensures forall d :: d in r ==> d.score > ConfidenceThreshold
  {
    Decode(Boxes(rows), Scores(rows))
  }

  // ---------------------------------------------------------------------------
  // Independent description of which candidates survive
  // ---------------------------------------------------------------------------

  /** The indices of the candidates scoring above the threshold, in increasing order. */
  function KeptIndices(scores: seq<real>): (r: seq<nat>)
    ensures forall j :: 0 <= j < |r| ==> r[j] < |scores|
    ensures forall j, k :: 0 <= j < k < |r| ==> r[j] < r[k]
    ensures forall i :: 0 <= i < |scores| ==> (i in r <==> scores[i] > ConfidenceThreshold)
  {
    if scores == [] then []
    else
      var n := |scores| - 1;
      var prefix := KeptIndices(scores[..n]);
      assert forall i :: 0 <= i < n ==> scores[..n][i] == scores[i];
      prefix + (if scores[n] > ConfidenceThreshold then [n] else [])
  }

  /** Truncating the candidates to the first n does not change the candidates that remain. */
  lemma CandidateOfPrefix(boxes: seq<real>, scores: seq<real>, n: nat, c: nat)
    requires |boxes| == 4 * |scores| && c < n <= |scores|
    ensures Candidate(boxes[..4 * n], scores[..n], c) == Candidate(boxes, scores, c)
  {
  }

  /**
   * Decode keeps exactly the candidates with score above the threshold, in
   * their original order, one detection per kept candidate.
   */
  lemma {:induction false} DecodeIsFilterMap(boxes: seq<real>, scores: seq<real>)
    requires |boxes| == 4 * |scores|
    ensures |Decode(boxes, scores)| == |KeptIndices(scores)|
    ensures forall j :: 0 <= j < |Decode(boxes, scores)| ==>
              Decode(boxes, scores)[j] == Candidate(boxes, scores, KeptIndices(scores)[j])
  {
    if scores != [] {
      var n := |scores| - 1;
      var b', s' := boxes[..4 * n], scores[..n];
      DecodeIsFilterMap(b', s');
      var r', k' := Decode(b', s'), KeptIndices(s');
      var last := if scores[n] > ConfidenceThreshold then [Candidate(boxes, scores, n)] else [];
      assert Decode(boxes, scores) == r' + last;
      assert KeptIndices(scores) == k' + (if scores[n] > ConfidenceThreshold then [n] else []);
      forall j | 0 <= j < |r'|
        ensures r'[j] == Candidate(boxes, scores, k'[j])
      {
        CandidateOfPrefix(boxes, scores, n, k'[j]);
      }
    }
  }

  /** No detections exactly when no candidate scores above the threshold (including N = 0). */
  lemma DecodeEmptyIff(boxes: seq<real>, scores: seq<real>)
    requires |boxes| == 4 * |scores|
    ensures Decode(boxes, scores) == [] <==>
            forall i :: 0 <= i < |scores| ==> scores[i] <= ConfidenceThreshold
  {
    DecodeIsFilterMap(boxes, scores);
    var k := KeptIndices(scores);
    if k != [] {
      assert k[0] in k;
    } else {
      forall i | 0 <= i < |scores| ensures scores[i] <= ConfidenceThreshold {
        assert i !in k;
      }
    }
  }

  /**
   * The detection row `i` (x1, y1, x2, y2, score, ...) stands for:
   * bbox (x1, y1, x2 - x1, y2 - y1) with that score.
   */
  function RowDetection(rows: seq<seq<real>>, i: nat): Detection
    requires WideRows(rows) && i < |rows|
  {
    Detection(BBox(rows[i][0], rows[i][1], rows[i][2] - rows[i][0], rows[i][3] - rows[i][1]),
              rows[i][4])
  }

  /** Candidate `i` of the split output is built from row `i`. */
  lemma CandidateOfRow(rows: seq<seq<real>>, i: nat)
    requires WideRows(rows) && i < |rows|
    ensures Candidate(Boxes(rows), Scores(rows), i) == RowDetection(rows, i)
  {
    SplitLayout(rows, i);
  }

  /**
   * End to end: the detections decoded from the output rows are the rows whose
   * score lane exceeds the threshold, in row order, with
   * bbox = (x1, y1, x2 - x1, y2 - y1) and the row's score.
   */
  lemma DecodeOutputRows(rows: seq<seq<real>>)
    requires WideRows(rows)
    ensures |DecodeOutput(rows)| == |KeptIndices(Scores(rows))|
    ensures forall i :: 0 <= i < |rows| ==>
              (i in KeptIndices(Scores(rows)) <==> rows[i][4] > ConfidenceThreshold)
    ensures forall j :: 0 <= j < |DecodeOutput(rows)| ==>
              DecodeOutput(rows)[j] == RowDetection(rows, KeptIndices(Scores(rows))[j])
  {
    var boxes, scores := Boxes(rows), Scores(rows);
    DecodeIsFilterMap(boxes, scores);
    forall i | 0 <= i < |rows|
      ensures i in KeptIndices(Scores(rows)) <==> rows[i][4] > ConfidenceThreshold
    {
      SplitLayout(rows, i);
    }
    forall j | 0 <= j < |DecodeOutput(rows)|
      ensures DecodeOutput(rows)[j] == RowDetection(rows, KeptIndices(Scores(rows))[j])
    {
      CandidateOfRow(rows, KeptIndices(scores)[j]);
    }
  }

  /**
   * The worked cases: one row (10, 20, 30, 50, 0.9); the same row with a sixth
   * lane, which is ignored; a score of exactly 0.5; no rows; five candidates
   * scoring 0.1.
   */
  lemma DecodeExamples()
    ensures DecodeOutput([[10.0, 20.0, 30.0, 50.0, 0.9]]) == [Detection(BBox(10.0, 20.0, 20.0, 30.0), 0.9)]
    ensures DecodeOutput([[10.0, 20.0, 30.0, 50.0, 0.9, 7.0]]) == [Detection(BBox(10.0, 20.0, 20.0, 30.0), 0.9)]
    ensures DecodeOutput([[10.0, 20.0, 30.0, 50.0, 0.5]]) == []
    ensures DecodeOutput([]) == []
    ensures forall boxes: seq<real> | |boxes| == 20 :: Decode(boxes, [0.1, 0.1, 0.1, 0.1, 0.1]) == []
  {
    var row: seq<real> := [10.0, 20.0, 30.0, 50.0, 0.9];
    assert Boxes([row]) == [10.0, 20.0, 30.0, 50.0];
    assert Scores([row]) == [0.9];
    var wide: seq<real> := row + [7.0];
    assert Boxes([wide]) == [10.0, 20.0, 30.0, 50.0];
    assert Scores([wide]) == [0.9];
    var low: seq<real> := [10.0, 20.0, 30.0, 50.0, 0.5];
    assert Scores([low]) == [0.5];
    forall boxes: seq<real> | |boxes| == 20
      ensures Decode(boxes, [0.1, 0.1, 0.1, 0.1, 0.1]) == []
    {
      DecodeEmptyIff(boxes, [0.1, 0.1, 0.1, 0.1, 0.1]);
    }
  }

  // ---------------------------------------------------------------------------
  // The formatting loop
  // ---------------------------------------------------------------------------

  /**
   * The loop that walks the candidates by index, reading boxes[4i..4i+3] and
   * scores[i], and pushes a detection for each candidate above the threshold.
   */
  method FormatDetections(boxesArray: seq<real>, scoresArray: seq<real>) returns (detections: seq<Detection>)
    requires |boxesArray| == 4 * |scoresArray|
    ensures detections == Decode(boxesArray, scoresArray)
  {
    detections := [];
    var i := 0;
    while i < |scoresArray|
      invariant 0 <= i <= |scoresArray|
      invariant detections == Decode(boxesArray[..4 * i], scoresArray[..i])
    {
      if scoresArray[i] > ConfidenceThreshold {
        detections := detections + [Detection(
          BBox(boxesArray[i * 4],
               boxesArray[i * 4 + 1],
               boxesArray[i * 4 + 2] - boxesArray[i * 4],
               boxesArray[i * 4 + 3] - boxesArray[i * 4 + 1]),
          scoresArray[i])];
      }
      assert boxesArray[..4 * (i + 1)][..4 * i] == boxesArray[..4 * i];
      assert scoresArray[..i + 1][..i] == scoresArray[..i];
      i := i + 1;
    }
    assert boxesArray[..4 * i] == boxesArray;
    assert scoresArray[..i] == scoresArray;
  }
}
