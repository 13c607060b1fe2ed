# Bird-nest detector: output decoding and model handle

This project models the detection core of a browser application that finds
bird nests in photographs with a YOLO-style TensorFlow.js model. The core is
`detectBirdNests` in `src/lib/detector.ts`. It runs the model on a
preprocessed 640×640 image and takes the first output tensor. Each candidate
row of that tensor holds five numbers: the corners `(x1, y1, x2, y2)` and a
confidence score. The core splits the tensor into a boxes array (lanes 0-3)
and a scores array (lane 4). It keeps the candidates whose score is strictly
above 0.5. It turns each kept candidate into a detection with bbox
`(x1, y1, x2 - x1, y2 - y1)` and its score, in candidate order. There is no
sorting and no suppression of overlapping boxes.

Two modules:

- `Decoder` (`decoder.dfy`) is the pure part. `Boxes` and `Scores` are the
  two slices, flattened, of the candidate rows of batch 0 of the output.
  `Decode` filters and converts, `KeptIndices` is an independent description
  of which candidates survive, and `FormatDetections` is the source's index
  loop, proved equal to `Decode`.
- `Detector` (`detector.dfy`) is the stateful part. The class
  `BirdNestDetector` holds the module-level model handle and a ghost set of
  live (allocated, not yet disposed) tensors. `InitializeModel` loads the
  model and runs the warm-up. `DetectBirdNests` is the entry point.

Coordinates and scores are exact `real`s, not floating-point numbers. An output
tensor of shape [B, N, C] is a value with C lanes and B batches of N rows.
The code does not check the shape itself. The two slices read batch 0 only,
and they fit exactly when B >= 1 and C >= 5. Otherwise the slice throws
inside the `try`, and the model reports `SliceOutOfRange`. Lanes past the
fifth are ignored. Loading the model, preprocessing the image and the
model's `predict` are foreign calls. Their outcomes enter as parameters.
`predict` is a function held by the loaded model.

Three behaviours of the code are kept as written:

- the threshold is the constant 0.5, not a parameter;
- there is no shape error of the detector's own: a shape the slices do not
  fit fails in the tensor library's slice, and that error is rethrown;
- tensors are not released on failure paths. When `predict` throws, the input
  tensor stays live. When anything after `predict` throws, the input tensor
  and every prediction tensor stay live. When the warm-up in
  `initializeModel` throws, the all-zero input stays live, and the handle
  keeps the loaded model even though `false` is returned.

## Model

| member | source | states |
|---|---|---|
| `Decoder.Boxes` | src/lib/detector.ts:74 | the flattened boxes slice of N rows has 4·N values |
| `Decoder.Scores` | src/lib/detector.ts:75 | the flattened scores slice of N rows has N values |
| `Decoder.SplitLayout` | src/lib/detector.ts:73-76 | lanes 0-3 of row i are at boxes[4i..4i+3] and lane 4 at scores[i], and boxes has 4 × as many entries as scores, so every read at i*4 .. i*4+3 in the loop is in bounds |
| `Decoder.DecodeOutput` | src/lib/detector.ts:71-107 | decoding the rows of the output gives at most one detection per row, each scoring strictly above 0.5 (`DecodeOutputRows` gives exactly which) |
| `Decoder.FromCorners` | src/lib/detector.ts:98-103 | the bbox starts at corner (x1, y1) and its width and height reach corner (x2, y2): x + width = x2, y + height = y2 |
| `Decoder.Candidate` | src/lib/detector.ts:97-105 | candidate i's detection carries scores[i] and spans from (boxes[4i], boxes[4i+1]) to (boxes[4i+2], boxes[4i+3]) |
| `Decoder.Decode` | src/lib/detector.ts:94-107 | never more detections than candidates; every detection's score is strictly above 0.5 |
| `Decoder.KeptIndices` | src/lib/detector.ts:95-96 | the surviving indices are strictly increasing and in range, and index i survives if and only if scores[i] > 0.5 (so exactly 0.5 is excluded) |
| `Decoder.DecodeIsFilterMap` | src/lib/detector.ts:94-107 | the output is exactly one detection per surviving candidate, in original index order: the j-th detection is candidate KeptIndices[j] |
| `Decoder.DecodeEmptyIff` | src/lib/detector.ts:94-109 | the result is empty if and only if every score is at most 0.5; zero candidates give an empty list, not an error |
| `Decoder.CandidateOfRow` | src/lib/detector.ts:97-104 | after the split, candidate i is row i of the output: bbox (x1, y1, x2 - x1, y2 - y1) and score lane 4 |
| `Decoder.DecodeOutputRows` | src/lib/detector.ts:71-107 | end to end from the output rows: row i survives if and only if its lane 4 exceeds 0.5, and the detections are those rows in order, with bbox (x1, y1, x2 - x1, y2 - y1) and score lane 4 |
| `Decoder.DecodeExamples` | src/lib/detector.ts:95-107 | row (10, 20, 30, 50, 0.9) gives one detection with bbox (10, 20, 20, 30) and score 0.9, also with a sixth lane present; a score of exactly 0.5, zero rows, and five candidates scoring 0.1 give no detections |
| `Decoder.FormatDetections` | src/lib/detector.ts:93-107 | the push loop over candidate indices returns exactly `Decode` of the boxes and scores arrays |
| `Detector.FirstOutput` | src/lib/detector.ts:72 | a single prediction is decoded itself; of a list only the first element is decoded; an empty list has no first element and fails |
| `Detector.SliceRows` | src/lib/detector.ts:73-76 | the two slices succeed exactly when the output has at least one batch and at least five lanes, and then cut the rows of batch 0; otherwise they fail with an out-of-range slice |
| `Detector.OutputRows` | src/lib/detector.ts:71-77 | the rows handed to the decoder, when there are any, all have the four corner lanes and the score lane |
| `Detector.BirdNestDetector.constructor` | src/lib/detector.ts:8 | the model handle starts empty and no tensor is live |
| `Detector.BirdNestDetector.InitializeModel` | src/lib/detector.ts:33-52 | returns true exactly when both loading and the warm-up inference succeed; a loaded model is stored in the handle even if the warm-up then fails; on success every warm-up tensor and the dummy input are disposed; after a warm-up failure the dummy input stays live |
| `Detector.BirdNestDetector.DetectBirdNests` | src/lib/detector.ts:59-114 | with an empty handle, fails with "Model not initialized" and changes nothing; errors from preprocessing and inference propagate unchanged, and an inference error leaves the input tensor live; a missing first output or a slice that does not fit is rethrown with the input and every prediction tensor live; on success returns the decoded rows of batch 0 of the first output, and the input tensor, every prediction tensor, boxes and scores have all been disposed |

## Left out

- Image preprocessing (`preprocessImage`): browser image decoding, bilinear resize and division by 255 are foreign library calls on floating point. `DetectBirdNests` receives the outcome as a parameter.
- Model loading and inference (`tf.loadLayersModel`, `model.predict`): foreign calls. Loading enters as a parameter; `predict` is an uninterpreted function of the loaded model.
- Output tensors are taken to be rank 3 ([B, N, C]) with every row holding C values. A prediction of another rank, on which the three-element slice would throw, is not represented. The JavaScript type error of an empty prediction list and the library's slice error are represented by kind (`MissingOutput`, `SliceOutOfRange`), not by their messages.
- IEEE-754 floating point: output values are 32-bit floats read into JavaScript (64-bit) numbers. Over `real` the subtractions `x2 - x1` and `y2 - y1` are exact, so rounding is not modelled. NaN and infinities are not represented; a NaN score would never be kept, because `NaN > 0.5` is false.
- Promises, `await`, `tf.tidy` memory scoping and console logging. Tensor memory is modelled only as a set of live tensor identities.
- The user interface, canvas drawing, application bootstrap, WebGL backend selection and the ONNX-to-TensorFlow.js conversion script are outside the detection core.
