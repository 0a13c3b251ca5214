# Wheat pesticide decision pipeline — a Dafny model

This project models the decision core of a field crop monitor. A camera photographs wheat plants, a classifier labels each image, and a rule engine turns the label into a pesticide-spraying recommendation. Four parts are modelled:

- **Dosage rule engine** (`PesticideRuleEngine`, module `DosageRules`). This is a first-match-wins function from `(label, confidence, field area)` to `(spray?, reason, amount in ml)`. It checks the 0.80 confidence threshold first and `Healthy` second. Then the pest set `Aphid`, `Mite`, `Stem fly` gets multiplier 2.0 and every other label counts as a disease, with multiplier 1.5. The dose is 400 ml per 1000 sqm times the multiplier, scaled to the area, capped at 2500 ml per 1000 sqm (also scaled) and rounded to two decimals. Python's `round(x, 2)` is modelled in module `Rounding` as round-half-even on exact reals.
- **Frame analysis** (`WheatAnalyzer`, module `FrameAnalysis`). Construction fails when the checkpoint is missing or the training directory does not exist. Otherwise the class names are the sorted listing, in Python's code-point order. `analyze_frame` reduces the classifier's probability vector to the first index of its maximum, returning that class name and that probability. The classifier is opaque, so the model takes the probability vector as input.
- **Live loop** (`run_live_analysis`, module `LiveAnalysis`). It is an imperative method with a two-state loop, `Running` then terminal `Stopped`. A `Camera` object holds the trace of capture outcomes (frame, failed read, or operator interrupt) and counts its releases. The method is proved against a reference semantics `Cycles` over that trace.
- **Offline dataset balancing** (the augmentation block of `ml_logic/train_wheat_system.py`, module `DatasetBalancing`). The training root is a map from entry name to `Directory(files)` or another entry. A `TrainingDirectory` object owns that map and a log of generated images. Its `Balance` method loops over the class directories and counts image files, matching `.png`, `.jpg` or `.jpeg` case-insensitively. A class with between 1 and 599 images gets `600 - n` new images. Each seed is picked nondeterministically from the original image list, and each output is a fresh `aug_<class>…jpg` name in the same directory.

Three behaviours of the code worth noting:

- `class_names` is the sorted listing of *every* entry of the training directory, not only its subdirectories (run_wheat_analysis.py:19).
- When the camera fails to open, the function returns without calling `release` (run_wheat_analysis.py:72-74). The model therefore records zero releases on that path.
- An exception from `analyze_frame` also ends the loop, and `finally` still releases the camera (run_wheat_analysis.py:31-33, 107-108). An empty prediction vector makes `np.max` raise, and an index past `class_names` raises as well. Once `finally` has released the camera, that exception propagates out of `run_live_analysis` uncaught; a failed read or an interrupt instead returns normally. `StopReason.AnalysisFailed` stands for that escape.

Inputs that come from the environment are parameters:

- whether the checkpoint exists;
- the training-directory listing, or `None` when the directory does not exist;
- whether the camera opens;
- the finite trace of capture outcomes.

When the trace runs out, the loop is still `Running` and nothing has been released: the model observes a finite prefix of a run that may go on forever.

## Model

| member | source | states |
|---|---|---|
| Rounding.RoundHalfEven | run_wheat_analysis.py:60 | the result is an integer within 1/2 of the input, and on a tie it is the even one |
| Rounding.RoundHalfEvenUnique | run_wheat_analysis.py:60 | any integer that is nearest with ties to even is exactly the rounded value |
| Rounding.RoundHalfEvenMonotone | run_wheat_analysis.py:60 | rounding to an integer preserves order |
| Rounding.Round2 | run_wheat_analysis.py:60 | `round(x, 2)` lies within 0.005 of x and is a whole number of hundredths; when x is exactly halfway between two hundredths, the even one is chosen |
| Rounding.Round2Monotone | run_wheat_analysis.py:60 | `round(x, 2)` preserves order |
| Rounding.Round2OfHundredths | run_wheat_analysis.py:60 | a value with at most two decimals is unchanged by `round(x, 2)` |
| Rounding.Round2NonNegative | run_wheat_analysis.py:60 | rounding a non-negative amount never gives a negative one |
| Rounding.Round2OfTiny | run_wheat_analysis.py:60 | an amount below half a hundredth rounds to 0 |
| DosageRules.RuleEngine.CalculateDosage | run_wheat_analysis.py:43-60 | confidence below the threshold gives no spray, reason BelowThreshold and 0 ml, for every label including Healthy; Healthy at or above the threshold gives no spray and 0 ml; otherwise it sprays with PestDetected exactly for pest-set labels and DiseaseDetected for the rest, and the amount is the rounded minimum of the group's scaled dose and the scaled cap; it sprays iff confidence >= threshold and the label is not Healthy |
| DosageRules.MultiplierByPestSet | run_wheat_analysis.py:51-57 | when confidence reaches the threshold and the label is not Healthy, it sprays; the dose is base × pest multiplier with reason PestDetected exactly when the label is in the pest set, and base × disease multiplier with reason DiseaseDetected for every other label; in both cases it is scaled to the area, capped by the scaled maximum and rounded |
| DosageRules.Min | run_wheat_analysis.py:57 | `min` is at most each argument and equal to one of them |
| DosageRules.ToArea | run_wheat_analysis.py:55-56 | scaling a per-1000-sqm quantity to 1000 sqm leaves it unchanged, and a non-negative quantity on a non-negative area stays non-negative |
| DosageRules.NewRuleEngine | run_wheat_analysis.py:39-41 | the constructed rules are well formed (non-negative constants, Healthy is not a pest); the pest set is exactly Aphid, Mite and Stem fly; pests get a larger multiplier than diseases; and neither dose per 1000 sqm exceeds the cap |
| DosageRules.ToAreaMonotone | run_wheat_analysis.py:55-56 | scaling a non-negative per-1000-sqm quantity to a field preserves the order of areas |
| DosageRules.AmountMonotoneInArea | run_wheat_analysis.py:52-60 | for well-formed rules the recommended amount is non-decreasing in the field area, for every analysis result |
| DosageRules.DefaultCapNeverBinds | run_wheat_analysis.py:41-57 | for the constructed rules and any area >= 0, a spray amount is the rounded 800 (pest) or 600 (disease) ml per 1000 sqm, so the cap never takes effect |
| DosageRules.DefaultAmountWithinCap | run_wheat_analysis.py:55-60 | for the constructed rules and any area >= 0, the amount is between 0 and 2.5 ml per sqm times the area, even after rounding |
| DosageRules.ScenarioHealthy | run_wheat_analysis.py:49-50 | Healthy at 95% gives no spray and 0 ml |
| DosageRules.ScenarioAphid | run_wheat_analysis.py:51-60 | Aphid at 85% on 1000 sqm gives a pest spray of 800 ml |
| DosageRules.ScenarioRust | run_wheat_analysis.py:51-60 | Rust at exactly 80% on 2000 sqm gives a disease spray of 1200 ml (the threshold is inclusive) |
| DosageRules.ScenarioDiseaseDefaultArea | run_wheat_analysis.py:51-60 | any non-pest, non-Healthy label at >= 80% on 1000 sqm gives a disease spray of 600 ml |
| DosageRules.ScenarioMiteLowConfidence | run_wheat_analysis.py:47-48 | Mite at 50% gives no spray, with the reason citing 0.50 |
| FrameAnalysis.LexLe | run_wheat_analysis.py:19 | a prefix orders below any extension of it, a smaller first code point orders below, a larger one orders above, and a non-empty string is never below the empty one |
| FrameAnalysis.LexLeReflexive | run_wheat_analysis.py:19 | every name is ordered below or equal to itself |
| FrameAnalysis.LexLeTotal | run_wheat_analysis.py:19 | any two names are comparable |
| FrameAnalysis.LexLeAntisymmetric | run_wheat_analysis.py:19 | two names each ordered below the other are equal |
| FrameAnalysis.LexLeTransitive | run_wheat_analysis.py:19 | the order is transitive |
| FrameAnalysis.Insert | run_wheat_analysis.py:19 | inserting into a sorted list gives a sorted list holding the same names plus the new one |
| FrameAnalysis.Sort | run_wheat_analysis.py:19 | `sorted` returns a sorted permutation of the listing |
| FrameAnalysis.SortedUnique | run_wheat_analysis.py:19 | two sorted permutations of the same names are equal, so the sorted listing is unique |
| FrameAnalysis.ClassNamesAreSortedListing | run_wheat_analysis.py:19 | the analyzer's class names equal any sorted arrangement of the directory listing |
| FrameAnalysis.NewAnalyzer | run_wheat_analysis.py:13-19 | a missing checkpoint fails with ModelNotFound before the listing is consulted; a missing training directory fails with DataDirNotFound; otherwise the class names are the listing, sorted |
| FrameAnalysis.ArgMax | run_wheat_analysis.py:32 | the index attains the maximum and every earlier entry is strictly smaller (the first maximum) |
| FrameAnalysis.AnalyzeFrame | run_wheat_analysis.py:31-35 | an empty vector fails with EmptyPrediction, and only it does; otherwise, with i the first index of the maximum, it succeeds with the class name at i and the probability at i when i is below the number of class names, and fails with ClassIndexOutOfRange(i) when it is not; so it always succeeds when the vector is non-empty and no longer than the class list |
| LiveAnalysis.Cycle | run_wheat_analysis.py:87-88 | a cycle yields a report exactly when the frame can be analysed; the report's confidence is one of the frame's probabilities and its recommendation is the rule engine's decision on the analysis for 1000 sqm |
| LiveAnalysis.ReportsBoundedByLeadingFrames | run_wheat_analysis.py:80-105 | for any trace, the run reports at most once per capture before the first failed read or interrupt, and it is still running only when every capture was a frame and each was reported |
| LiveAnalysis.LeadingFrames | run_wheat_analysis.py:80-85 | counts exactly the successful captures before the first failed read or interrupt |
| LiveAnalysis.ReportsMatchLeadingFrames | run_wheat_analysis.py:80-105 | when every frame before the first failed read or interrupt is analysed without raising, the number of reports equals the number of leading successful captures; the loop stops iff the trace holds a failure or interrupt, and it stops for the first one |
| LiveAnalysis.ReportsAreDecisions | run_wheat_analysis.py:82-88 | report k is the analysis of the k-th capture together with the rule engine's decision on it for the default 1000 sqm |
| LiveAnalysis.ScenarioTwoFramesThenFailure | run_wheat_analysis.py:80-88 | two good frames and then a failed read give two reports and a Stopped(CaptureFailed) state |
| LiveAnalysis.Camera.constructor | run_wheat_analysis.py:71 | a new handle is at the start of its trace and has not been released |
| LiveAnalysis.Camera.Read | run_wheat_analysis.py:82 | a read delivers the next trace event and does not release |
| LiveAnalysis.Camera.Release | run_wheat_analysis.py:108 | a release increments the release count and leaves the read position alone |
| LiveAnalysis.AnalysisLoop | run_wheat_analysis.py:79-108 | from a fresh handle, the loop's final state and reports are exactly those of `Cycles` over the camera's trace; the camera is released once if the loop stopped and not at all while it is still running |
| LiveAnalysis.RunLiveAnalysis | run_wheat_analysis.py:62-109 | a failed construction stops without constructing the camera; a camera that does not open stops with no reports and no release; otherwise the state and reports are those of `Cycles` over the trace with the constructed rules; an opened camera is released exactly once iff the loop stopped, and never more than once |
| DatasetBalancing.Lower | ml_logic/train_wheat_system.py:44 | lower-casing keeps the length, leaves no upper-case letter, leaves every other character where it was, and gives a string that lower-casing does not change again |
| DatasetBalancing.IsImageFile | ml_logic/train_wheat_system.py:44 | an image name has at least four characters, and every name ending in `.png`, `.jpg` or `.jpeg` is an image |
| DatasetBalancing.ImageFilterIgnoresCase | ml_logic/train_wheat_system.py:44 | lower-casing is idempotent, and whether a name counts as an image does not depend on its case |
| DatasetBalancing.ImageFilterAcceptsUpperCase | ml_logic/train_wheat_system.py:44 | `leaf.JPG` and `aphid.png` count as images |
| DatasetBalancing.ImageFilterAcceptsMixedCase | ml_logic/train_wheat_system.py:44 | `rust_01.Jpeg` counts as an image |
| DatasetBalancing.ImageFilterRejectsOthers | ml_logic/train_wheat_system.py:44 | `notes.txt` and a bare `jpg` do not count as images |
| DatasetBalancing.ImageFiles | ml_logic/train_wheat_system.py:44-45 | the filtered list holds exactly the listed names that pass the image filter |
| DatasetBalancing.ImageFilesAppend | ml_logic/train_wheat_system.py:44-45 | filtering distributes over concatenation of listings |
| DatasetBalancing.NonClassEntriesUntouched | ml_logic/train_wheat_system.py:39-41 | balancing leaves every root entry that is not a directory exactly as it was |
| DatasetBalancing.NeedsAugmentation | ml_logic/train_wheat_system.py:49-50 | when the count check passes, between 1 and 599 images are to be generated and the listing holds an image to seed them |
| DatasetBalancing.AugmentedNameIsImage | ml_logic/train_wheat_system.py:61-64 | every generated `aug_<class>…jpg` file passes the image filter |
| DatasetBalancing.ExtendedImageCount | ml_logic/train_wheat_system.py:55-65 | appending n fresh generated names raises the image count by exactly n |
| DatasetBalancing.BalancedReachesTarget | ml_logic/train_wheat_system.py:49-65 | a class that started with between 1 and 599 images ends with exactly 600 |
| DatasetBalancing.BalancedNeedsNothing | ml_logic/train_wheat_system.py:49 | after balancing, no class directory meets the augmentation condition |
| DatasetBalancing.BalanceIdempotent | ml_logic/train_wheat_system.py:49 | balancing an already balanced tree changes nothing |
| DatasetBalancing.GeneratedImageLoggedOnce | ml_logic/train_wheat_system.py:53-65 | after a pass, every image a class gained is the output of exactly one log entry of that class, and that entry's seed is an image the class held before the pass |
| DatasetBalancing.FreshAugmentedNameExists | ml_logic/train_wheat_system.py:61-64 | for any directory there is an `aug_<class>…jpg` name not yet in it |
| DatasetBalancing.TrainingDirectory.constructor | ml_logic/train_wheat_system.py:15-16 | the object holds the given root and an empty generation log |
| DatasetBalancing.TrainingDirectory.AugmentClass | ml_logic/train_wheat_system.py:53-65 | after `count` iterations the class directory is its old listing followed by exactly `count` fresh `aug_<class>…jpg` names; every other entry is unchanged; exactly `count` log entries are added, the j-th for this class and naming the j-th appended file, and each seed is one of the originals |
| DatasetBalancing.TrainingDirectory.BalanceClass | ml_logic/train_wheat_system.py:42-65 | one class's entry changes as `EntryBalanced` says (untouched unless it has 1..599 images, and then exactly 600 - n fresh generated names appended); no other entry changes; the log gains 600 - n entries when the class needed augmentation and none otherwise, the j-th naming the j-th appended file, and each new entry's seed is an image of the class's listing before the step |
| DatasetBalancing.TrainingDirectory.Balance | ml_logic/train_wheat_system.py:39-65 | the new root is `BalancedFrom` the old one: keys unchanged; a directory with 0 or >= 600 images, or a non-directory, stays as it was; a directory with 1..599 images keeps its files and gains exactly 600 - n fresh generated names; `Provenance` holds of the new log entries: every seed is an image of its class's listing before the pass, so generated images never seed others, and every output is a file of that class that was not there before; and for every class, the outputs the new log entries record for it are, in order, exactly the files it gained |

## Left out

- Model loading, `model.predict`, colour conversion, resizing and normalisation of frames (run_wheat_analysis.py:18, 24-29): these are foreign library calls over float tensors. A frame is represented by the probability vector the classifier returns for it. A checkpoint that exists but cannot be loaded is not modelled.
- Printing, timestamps and the `.1%` / `.2%` formatting of reasons and reports (run_wheat_analysis.py:48, 59, 90-99): the reason is a tagged value, and a report keeps the analysis and the recommendation.
- `time.sleep(10)` and the real `KeyboardInterrupt` mechanism (run_wheat_analysis.py:103, 105): an interrupt is an event in the capture trace. An interrupt during cycle k's read, analysis or report is modelled as an `Interrupt` in place of that frame, so that cycle adds no report. An interrupt during the sleep (line 103) is an `Interrupt` before the next capture. A report is treated as emitted atomically.
- Rounding.Round2: rounds the exact real value half-to-even. It does not claim the bit-exact result of Python's `round` on binary floating-point numbers. Confidence, area and the 0.80 threshold are exact reals, not binary floats.
- NaN entries in the probability vector are not modelled: reals have none.
- Listing errors other than a missing directory are not modelled. `os.listdir` raises `NotADirectoryError` when the path is a file and `PermissionError` when it cannot be read (run_wheat_analysis.py:19). Line 67 catches only `FileNotFoundError`, so these escape `run_live_analysis` as uncaught exceptions.
- LiveAnalysis.Camera.IsOpened: it is the handle's fixed open/closed outcome, a parameter of the run; the branch on it at run_wheat_analysis.py:72-74 is stated by `RunLiveAnalysis`.
- DatasetBalancing.Lower: lower-cases only the ASCII letters `A`-`Z`. Python's `str.lower` handles all of Unicode.
- The image transforms themselves (`ImageDataGenerator`, `load_img`, `img_to_array`, `flow`; ml_logic/train_wheat_system.py:33-37, 57-65): one iteration is one "write a new image" step. A file is only its name, so file contents are not modelled.
- DatasetBalancing.TrainingDirectory.AugmentClass: the fresh output name is any unused name with prefix `aug_<class>` and suffix `.jpg`. The real name contains a random number and could in principle collide with an existing file. Overwriting after such a collision is not modelled.
- `random.choice` is a nondeterministic pick from the original list. Uniformity is not modelled.
- Two processes balancing the same directory at once is not modelled: the process is single-threaded.
- Training, fine-tuning, checkpoint callbacks and plotting (ml_logic/train_wheat_system.py:69-171) are not part of this model.
- Determinism of `calculate_dosage` holds by construction: it reads only its arguments and the engine's rules, so it is a Dafny function. No separate lemma states it.
